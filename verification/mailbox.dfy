// The growable ring: a class over an array, proved against transitions on an
// abstract box. One method per region the source runs under its spinlock, and
// mailbox_try_push as a whole, with what other threads do while it is unlocked.
module Mailbox {
  import opened Wire

  datatype PushResult = OK | FULL | CLOSED

  // queue is what the ring holds, oldest first.
  datatype Box<!T> = Box(
    queue: seq<T>, capacity: nat, initial: nat, overload: nat, threshold: nat,
    closed: bool, scheduled: bool)
  {
    ghost predicate Valid() {
      |queue| <= capacity && 0 < initial && 0 < threshold && 0 < capacity
    }
  }

  // How one locked region of mailbox_try_push ends: the push is over, or the
  // caller must go and allocate twice the capacity it saw.
  datatype Section = Done(result: PushResult, notify: bool) | NeedSpare(capacity: nat)

  function New<T>(capacity: nat): Box<T> {
    Box([], capacity, capacity, 0, capacity, false, false)
  }

  // The code after the growth loop
  function Insert<T>(b: Box<T>, m: T): (Box<T>, Section) {
    if b.closed then (b, Done(CLOSED, false))
    else (b.(queue := b.queue + [m], scheduled := true), Done(OK, !b.scheduled))
  }

  // A locked region entered without a spare buffer
  function PushEnter<T>(b: Box<T>, m: T): (Box<T>, Section) {
    if !b.closed && |b.queue| == b.capacity then (b, NeedSpare(b.capacity)) else Insert(b, m)
  }

  function Grow<T>(b: Box<T>): Box<T> {
    b.(capacity := 2 * b.capacity)
  }

  // A locked region entered with a spare made for capacity c
  function PushResume<T>(b: Box<T>, m: T, c: nat): (Box<T>, Section) {
    if b.capacity != c then PushEnter(b, m)
    else if !b.closed && |b.queue| == b.capacity then Insert(Grow(b), m)
    else Insert(b, m)
  }

  // The threshold doubles past the length left behind.
  function Doubled(threshold: nat, count: nat): (r: nat)
    requires threshold > 0
    ensures r >= threshold && count <= r
    decreases count - threshold
  {
    if count > threshold then Doubled(2 * threshold, count) else threshold
  }

  // It is the least of the threshold times the powers of two that the length is not past.
  lemma {:induction false} DoublesLeast(threshold: nat, count: nat) returns (k: nat)
    requires threshold > 0
    ensures Doubled(threshold, count) == threshold * Pow2(k)
    ensures forall j: nat :: count <= threshold * Pow2(j) ==> k <= j
    decreases count - threshold
  {
    if count > threshold {
      var rest := DoublesLeast(2 * threshold, count);
      k := rest + 1;
      TwicePower(threshold, rest);
      forall j: nat | count <= threshold * Pow2(j) ensures k <= j {
        if j > 0 {
          TwicePower(threshold, j - 1);
        }
      }
    } else {
      k := 0;
    }
  }

  lemma TwicePower(threshold: nat, k: nat)
    ensures threshold * Pow2(k + 1) == 2 * threshold * Pow2(k)
  {
    assert Pow2(k + 1) == 2 * Pow2(k);
  }

  function Pop<T>(b: Box<T>): (r: (Box<T>, Option<T>))
    requires b.Valid()
    ensures r.0.Valid()
  {
    if b.queue == [] then (b.(scheduled := false, threshold := b.initial), None)
    else
      var count := |b.queue| - 1;
      (b.(queue := b.queue[1..],
          overload := if count > b.threshold then count else b.overload,
          threshold := Doubled(b.threshold, count)), Some(b.queue[0]))
  }

  // What a pop reports: a length past the threshold, and then the threshold doubles past it;
  // a mailbox found empty starts again from the capacity it was created with.
  lemma PopReports<T>(b: Box<T>) returns (k: nat)
    requires b.Valid()
    ensures var (r, out) := Pop(b);
      && (out.None? ==> r == b.(scheduled := false, threshold := b.initial))
      && (out.Some? ==>
            var left := |b.queue| - 1;
            && r == b.(queue := b.queue[1..], overload := r.overload, threshold := r.threshold)
            && r.overload == (if left > b.threshold then left else b.overload)
            && r.threshold == b.threshold * Pow2(k)
            && forall j: nat :: left <= b.threshold * Pow2(j) ==> k <= j)
  {
    k := 0;
    if b.queue != [] {
      k := DoublesLeast(b.threshold, |b.queue| - 1);
    }
  }

  function FinishBatch<T>(b: Box<T>): (Box<T>, bool) {
    var more := !b.closed && b.queue != [];
    (if more then b else b.(scheduled := false), more)
  }

  // What other threads may do to the box while one is allocating: their own
  // locked regions.
  datatype Other<T> = OtherInsert(m: T) | OtherGrow(m: T) | OtherPop | OtherFinish | OtherClose

  function OtherStep<T>(b: Box<T>, op: Other<T>): (r: Box<T>)
    requires b.Valid()
    ensures r.Valid()
  {
    match op
    case OtherInsert(m) => PushEnter(b, m).0
    case OtherGrow(m) => PushResume(b, m, b.capacity).0
    case OtherPop => Pop(b).0
    case OtherFinish => FinishBatch(b).0
    case OtherClose => b.(closed := true)
  }

  function OtherSteps<T>(b: Box<T>, ops: seq<Other<T>>): (r: Box<T>)
    requires b.Valid()
    ensures r.Valid()
    decreases |ops|
  {
    if ops == [] then b else OtherSteps(OtherStep(b, ops[0]), ops[1..])
  }

  lemma CapacityGrows<T>(b: Box<T>, op: Other<T>)
    requires b.Valid()
    ensures OtherStep(b, op).capacity >= b.capacity
  {
  }

  // A region that asks for memory leaves the box as it was and names its
  // capacity; having a spare for that very capacity is always enough.
  lemma SeenCapacity<T>(b: Box<T>, m: T)
    ensures var (r, section) := PushEnter(b, m);
      section.NeedSpare? ==> r == b && section.capacity == b.capacity
  {
  }

  lemma SeenAgain<T>(b: Box<T>, m: T, c: nat)
    ensures var (r, section) := PushResume(b, m, c);
      section.NeedSpare? ==> r == b && section.capacity == b.capacity && b.capacity != c
  {
  }

  // mailbox_try_push from a point where the lock is free: section is how the
  // last region ended, and each later window is one allocation (None: it
  // failed) with what the others did meanwhile. With no windows left nobody
  // interferes any more.
  type Window<T> = Option<seq<Other<T>>>

  function FirstWindow<T>(windows: seq<Window<T>>): Window<T> {
    if windows == [] then Some([]) else windows[0]
  }

  function PushRun<T>(b: Box<T>, section: Section, m: T, windows: seq<Window<T>>): (r: (Box<T>, PushResult, bool))
    requires b.Valid() && (section.NeedSpare? && windows == [] ==> section.capacity == b.capacity)
    ensures r.0.Valid()
    decreases |windows|, section.NeedSpare?
  {
    match section
    case Done(result, notify) => (b, result, notify)
    case NeedSpare(c) =>
      if FirstWindow(windows).None? then (b, FULL, false)
      else
        var b1 := OtherSteps(b, FirstWindow(windows).value);
        var (b2, next) := PushResume(b1, m, c);
        PushRun(b2, next, m, if windows == [] then [] else windows[1..])
  }

  lemma {:induction false} OtherStepsAppend<T>(b: Box<T>, x: seq<Other<T>>, y: seq<Other<T>>)
    requires b.Valid()
    ensures OtherSteps(b, x + y) == OtherSteps(OtherSteps(b, x), y)
    decreases |x|
  {
    if x == [] {
      assert x + y == y;
    } else {
      assert (x + y)[0] == x[0] && (x + y)[1..] == x[1..] + y;
      OtherStepsAppend(OtherStep(b, x[0]), x[1..], y);
    }
  }

  // What a push that ends one way or another has done to the box mid it found
  // in its last locked region: one append, and only when it answers OK.
  ghost predicate PushedOnce<T>(mid: Box<T>, m: T, r: Box<T>, result: PushResult, notify: bool) {
    match result
    case OK =>
      && !mid.closed && r.queue == mid.queue + [m] && r.scheduled && notify == !mid.scheduled
      && r == mid.(queue := r.queue, scheduled := true, capacity := r.capacity)
      && r.capacity == if |mid.queue| == mid.capacity then 2 * mid.capacity else mid.capacity
    case CLOSED => mid.closed && r == mid && !notify
    case FULL => r == mid && !notify
  }

  lemma ResumePushesOnce<T>(b: Box<T>, m: T, c: nat)
    requires b.Valid()
    ensures var (r, section) := PushResume(b, m, c);
      section.Done? ==> PushedOnce(b, m, r, section.result, section.notify)
    ensures var (r, section) := PushEnter(b, m);
      section.Done? ==> PushedOnce(b, m, r, section.result, section.notify)
  {
  }

  // However often it unlocks, retries and grows, a push amounts to some steps
  // of the other threads followed by its own one effect.
  lemma {:induction false} PushLinearizes<T>(b: Box<T>, m: T, c: nat, windows: seq<Window<T>>) returns (ops: seq<Other<T>>)
    requires b.Valid() && (windows == [] ==> c == b.capacity)
    ensures var (r, result, notify) := PushRun(b, NeedSpare(c), m, windows);
      PushedOnce(OtherSteps(b, ops), m, r, result, notify) && (result == FULL ==> None in windows)
    decreases |windows|
  {
    var rest := if windows == [] then [] else windows[1..];
    if FirstWindow(windows).None? {
      return [];
    }
    ops := FirstWindow(windows).value;
    var b1 := OtherSteps(b, ops);
    var (b2, next) := PushResume(b1, m, c);
    ResumePushesOnce(b1, m, c);
    SeenAgain(b1, m, c);
    if next.NeedSpare? {
      var more := PushLinearizes(b2, m, next.capacity, rest);
      OtherStepsAppend(b, ops, more);
      ops := ops + more;
    }
  }

  lemma WrapsOnce(a: nat, c: nat)
    requires a < 2 * c
    ensures a % c == if a < c then a else a - c
  {
    var r := if a < c then a else a - c;
    assert a / c * c + a % c == a;
    SmallMultiple(a / c - (if a < c then 0 else 1), c);
  }

  // The part of a ring that is in use, in order
  function Unrolled<T>(ring: seq<T>, head: nat, count: nat): (q: seq<T>)
    requires head < |ring| && count <= |ring|
    ensures |q| == count
    ensures forall i :: 0 <= i < count ==> q[i] == ring[if head + i < |ring| then head + i else head + i - |ring|]
  {
    if head + count <= |ring| then ring[head..head + count]
    else ring[head..] + ring[..head + count - |ring|]
  }

  // The slot k places on
  function Wrap<T>(ring: seq<T>, k: nat): nat {
    if k < |ring| then k else k - |ring|
  }

  lemma UnrolledTail<T>(ring: seq<T>, head: nat, count: nat)
    requires head < |ring| && 0 < count <= |ring|
    ensures ring[head] == Unrolled(ring, head, count)[0]
    ensures Unrolled(ring, Wrap(ring, head + 1), count - 1) == Unrolled(ring, head, count)[1..]
  {
  }

  lemma UnrolledAppend<T>(ring: seq<T>, head: nat, count: nat, m: T)
    requires head < |ring| && count < |ring|
    ensures Unrolled(ring[Wrap(ring, head + count) := m], head, count + 1) == Unrolled(ring, head, count) + [m]
  {
  }

  class MailboxRing<T(0)> {
    var items: array<T>
    var capacity: nat
    var head: nat
    var tail: nat
    var count: nat
    const initialCapacity: nat
    var overload: nat
    var overloadThreshold: nat
    var closed: bool
    var scheduled: bool

    ghost predicate Valid()
      reads this
    {
      && 0 < capacity == items.Length
      && head < capacity && tail < capacity && count <= capacity
      && tail == (if head + count < capacity then head + count else head + count - capacity)
      && 0 < initialCapacity && 0 < overloadThreshold
    }

    ghost function View(): (b: Box<T>)
      reads this, items
      requires Valid()
      ensures b.Valid() && b.capacity == capacity
    {
      Box(Unrolled(items[..], head, count), capacity, initialCapacity, overload, overloadThreshold, closed, scheduled)
    }

    // mailbox_new; the source answers NULL for capacity 0.
    constructor (size: nat)
      requires size > 0
      ensures Valid() && fresh(items) && View() == New(size)
    {
      items := new T[size];
      capacity, initialCapacity, overloadThreshold := size, size, size;
      head, tail, count, overload := 0, 0, 0, 0;
      closed, scheduled := false, false;
    }

    // grow_locked: the queued items move, unwrapped, into the larger buffer.
    method GrowLocked(grown: array<T>) returns (old_: array<T>)
      requires Valid() && count == capacity && grown.Length == 2 * capacity && grown != items
      modifies this, grown
      ensures Valid() && items == grown && old_ == old(items) && View() == Grow(old(View()))
    {
      old_ := items;
      ghost var queue := View().queue;
      for i := 0 to count
        invariant forall j :: 0 <= j < i ==> grown[j] == queue[j]
        invariant unchanged(this) && View().queue == queue
        modifies grown
      {
        WrapsOnce(head + i, capacity);
        grown[i] := old_[(head + i) % capacity];
      }
      items := grown;
      head, tail := 0, count;
      capacity := 2 * capacity;
      assert View().queue == queue;
    }

    // From the end of the growth loop to the unlock
    method InsertLocked(m: T) returns (section: Section)
      requires Valid() && (!closed ==> count < capacity)
      modifies this, items
      ensures Valid() && items == old(items) && (View(), section) == Insert(old(View()), m)
    {
      hide Unrolled;
      if closed {
        return Done(CLOSED, false);
      }
      UnrolledAppend(items[..], head, count, m);
      items[tail] := m;
      WrapsOnce(tail + 1, capacity);
      tail := (tail + 1) % capacity;
      count := count + 1;
      var notify := !scheduled;
      scheduled := true;
      return Done(OK, notify);
    }

    // One locked region of mailbox_try_push: lock, drop a spare made for
    // another capacity, run the growth loop until it needs memory or ends.
    // garbage is what free is called with after the unlock.
    method PushLocked(m: T, spare: Option<array<T>>, spareFor: nat) returns (section: Section, garbage: Option<array<T>>)
      requires Valid()
      requires spare.Some? ==> spare.value.Length == 2 * spareFor && spare.value != items
      modifies this, items, if spare.Some? then {spare.value} else {}
      ensures Valid()
      ensures (View(), section) == if spare.Some? then PushResume(old(View()), m, spareFor) else PushEnter(old(View()), m)
      ensures (items == old(items) && garbage == spare) ||
              (spare == Some(items) && garbage == Some(old(items)) && capacity == 2 * old(capacity))
      ensures section.NeedSpare? ==> items == old(items) && garbage == spare && (spare.Some? ==> capacity != spareFor)
    {
      garbage := spare;
      if !closed && count == capacity {
        if spare.None? || capacity != spareFor {
          return NeedSpare(capacity), garbage;
        }
        var replaced := GrowLocked(spare.value);
        garbage := Some(replaced);
      }
      section := InsertLocked(m);
    }

    // The overload loop of mailbox_try_pop
    method RaiseThreshold()
      requires Valid()
      modifies this`overload, this`overloadThreshold
      ensures Valid() && overloadThreshold == Doubled(old(overloadThreshold), count)
      ensures overload == if count > old(overloadThreshold) then count else old(overload)
    {
      while count > overloadThreshold
        invariant overloadThreshold > 0
        invariant Doubled(overloadThreshold, count) == Doubled(old(overloadThreshold), count)
        invariant overload == if overloadThreshold == old(overloadThreshold) then old(overload) else count
        invariant overloadThreshold != old(overloadThreshold) ==> count > old(overloadThreshold)
        invariant overloadThreshold >= old(overloadThreshold)
        decreases count - overloadThreshold
      {
        overload := count;
        overloadThreshold := 2 * overloadThreshold;
      }
    }

    // mailbox_try_pop
    method TryPop() returns (out: Option<T>)
      requires Valid()
      modifies this
      ensures Valid() && items == old(items) && (View(), out) == Pop(old(View()))
    {
      hide Unrolled;
      if count > 0 {
        out := Some(items[head]);
        WrapsOnce(head + 1, capacity);
        UnrolledTail(items[..], head, count);
        head := (head + 1) % capacity;
        count := count - 1;
        RaiseThreshold();
      } else {
        out := None;
        scheduled := false;
        overloadThreshold := initialCapacity;
      }
    }

    // mailbox_finish_batch
    method FinishBatchLocked() returns (more: bool)
      requires Valid()
      modifies this`scheduled
      ensures Valid() && (View(), more) == FinishBatch(old(View()))
    {
      more := !closed && count > 0;
      if !more {
        scheduled := false;
      }
    }

    method Close()
      requires Valid()
      modifies this`closed
      ensures Valid() && View() == old(View()).(closed := true)
    {
      closed := true;
    }

    lemma PositiveCapacity()
      requires Valid()
      ensures capacity > 0
    {
    }

    // The other threads' turn, op by op
    method RunOthers(ops: seq<Other<T>>)
      requires Valid()
      modifies this, items
      ensures Valid() && View() == OtherSteps(old(View()), ops)
      ensures items == old(items) || fresh(items)
      ensures capacity >= old(capacity)
    {
      hide Unrolled, View, Valid, PushEnter, PushResume, Pop, FinishBatch;
      PositiveCapacity();
      var i := 0;
      while i < |ops|
        invariant 0 <= i <= |ops| && Valid() && (items == old(items) || fresh(items))
        invariant 0 < old(capacity) <= capacity
        invariant OtherSteps(old(View()), ops) == OtherSteps(View(), ops[i..])
      {
        assert ops[i..][0] == ops[i] && ops[i..][1..] == ops[i + 1..];
        label turn:
        match ops[i] {
          case OtherInsert(m) => var _, _ := PushLocked(m, None, 0);
          case OtherGrow(m) =>
            var spare := new T[2 * capacity];
            var _, _ := PushLocked(m, Some(spare), capacity);
          case OtherPop => var _ := TryPop();
          case OtherFinish => var _ := FinishBatchLocked();
          case OtherClose => Close();
        }
        CapacityGrows(old@turn(View()), ops[i]);
        i := i + 1;
      }
    }

    // mailbox_try_push: the retry loop around the locked regions.
    method TryPush(m: T, windows: seq<Window<T>>) returns (result: PushResult, notify: bool)
      requires Valid()
      modifies this, items
      ensures Valid() && (items == old(items) || fresh(items))
      ensures var (b, section) := PushEnter(old(View()), m);
        (View(), result, notify) == PushRun(b, section, m, windows)
    {
      hide Unrolled, View, Valid, PushEnter, PushResume, OtherStep, Insert;
      SeenCapacity(View(), m);
      PositiveCapacity();
      var section, garbage := PushLocked(m, None, 0);
      var i := 0;
      ghost var start, first := View(), section;
      while section.NeedSpare?
        invariant 0 <= i <= |windows| && Valid() && (items == old(items) || fresh(items))
        invariant section.NeedSpare? ==> section.capacity == capacity
        invariant PushRun(start, first, m, windows) == PushRun(View(), section, m, windows[i..])
        decreases |windows| - i, section.NeedSpare?
      {
        var c := section.capacity;
        assert i < |windows| ==> windows[i..][0] == windows[i] && windows[i..][1..] == windows[i + 1..];
        if i < |windows| && windows[i].None? {
          return FULL, false;
        }
        var spare := new T[2 * c];
        if i < |windows| {
          RunOthers(windows[i].value);
          i := i + 1;
        }
        SeenCapacity(View(), m);
        SeenAgain(View(), m, c);
        section, garbage := PushLocked(m, Some(spare), c);
      }
      return section.result, section.notify;
    }
  }
}
