// Any number of producers, the consumer and a closer on one mailbox. A step is
// one locked region, or what a thread does between two of them.
module MailboxRuns {
  import opened Wire
  import opened Mailbox

  // Where a producer is between locked regions: allocating for the capacity it
  // saw, holding a spare made for it, or about to free a buffer.
  datatype Pc<T> =
    | Idle
    | Allocating(m: T, c: nat)
    | Holding(m: T, c: nat, spare: nat)
    | Releasing(buffer: nat)
  {
    function Buffer(): Option<nat> {
      match this
      case Holding(_, _, b) => Some(b)
      case Releasing(b) => Some(b)
      case _ => None
    }
  }

  // items     the buffer the ring uses, by name
  // sizes     the buffers allocated and not freed, with their sizes
  // freed     every free, in order
  // accepted  the messages whose push returned OK, in lock order
  // popped    the messages handed out
  datatype Sys<!T> = Sys(
    box: Box<T>, items: nat, sizes: map<nat, nat>, freed: seq<nat>, next: nat,
    pcs: map<nat, Pc<T>>, accepted: seq<T>, popped: seq<T>)
  {
    function At(t: nat): Pc<T> {
      if t in pcs then pcs[t] else Idle
    }
  }

  datatype Step<T> =
    | Begin(t: nat, m: T)
    | AllocFails(t: nat)
    | AllocWorks(t: nat)
    | Relock(t: nat)
    | Release(t: nat)
    | PopOne
    | Finish
    | CloseBox

  function Initial<T>(capacity: nat): Sys<T> {
    Sys(New(capacity), 0, map[0 := capacity], [], 1, map[], [], [])
  }

  predicate Enabled<T>(s: Sys<T>, step: Step<T>) {
    match step
    case Begin(t, _) => s.At(t).Idle?
    case AllocFails(t) => s.At(t).Allocating?
    case AllocWorks(t) => s.At(t).Allocating?
    case Relock(t) => s.At(t).Holding?
    case Release(t) => s.At(t).Releasing?
    case _ => true
  }

  // The end of a locked region: buffer is what the thread now has to free.
  function Settle<T>(s: Sys<T>, t: nat, m: T, b: Box<T>, section: Section, buffer: Option<nat>): Sys<T> {
    match section
    case NeedSpare(c) => s.(box := b, pcs := s.pcs[t := Allocating(m, c)])
    case Done(result, _) =>
      s.(box := b,
         pcs := s.pcs[t := if buffer.Some? then Releasing(buffer.value) else Idle],
         accepted := if result == OK then s.accepted + [m] else s.accepted)
  }

  function Freed<T>(s: Sys<T>, b: nat): Sys<T> {
    s.(sizes := s.sizes - {b}, freed := s.freed + [b])
  }

  // The region entered with a spare: one made for a capacity that is gone is
  // freed at once; one that is swapped in leaves the old buffer to free.
  function Reenter<T>(s: Sys<T>, t: nat, m: T, c: nat, spare: nat): Sys<T> {
    var (b, section) := PushResume(s.box, m, c);
    if s.box.capacity != c then Settle(Freed(s, spare), t, m, b, section, None)
    else if !s.box.closed && |s.box.queue| == s.box.capacity then
      Settle(s.(items := spare), t, m, b, section, Some(s.items))
    else Settle(s, t, m, b, section, Some(spare))
  }

  function Apply<T>(s: Sys<T>, step: Step<T>): Sys<T>
    requires s.box.Valid() && Enabled(s, step)
  {
    match step
    case Begin(t, m) =>
      var (b, section) := PushEnter(s.box, m);
      Settle(s, t, m, b, section, None)
    case AllocFails(t) => s.(pcs := s.pcs[t := Idle])
    case AllocWorks(t) =>
      var p := s.At(t);
      s.(sizes := s.sizes[s.next := 2 * p.c], next := s.next + 1, pcs := s.pcs[t := Holding(p.m, p.c, s.next)])
    case Relock(t) =>
      var p := s.At(t);
      Reenter(s, t, p.m, p.c, p.spare)
    case Release(t) => Freed(s, s.At(t).buffer).(pcs := s.pcs[t := Idle])
    case PopOne =>
      var (b, out) := Pop(s.box);
      s.(box := b, popped := if out.Some? then s.popped + [out.value] else s.popped)
    case Finish => s.(box := FinishBatch(s.box).0)
    case CloseBox => s.(box := s.box.(closed := true))
  }

  // Each live buffer has exactly one owner: the ring or one thread.
  ghost predicate Owned<T>(items: nat, capacity: nat, sizes: map<nat, nat>, pcs: map<nat, Pc<T>>) {
    && items in sizes && sizes[items] == capacity
    && (forall t :: t in pcs && pcs[t].Buffer().Some? ==>
          pcs[t].Buffer().value in sizes && pcs[t].Buffer().value != items)
    && (forall t :: t in pcs && pcs[t].Holding? ==>
          pcs[t].spare in sizes && sizes[pcs[t].spare] == 2 * pcs[t].c)
    && (forall t, u :: t in pcs && u in pcs && t != u && pcs[t].Buffer().Some? ==> pcs[t].Buffer() != pcs[u].Buffer())
    && (forall b :: b in sizes ==> b == items || HeldBySome(b, pcs))
  }

  ghost predicate HeldBySome<T>(b: nat, pcs: map<nat, Pc<T>>) {
    exists t :: t in pcs && pcs[t].Buffer() == Some(b)
  }

  // Every buffer ever allocated is live or freed, and none is freed twice.
  ghost predicate Accounted(sizes: map<nat, nat>, freed: seq<nat>, next: nat) {
    && (forall b: nat :: b in sizes || b in freed <==> b < next)
    && (forall b :: b in freed ==> b !in sizes)
    && (forall i, j :: 0 <= i < j < |freed| ==> freed[i] != freed[j])
  }

  ghost predicate Doubling(initial: nat, capacity: nat) {
    exists k: nat :: capacity == initial * Pow2(k)
  }

  ghost predicate Inv<T>(s: Sys<T>) {
    && s.box.Valid() && Doubling(s.box.initial, s.box.capacity)
    && Owned(s.items, s.box.capacity, s.sizes, s.pcs)
    && Accounted(s.sizes, s.freed, s.next)
    && s.accepted == s.popped + s.box.queue
  }

  lemma InitialInv<T>(capacity: nat)
    requires capacity > 0
    ensures Inv(Initial<T>(capacity))
  {
    assert capacity == capacity * Pow2(0);
  }

  lemma GrowDoubles(initial: nat, capacity: nat)
    requires Doubling(initial, capacity)
    ensures Doubling(initial, 2 * capacity)
  {
    var k: nat :| capacity == initial * Pow2(k);
    assert 2 * capacity == initial * Pow2(k + 1);
  }

  // A thread moves on without gaining or losing a buffer.
  lemma MoveKeepsOwners<T>(s: Sys<T>, t: nat, p: Pc<T>)
    requires Owned(s.items, s.box.capacity, s.sizes, s.pcs)
    requires s.At(t).Buffer() == p.Buffer() && (p.Holding? ==> s.At(t) == p)
    ensures Owned(s.items, s.box.capacity, s.sizes, s.pcs[t := p])
  {
    forall b | b in s.sizes && b != s.items
      ensures HeldBySome(b, s.pcs[t := p])
    {
      var u :| u in s.pcs && s.pcs[u].Buffer() == Some(b);
      assert s.pcs[t := p][u].Buffer() == Some(b);
    }
  }

  // The owner of a buffer frees it: it was live until then.
  lemma FreeKeepsOwners<T>(s: Sys<T>, t: nat, p: Pc<T>, x: nat)
    requires Owned(s.items, s.box.capacity, s.sizes, s.pcs) && Accounted(s.sizes, s.freed, s.next)
    requires s.At(t).Buffer() == Some(x) && p.Buffer() == None
    ensures x in s.sizes
    ensures Owned(s.items, s.box.capacity, s.sizes - {x}, s.pcs[t := p])
    ensures Accounted(s.sizes - {x}, s.freed + [x], s.next)
  {
    forall b | b in s.sizes - {x} && b != s.items
      ensures HeldBySome(b, s.pcs[t := p])
    {
      var u :| u in s.pcs && s.pcs[u].Buffer() == Some(b);
      assert s.pcs[t := p][u].Buffer() == Some(b);
    }
  }

  lemma AllocKeepsOwners<T>(s: Sys<T>, t: nat)
    requires Owned(s.items, s.box.capacity, s.sizes, s.pcs) && Accounted(s.sizes, s.freed, s.next)
    requires s.At(t).Allocating?
    ensures var p := Holding(s.At(t).m, s.At(t).c, s.next);
      var sizes := s.sizes[s.next := 2 * s.At(t).c];
      Owned(s.items, s.box.capacity, sizes, s.pcs[t := p]) && Accounted(sizes, s.freed, s.next + 1)
  {
    var pcs := s.pcs[t := Holding(s.At(t).m, s.At(t).c, s.next)];
    forall b | b in s.sizes[s.next := 2 * s.At(t).c] && b != s.items
      ensures HeldBySome(b, pcs)
    {
      if b == s.next {
        assert pcs[t].Buffer() == Some(b);
      } else {
        var u :| u in s.pcs && s.pcs[u].Buffer() == Some(b);
        assert pcs[u].Buffer() == Some(b);
      }
    }
  }

  // The spare, exactly twice the ring's capacity, becomes the ring's buffer,
  // and the thread owns the old one.
  lemma SwapKeepsOwners<T>(s: Sys<T>, t: nat)
    requires Owned(s.items, s.box.capacity, s.sizes, s.pcs) && s.At(t).Holding? && s.At(t).c == s.box.capacity
    ensures s.At(t).spare in s.sizes && s.sizes[s.At(t).spare] == 2 * s.box.capacity
    ensures Owned(s.At(t).spare, 2 * s.box.capacity, s.sizes, s.pcs[t := Releasing(s.items)])
  {
    var pcs := s.pcs[t := Releasing(s.items)];
    forall b | b in s.sizes && b != s.At(t).spare
      ensures HeldBySome(b, pcs)
    {
      if b == s.items {
        assert pcs[t].Buffer() == Some(b);
      } else {
        var u :| u in s.pcs && s.pcs[u].Buffer() == Some(b);
        assert pcs[u].Buffer() == Some(b);
      }
    }
  }

  lemma RelockKeeps<T>(s: Sys<T>, t: nat)
    requires Inv(s) && s.At(t).Holding?
    ensures Inv(Apply(s, Relock(t)))
  {
    hide Owned, Accounted, Doubling;
    var p := s.At(t);
    var (b, section) := PushResume(s.box, p.m, p.c);
    if s.box.capacity != p.c {
      FreeKeepsOwners(s, t, if section.NeedSpare? then Allocating(p.m, section.capacity) else Idle, p.spare);
    } else if !s.box.closed && |s.box.queue| == s.box.capacity {
      GrowDoubles(s.box.initial, s.box.capacity);
      SwapKeepsOwners(s, t);
    } else {
      MoveKeepsOwners(s, t, Releasing(p.spare));
    }
  }

  lemma StepKeeps<T>(s: Sys<T>, step: Step<T>)
    requires Inv(s) && Enabled(s, step)
    ensures Inv(Apply(s, step))
  {
    hide Owned, Accounted, Doubling;
    match step
    case Begin(t, m) =>
      var section := PushEnter(s.box, m).1;
      MoveKeepsOwners(s, t, if section.NeedSpare? then Allocating(m, section.capacity) else Idle);
    case AllocFails(t) => MoveKeepsOwners(s, t, Idle);
    case AllocWorks(t) => AllocKeepsOwners(s, t);
    case Relock(t) => RelockKeeps(s, t);
    case Release(t) => FreeKeepsOwners(s, t, Idle, s.At(t).buffer);
    case PopOne =>
      if s.box.queue != [] {
        assert s.popped + s.box.queue == s.popped + [s.box.queue[0]] + s.box.queue[1..];
      }
    case Finish =>
    case CloseBox =>
  }

  // Runs

  ghost predicate Reaches<T>(s: Sys<T>, steps: seq<Step<T>>, r: Sys<T>)
    decreases |steps|
  {
    if steps == [] then s == r
    else s.box.Valid() && Enabled(s, steps[0]) && Reaches(Apply(s, steps[0]), steps[1..], r)
  }

  // What no step takes back
  ghost predicate Later<T>(s: Sys<T>, r: Sys<T>) {
    && s.accepted <= r.accepted && s.popped <= r.popped && s.freed <= r.freed
    && (s.box.closed ==> r.box.closed && r.accepted == s.accepted)
    && r.box.initial == s.box.initial
  }

  lemma StepLater<T>(s: Sys<T>, step: Step<T>)
    requires s.box.Valid() && Enabled(s, step)
    ensures Later(s, Apply(s, step))
  {
  }

  lemma {:induction false} RunKeeps<T>(s: Sys<T>, steps: seq<Step<T>>, r: Sys<T>)
    requires Inv(s) && Reaches(s, steps, r)
    ensures Inv(r) && Later(s, r)
    decreases |steps|
  {
    hide Inv, Apply, Enabled;
    if steps != [] {
      StepKeeps(s, steps[0]);
      StepLater(s, steps[0]);
      RunKeeps(Apply(s, steps[0]), steps[1..], r);
    }
  }

  // On every interleaving: first in, first out in lock order; the capacity is
  // a doubling of the one at creation and is the size of the buffer in use; no
  // buffer is freed twice or while in use; with no push under way the ring's
  // buffer is the only one left; and after a close nothing more is accepted.
  lemma AnyRun<T>(capacity: nat, steps: seq<Step<T>>, r: Sys<T>)
    requires capacity > 0 && Reaches(Initial(capacity), steps, r)
    ensures r.accepted == r.popped + r.box.queue
    ensures exists k: nat :: r.box.capacity == capacity * Pow2(k)
    ensures r.items in r.sizes && r.sizes[r.items] == r.box.capacity && r.items !in r.freed
    ensures forall i, j :: 0 <= i < j < |r.freed| ==> r.freed[i] != r.freed[j]
    ensures (forall t :: t in r.pcs ==> r.pcs[t].Idle?) ==> r.sizes.Keys == {r.items}
  {
    InitialInv<T>(capacity);
    RunKeeps(Initial(capacity), steps, r);
  }

  // As long as nothing is popped nothing is reported, and the first report is past the
  // capacity at creation.
  lemma {:induction false} NoReportBeforePops<T>(s: Sys<T>, steps: seq<Step<T>>, r: Sys<T>)
    requires Reaches(s, steps, r) && PopOne !in steps
    ensures r.box.threshold == s.box.threshold && r.box.overload == s.box.overload
    decreases |steps|
  {
    hide Enabled, Apply;
    if steps != [] {
      assert steps == [steps[0]] + steps[1..];
      NoPopNoReport(s, steps[0]);
      NoReportBeforePops(Apply(s, steps[0]), steps[1..], r);
    }
  }

  lemma NoPopNoReport<T>(s: Sys<T>, step: Step<T>)
    requires s.box.Valid() && Enabled(s, step) && step != PopOne
    ensures var r := Apply(s, step); r.box.threshold == s.box.threshold && r.box.overload == s.box.overload
  {
  }

  lemma FirstReport<T>(capacity: nat, steps: seq<Step<T>>, r: Sys<T>)
    requires capacity > 0 && Reaches(Initial(capacity), steps, r) && PopOne !in steps
    ensures r.box.Valid() && r.box.overload == 0
    ensures var left := |r.box.queue| - 1; Pop(r.box).0.overload == if left > capacity then left else 0
  {
    InitialInv<T>(capacity);
    RunKeeps(Initial(capacity), steps, r);
    NoReportBeforePops(Initial(capacity), steps, r);
  }

  // mailbox_delete, once no thread is inside: close, pop and dispose of what is
  // left, free the buffer.
  function Delete<T>(s: Sys<T>): Sys<T> {
    Freed(s.(box := s.box.(closed := true, queue := [], scheduled := false), popped := s.popped + s.box.queue), s.items)
  }

  lemma NothingLeaks<T>(capacity: nat, steps: seq<Step<T>>, s: Sys<T>)
    requires capacity > 0 && Reaches(Initial(capacity), steps, s)
    requires forall t :: t in s.pcs ==> s.pcs[t].Idle?
    ensures var r := Delete(s);
      && r.popped == r.accepted
      && (forall b: nat :: b < r.next <==> b in r.freed)
      && (forall i, j :: 0 <= i < j < |r.freed| ==> r.freed[i] != r.freed[j])
  {
    InitialInv<T>(capacity);
    RunKeeps(Initial(capacity), steps, s);
    var r := Delete(s);
    assert r.sizes.Keys == {};
  }
}
