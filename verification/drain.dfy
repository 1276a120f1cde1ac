// What one firing of the scheduler's timer does to its queue, whatever the clock reads
// and whatever the actions add.
module TaskDrain {
  import opened Wire
  import opened TaskHeap

  const MAX_TASKS_PER_TICK := 256

  // token names the task; an at task runs once, a daily one is queued again.
  datatype Job = Job(token: nat, daily: bool)

  type Queue = seq<Entry<Job>>

  // scheduler:at or scheduler:daily, called by an action
  datatype Add = Add(deadline: real, job: Job)

  // What the loop meets around one action: the tasks it adds, the next deadline if the
  // task is daily, and the clock read after it; None for one that raises.
  datatype Turn = Turn(adds: seq<Add>, next: Option<real>, now: Option<real>)

  datatype Why = NoneDue | Capped | Failed

  // One action run: its entry, the clock reading it was due by and the queue it was taken from
  datatype Ran = Ran(entry: Entry<Job>, now: real, queue: Queue)

  // lost: the daily task that could not be queued again; now: the last clock reading
  datatype Result = Result(queue: Queue, sequence: nat, ran: seq<Ran>, lost: seq<Job>, now: real, why: Why)

  function TurnAt(turns: seq<Turn>, k: nat): Turn {
    if k < |turns| then turns[k] else Turn([], None, None)
  }

  // The tasks an action adds while the queue is being drained
  function AddAll(queue: Queue, sequence: nat, adds: seq<Add>): (r: (Queue, nat))
    ensures r.1 == sequence + |adds|
    decreases |adds|
  {
    if adds == [] then (queue, sequence)
    else AddAll(Push(queue, Entry(adds[0].deadline, sequence + 1, adds[0].job)), sequence + 1, adds[1..])
  }

  function Took(ran: Ran, r: Result): Result {
    r.(ran := [ran] + r.ran)
  }

  predicate Due(queue: Queue, now: real) {
    queue != [] && queue[0].deadline <= now
  }

  // The daily task that ran gets no next deadline.
  predicate Loses(job: Job, turn: Turn) {
    job.daily && turn.next.None?
  }

  predicate Raises(job: Job, turn: Turn) {
    Loses(job, turn) || turn.now.None?
  }

  // The queue after the first task's action, and after it is queued again if it is daily
  function AfterTurn(queue: Queue, sequence: nat, turn: Turn): (Queue, nat)
    requires queue != []
  {
    var (added, s) := AddAll(Rest(queue), sequence, turn.adds);
    if queue[0].job.daily && turn.next.Some? then (Push(added, Entry(turn.next.value, s + 1, queue[0].job)), s + 1)
    else (added, s)
  }

  // The loop of on_timer from its k-th task on
  function Drain(queue: Queue, sequence: nat, now: real, turns: seq<Turn>, k: nat): Result
    requires k <= MAX_TASKS_PER_TICK
    decreases MAX_TASKS_PER_TICK - k
  {
    if !Due(queue, now) then Result(queue, sequence, [], [], now, NoneDue)
    else if k == MAX_TASKS_PER_TICK then Result(queue, sequence, [], [], now, Capped)
    else
      var job, turn := queue[0].job, TurnAt(turns, k);
      var ran := Ran(queue[0], now, queue);
      var (after, s) := AfterTurn(queue, sequence, turn);
      if Raises(job, turn) then Result(after, s, [ran], if Loses(job, turn) then [job] else [], now, Failed)
      else Took(ran, Drain(after, s, turn.now.value, turns, k + 1))
  }

  lemma {:induction false} AddAllOrders(queue: Queue, sequence: nat, adds: seq<Add>)
    requires Ordered(queue)
    ensures Ordered(AddAll(queue, sequence, adds).0)
    ensures Jobs(AddAll(queue, sequence, adds).0) == Jobs(queue) + AddedJobs(adds)
    decreases |adds|
  {
    hide Ordered, Push;
    if adds != [] {
      var e := Entry(adds[0].deadline, sequence + 1, adds[0].job);
      PushOrders(queue, e);
      PushJobs(queue, e);
      AddAllOrders(Push(queue, e), sequence + 1, adds[1..]);
    }
  }

  // The jobs of a queue, without regard to order

  function Jobs(queue: Queue): multiset<Job> {
    if queue == [] then multiset{} else multiset{queue[0].job} + Jobs(queue[1..])
  }

  function AddedJobs(adds: seq<Add>): multiset<Job> {
    if adds == [] then multiset{} else multiset{adds[0].job} + AddedJobs(adds[1..])
  }

  lemma {:induction false} JobsOut(queue: Queue, i: nat)
    requires i < |queue|
    ensures Jobs(queue) == multiset{queue[i].job} + Jobs(queue[..i] + queue[i + 1..])
    decreases |queue|
  {
    if i == 0 {
      assert queue[..0] + queue[1..] == queue[1..];
    } else {
      JobsOut(queue[1..], i - 1);
      var out := queue[..i] + queue[i + 1..];
      assert out[0] == queue[0];
      assert out[1..] == queue[1..][..i - 1] + queue[1..][i..];
    }
  }

  // Jobs only depends on the multiset of entries.
  lemma {:induction false} SameJobs(a: Queue, b: Queue)
    requires multiset(a) == multiset(b)
    ensures Jobs(a) == Jobs(b)
    decreases |a|
  {
    if a == [] {
      assert |multiset(b)| == 0;
    } else {
      assert a[0] in multiset(a);
      var i := PlaceOf(a[0], b);
      SameWithout(a, b, i);
      SameJobs(a[1..], b[..i] + b[i + 1..]);
      JobsOut(b, i);
    }
  }

  lemma PlaceOf(e: Entry<Job>, b: Queue) returns (i: nat)
    requires e in multiset(b)
    ensures i < |b| && b[i] == e
  {
    i :| i < |b| && b[i] == e;
  }

  lemma SameWithout(a: Queue, b: Queue, i: nat)
    requires multiset(a) == multiset(b) && a != [] && i < |b| && b[i] == a[0]
    ensures multiset(a[1..]) == multiset(b[..i] + b[i + 1..])
  {
    assert a == [a[0]] + a[1..];
    assert b == b[..i] + [b[i]] + b[i + 1..];
    assert multiset(a[1..]) == multiset(a) - multiset{a[0]};
    assert multiset(b[..i] + b[i + 1..]) == multiset(b) - multiset{b[i]};
  }

  lemma PushJobs(queue: Queue, e: Entry<Job>)
    requires Ordered(queue)
    ensures Jobs(Push(queue, e)) == Jobs(queue) + multiset{e.job}
  {
    PushOrders(queue, e);
    SameJobs(Push(queue, e), [e] + queue);
    assert ([e] + queue)[1..] == queue;
  }

  lemma RestJobs(queue: Queue)
    requires Ordered(queue) && queue != []
    ensures Jobs(queue) == multiset{queue[0].job} + Jobs(Rest(queue))
  {
    RestOrders(queue);
    assert queue == [queue[0]] + queue[1..];
    assert multiset(queue[1..]) == multiset(queue) - multiset{queue[0]};
    SameJobs(Rest(queue), queue[1..]);
  }

  // The at tasks among those run
  function RanOnce(ran: seq<Ran>): multiset<Job> {
    if ran == [] then multiset{}
    else (if ran[0].entry.job.daily then multiset{} else multiset{ran[0].entry.job}) + RanOnce(ran[1..])
  }

  // Everything the actions of n turns from the k-th on added
  function AddedBy(turns: seq<Turn>, k: nat, n: nat): multiset<Job>
    decreases n
  {
    if n == 0 then multiset{} else AddedJobs(TurnAt(turns, k).adds) + AddedBy(turns, k + 1, n - 1)
  }

  // A task runs when its turn has come: it was due at the clock reading before it, and no
  // task in the queue, added by earlier actions or not, had an earlier deadline, or the same
  // and a lower number.
  ghost predicate Timely(r: Ran) {
    && r.entry in r.queue && r.entry.deadline <= r.now
    && forall e :: e in r.queue ==>
         r.entry.deadline < e.deadline || (r.entry.deadline == e.deadline && r.entry.sequence <= e.sequence)
  }

  lemma TurnKeeps(queue: Queue, sequence: nat, turn: Turn)
    requires Ordered(queue) && queue != []
    ensures var (after, s) := AfterTurn(queue, sequence, turn);
      && Ordered(after)
      && Jobs(queue) + AddedJobs(turn.adds)
         == Jobs(after) + if queue[0].job.daily && turn.next.Some? then multiset{} else multiset{queue[0].job}
  {
    hide Ordered, Push, Rest, Before;
    RestOrders(queue);
    RestJobs(queue);
    AddAllOrders(Rest(queue), sequence, turn.adds);
    var (added, s) := AddAll(Rest(queue), sequence, turn.adds);
    if turn.next.Some? {
      PushOrders(added, Entry(turn.next.value, s + 1, queue[0].job));
      PushJobs(added, Entry(turn.next.value, s + 1, queue[0].job));
    }
  }

  // One more task is run and the loop goes on.
  lemma DrainStep(queue: Queue, sequence: nat, now: real, turns: seq<Turn>, k: nat) returns (rest: Result)
    requires k < MAX_TASKS_PER_TICK && Due(queue, now) && !Raises(queue[0].job, TurnAt(turns, k))
    ensures var (after, s) := AfterTurn(queue, sequence, TurnAt(turns, k));
      rest == Drain(after, s, TurnAt(turns, k).now.value, turns, k + 1)
    ensures var r := Drain(queue, sequence, now, turns, k);
      && r == rest.(ran := r.ran) && r.ran == [Ran(queue[0], now, queue)] + rest.ran && r.ran[1..] == rest.ran
  {
    var (after, s) := AfterTurn(queue, sequence, TurnAt(turns, k));
    rest := Drain(after, s, TurnAt(turns, k).now.value, turns, k + 1);
  }

  // The task run raises or is the last.
  lemma DrainStops(queue: Queue, sequence: nat, now: real, turns: seq<Turn>, k: nat)
    requires k <= MAX_TASKS_PER_TICK
    requires Due(queue, now) && k < MAX_TASKS_PER_TICK ==> Raises(queue[0].job, TurnAt(turns, k))
    ensures var r := Drain(queue, sequence, now, turns, k);
      if Due(queue, now) && k < MAX_TASKS_PER_TICK then
        && r.ran == [Ran(queue[0], now, queue)] && r.why == Failed
        && r.queue == AfterTurn(queue, sequence, TurnAt(turns, k)).0
        && r.lost == (if Loses(queue[0].job, TurnAt(turns, k)) then [queue[0].job] else [])
      else r.ran == [] && r.queue == queue && r.lost == [] && r.now == now && r.why == (if Due(queue, now) then Capped else NoneDue)
  {
  }

  lemma {:induction false} DrainRunsInOrder(queue: Queue, sequence: nat, now: real, turns: seq<Turn>, k: nat)
    requires Ordered(queue) && k <= MAX_TASKS_PER_TICK
    ensures var r := Drain(queue, sequence, now, turns, k);
      && (forall i :: 0 <= i < |r.ran| ==> Timely(r.ran[i]))
      && k + |r.ran| <= 256 && Ordered(r.queue)
    decreases MAX_TASKS_PER_TICK - k
  {
    hide Ordered, Before, AfterTurn, Timely, Drain;
    if Due(queue, now) {
      FirstIsTimely(queue, now);
      TurnKeeps(queue, sequence, TurnAt(turns, k));
    }
    if Due(queue, now) && k < MAX_TASKS_PER_TICK && !Raises(queue[0].job, TurnAt(turns, k)) {
      var (after, s) := AfterTurn(queue, sequence, TurnAt(turns, k));
      var rest := DrainStep(queue, sequence, now, turns, k);
      DrainRunsInOrder(after, s, TurnAt(turns, k).now.value, turns, k + 1);
    } else {
      DrainStops(queue, sequence, now, turns, k);
    }
  }

  lemma FirstIsTimely(queue: Queue, now: real)
    requires Ordered(queue) && Due(queue, now)
    ensures Timely(Ran(queue[0], now, queue))
  {
    RestOrders(queue);
  }

  lemma NoneIsDue(queue: Queue, now: real)
    requires Ordered(queue) && !Due(queue, now)
    ensures forall e :: e in queue ==> e.deadline > now
  {
    if queue != [] {
      RestOrders(queue);
    }
  }

  // The loop ends with no task due at the last reading, or with 256 run and one more due,
  // or at a call that raised.
  lemma {:induction false} DrainEnds(queue: Queue, sequence: nat, now: real, turns: seq<Turn>, k: nat)
    requires Ordered(queue) && k <= MAX_TASKS_PER_TICK
    ensures var r := Drain(queue, sequence, now, turns, k);
      match r.why
      case NoneDue => forall e :: e in r.queue ==> e.deadline > r.now
      case Capped => k + |r.ran| == 256 && Due(r.queue, r.now)
      case Failed => r.ran != [] && Raises(r.ran[|r.ran| - 1].entry.job, TurnAt(turns, k + |r.ran| - 1))
    decreases MAX_TASKS_PER_TICK - k
  {
    hide Ordered, Before, AfterTurn, Drain;
    if Due(queue, now) {
      TurnKeeps(queue, sequence, TurnAt(turns, k));
    } else {
      NoneIsDue(queue, now);
    }
    if Due(queue, now) && k < MAX_TASKS_PER_TICK && !Raises(queue[0].job, TurnAt(turns, k)) {
      var (after, s) := AfterTurn(queue, sequence, TurnAt(turns, k));
      var rest := DrainStep(queue, sequence, now, turns, k);
      DrainEnds(after, s, TurnAt(turns, k).now.value, turns, k + 1);
    } else {
      DrainStops(queue, sequence, now, turns, k);
    }
  }

  lemma Balance(
    had: multiset<Job>, added: multiset<Job>, later: multiset<Job>, after: multiset<Job>, once: multiset<Job>,
    left: multiset<Job>, ran: multiset<Job>, lost: multiset<Job>)
    requires had + added == after + once && after + later == left + ran + lost
    ensures had + (added + later) == left + (once + ran) + lost
  {
    assert had + (added + later) == (had + added) + later;
    assert (after + once) + later == (after + later) + once;
  }

  // Conservation: what was queued or added is still queued or was an at task that ran,
  // each as often as it was there, and every daily task that ran is queued again; but for
  // the one whose next deadline could not be had.
  lemma {:induction false} DrainConserves(queue: Queue, sequence: nat, now: real, turns: seq<Turn>, k: nat)
    requires Ordered(queue) && k <= MAX_TASKS_PER_TICK
    ensures var r := Drain(queue, sequence, now, turns, k);
      Jobs(queue) + AddedBy(turns, k, |r.ran|) == Jobs(r.queue) + RanOnce(r.ran) + multiset(r.lost)
    decreases MAX_TASKS_PER_TICK - k
  {
    hide Ordered, Before, AfterTurn, Jobs, AddedJobs, Drain;
    var turn := TurnAt(turns, k);
    if Due(queue, now) {
      TurnKeeps(queue, sequence, turn);
    }
    if Due(queue, now) && k < MAX_TASKS_PER_TICK && !Raises(queue[0].job, turn) {
      var (after, s) := AfterTurn(queue, sequence, turn);
      var rest := DrainStep(queue, sequence, now, turns, k);
      DrainConserves(after, s, turn.now.value, turns, k + 1);
      var r := Drain(queue, sequence, now, turns, k);
      var once := if queue[0].job.daily then multiset{} else multiset{queue[0].job};
      assert AddedBy(turns, k, |r.ran|) == AddedJobs(turn.adds) + AddedBy(turns, k + 1, |rest.ran|);
      assert RanOnce(r.ran) == once + RanOnce(rest.ran);
      Balance(Jobs(queue), AddedJobs(turn.adds), AddedBy(turns, k + 1, |rest.ran|), Jobs(after), once,
              Jobs(rest.queue), RanOnce(rest.ran), multiset(rest.lost));
    } else {
      DrainStops(queue, sequence, now, turns, k);
      assert AddedBy(turns, k, 1) == AddedJobs(turn.adds) + AddedBy(turns, k + 1, 0);
    }
  }

  // When no call raises, tasks have different jobs and none is added twice, each at task
  // leaves the queue by running once or stays, and each daily task stays.
  lemma EachTaskOnce(queue: Queue, sequence: nat, now: real, turns: seq<Turn>, job: Job)
    requires Ordered(queue)
    requires var r := Drain(queue, sequence, now, turns, 0);
      r.why != Failed && (Jobs(queue) + AddedBy(turns, 0, |r.ran|))[job] == 1
    ensures var r := Drain(queue, sequence, now, turns, 0);
      if job.daily then Jobs(r.queue)[job] == 1 && RanOnce(r.ran)[job] == 0
      else Jobs(r.queue)[job] + RanOnce(r.ran)[job] == 1
  {
    hide Ordered, Drain, Jobs;
    var r := Drain(queue, sequence, now, turns, 0);
    DrainConserves(queue, sequence, now, turns, 0);
    NothingLost(queue, sequence, now, turns, 0);
    DailyNotCounted(r.ran, job);
  }

  lemma {:induction false} NothingLost(queue: Queue, sequence: nat, now: real, turns: seq<Turn>, k: nat)
    requires k <= MAX_TASKS_PER_TICK
    ensures var r := Drain(queue, sequence, now, turns, k); r.why != Failed ==> r.lost == []
    decreases MAX_TASKS_PER_TICK - k
  {
    if Due(queue, now) && k < MAX_TASKS_PER_TICK && !Raises(queue[0].job, TurnAt(turns, k)) {
      var (after, s) := AfterTurn(queue, sequence, TurnAt(turns, k));
      NothingLost(after, s, TurnAt(turns, k).now.value, turns, k + 1);
    }
  }

  lemma {:induction false} DailyNotCounted(ran: seq<Ran>, job: Job)
    ensures job.daily ==> RanOnce(ran)[job] == 0
    decreases |ran|
  {
    if ran != [] {
      DailyNotCounted(ran[1..], job);
    }
  }

  // The whole drain from its start, when the loop has run these tasks
  ghost predicate SoFar(start: Result, queue: Queue, sequence: nat, now: real, turns: seq<Turn>, ran: seq<Ran>) {
    && |ran| <= MAX_TASKS_PER_TICK
    && var rest := Drain(queue, sequence, now, turns, |ran|);
       start == rest.(ran := ran + rest.ran)
  }

  lemma SoFarNothing(queue: Queue, sequence: nat, now: real, turns: seq<Turn>)
    ensures SoFar(Drain(queue, sequence, now, turns, 0), queue, sequence, now, turns, [])
  {
    var r := Drain(queue, sequence, now, turns, 0);
    assert [] + r.ran == r.ran;
  }

  lemma SoFarOneMore(start: Result, queue: Queue, sequence: nat, now: real, turns: seq<Turn>, ran: seq<Ran>)
    requires SoFar(start, queue, sequence, now, turns, ran) && Due(queue, now) && |ran| < MAX_TASKS_PER_TICK
    ensures var turn, all := TurnAt(turns, |ran|), ran + [Ran(queue[0], now, queue)];
      var (after, s) := AfterTurn(queue, sequence, turn);
      if Raises(queue[0].job, turn) then
        start.queue == after && start.sequence == s && start.ran == all && start.why == Failed
      else SoFar(start, after, s, turn.now.value, turns, all)
  {
    hide AfterTurn, Drain;
    var turn := TurnAt(turns, |ran|);
    if !Raises(queue[0].job, turn) {
      var rest := DrainStep(queue, sequence, now, turns, |ran|);
      assert ran + ([Ran(queue[0], now, queue)] + rest.ran) == (ran + [Ran(queue[0], now, queue)]) + rest.ran;
    } else {
      Stopped(queue, sequence, now, turns, |ran|);
    }
  }

  lemma Stopped(queue: Queue, sequence: nat, now: real, turns: seq<Turn>, k: nat)
    requires k < MAX_TASKS_PER_TICK && Due(queue, now) && Raises(queue[0].job, TurnAt(turns, k))
    ensures var r := Drain(queue, sequence, now, turns, k);
      && (r.queue, r.sequence) == AfterTurn(queue, sequence, TurnAt(turns, k))
      && r.ran == [Ran(queue[0], now, queue)] && r.why == Failed
  {
  }

  lemma SoFarAll(start: Result, queue: Queue, sequence: nat, now: real, turns: seq<Turn>, ran: seq<Ran>)
    requires SoFar(start, queue, sequence, now, turns, ran) && (!Due(queue, now) || |ran| == MAX_TASKS_PER_TICK)
    ensures start.queue == queue && start.sequence == sequence && start.ran == ran
    ensures start.now == now && start.why == if Due(queue, now) then Capped else NoneDue
  {
    assert ran + [] == ran;
  }

  // Numbers

  // What calls of scheduler:at and scheduler:daily put into the queue: one entry each, with
  // the next number each
  function Numbered(sequence: nat, adds: seq<Add>): (r: Queue)
    ensures |r| == |adds|
  {
    seq(|adds|, j requires 0 <= j < |adds| => Entry(adds[j].deadline, sequence + 1 + j, adds[j].job))
  }

  lemma {:induction false} AddAllNumbers(queue: Queue, sequence: nat, adds: seq<Add>)
    requires Ordered(queue)
    ensures multiset(AddAll(queue, sequence, adds).0) == multiset(queue) + multiset(Numbered(sequence, adds))
    decreases |adds|
  {
    hide Ordered, Push;
    if adds == [] {
      assert Numbered(sequence, adds) == [];
    } else {
      var e := Entry(adds[0].deadline, sequence + 1, adds[0].job);
      PushOrders(queue, e);
      AddAllNumbers(Push(queue, e), sequence + 1, adds[1..]);
      assert Numbered(sequence, adds) == [e] + Numbered(sequence + 1, adds[1..]);
    }
  }

  // Numbers up to this one have been given out, each to one task.
  ghost predicate Once(queue: Queue, sequence: nat) {
    && (forall e :: e in queue ==> e.sequence <= sequence && multiset(queue)[e] == 1)
    && (forall e, f :: e in queue && f in queue && e.sequence == f.sequence ==> e == f)
  }

  lemma OnceLess(queue: Queue, sequence: nat, rest: Queue)
    requires Once(queue, sequence) && queue != [] && multiset(rest) == multiset(queue) - multiset{queue[0]}
    ensures Once(rest, sequence) && queue[0] !in rest && forall e :: e in rest ==> e in queue
  {
    forall e | e in rest ensures e in queue && e != queue[0] && multiset(rest)[e] == 1 {
      assert e in multiset(rest);
    }
  }

  lemma OnceMore(queue: Queue, sequence: nat, e: Entry<Job>, more: Queue)
    requires Once(queue, sequence) && e.sequence == sequence + 1 && multiset(more) == multiset(queue) + multiset{e}
    ensures Once(more, sequence + 1) && forall f :: f in more <==> f in queue || f == e
  {
    forall f ensures f in more <==> f in queue || f == e {
      assert f in more <==> f in multiset(more);
    }
    assert e !in queue;
    forall f | f in more ensures f.sequence <= sequence + 1 && multiset(more)[f] == 1 {
      assert f != e ==> multiset(more)[f] == multiset(queue)[f];
    }
  }

  // Every entry is from before or has a later number.
  ghost predicate Since(was: Queue, sequence: nat, now: Queue) {
    forall e :: e in now ==> e in was || e.sequence > sequence
  }

  lemma {:induction false} AddAllOnce(queue: Queue, sequence: nat, adds: seq<Add>)
    requires Ordered(queue) && Once(queue, sequence)
    ensures var (r, s) := AddAll(queue, sequence, adds);
      Ordered(r) && Once(r, s) && s >= sequence && Since(queue, sequence, r)
    decreases |adds|
  {
    hide Ordered, Push, Once;
    if adds != [] {
      var e := Entry(adds[0].deadline, sequence + 1, adds[0].job);
      PushOrders(queue, e);
      OnceMore(queue, sequence, e, Push(queue, e));
      AddAllOnce(Push(queue, e), sequence + 1, adds[1..]);
    }
  }

  lemma TurnOnce(queue: Queue, sequence: nat, turn: Turn)
    requires Ordered(queue) && queue != [] && Once(queue, sequence)
    ensures var (after, s) := AfterTurn(queue, sequence, turn);
      && Ordered(after) && Once(after, s) && s >= sequence && Since(queue, sequence, after) && queue[0] !in after
  {
    hide Ordered, Push, Rest, Once;
    RestOrders(queue);
    OnceLess(queue, sequence, Rest(queue));
    AddAllOnce(Rest(queue), sequence, turn.adds);
    var (added, s) := AddAll(Rest(queue), sequence, turn.adds);
    if queue[0].job.daily && turn.next.Some? {
      var e := Entry(turn.next.value, s + 1, queue[0].job);
      PushOrders(added, e);
      OnceMore(added, s, e, Push(added, e));
    }
    FirstNumber(queue, sequence);
  }

  lemma FirstNumber(queue: Queue, sequence: nat)
    requires Once(queue, sequence) && queue != []
    ensures queue[0] in queue && queue[0].sequence <= sequence
  {
  }

  // Tasks with one deadline run in the order they were registered in, those registered by
  // actions and daily tasks queued again included.
  lemma {:induction false} RunsByRegistration(queue: Queue, sequence: nat, now: real, turns: seq<Turn>, k: nat)
    requires Ordered(queue) && Once(queue, sequence) && k <= MAX_TASKS_PER_TICK
    ensures var r := Drain(queue, sequence, now, turns, k);
      && Once(r.queue, r.sequence)
      && (forall i :: 0 <= i < |r.ran| ==> r.ran[i].entry in queue || r.ran[i].entry.sequence > sequence)
      && forall i, j :: 0 <= i < j < |r.ran| && r.ran[i].entry.deadline == r.ran[j].entry.deadline ==>
           r.ran[i].entry.sequence < r.ran[j].entry.sequence
    decreases MAX_TASKS_PER_TICK - k
  {
    hide Ordered, Before, AfterTurn, Once, Drain;
    if Due(queue, now) {
      TurnOnce(queue, sequence, TurnAt(turns, k));
      RestOrders(queue);
      FirstNumber(queue, sequence);
    }
    if Due(queue, now) && k < MAX_TASKS_PER_TICK && !Raises(queue[0].job, TurnAt(turns, k)) {
      var (after, s) := AfterTurn(queue, sequence, TurnAt(turns, k));
      var rest := DrainStep(queue, sequence, now, turns, k);
      RunsByRegistration(after, s, TurnAt(turns, k).now.value, turns, k + 1);
      forall j | 0 <= j < |rest.ran| && rest.ran[j].entry.deadline == queue[0].deadline
        ensures queue[0].sequence < rest.ran[j].entry.sequence
      {
        LaterNumber(queue, sequence, after, s, rest.ran[j].entry);
      }
      NumberKept(queue, sequence, now, turns, k);
    } else {
      DrainStops(queue, sequence, now, turns, k);
      NumberKept(queue, sequence, now, turns, k);
    }
  }

  lemma LaterNumber(queue: Queue, sequence: nat, after: Queue, s: nat, e: Entry<Job>)
    requires queue != [] && Once(queue, sequence) && s >= sequence && Since(queue, sequence, after) && queue[0] !in after
    requires e in after || e.sequence > s
    requires forall f :: f in queue && f.deadline == queue[0].deadline ==> queue[0].sequence <= f.sequence
    ensures e.deadline == queue[0].deadline ==> queue[0].sequence < e.sequence
  {
    assert queue[0] in queue;
  }

  // The number the drain ends with
  lemma NumberKept(queue: Queue, sequence: nat, now: real, turns: seq<Turn>, k: nat)
    requires k <= MAX_TASKS_PER_TICK
    ensures var r := Drain(queue, sequence, now, turns, k);
      if !Due(queue, now) || k == MAX_TASKS_PER_TICK then r.sequence == sequence
      else
        var (after, s) := AfterTurn(queue, sequence, TurnAt(turns, k));
        if Raises(queue[0].job, TurnAt(turns, k)) then r.sequence == s
        else r.sequence == Drain(after, s, TurnAt(turns, k).now.value, turns, k + 1).sequence
  {
  }
}
