// What holds on every run of a service, from its creation, however the steps of
// its threads interleave.
module ServiceRuns {
  import opened Service
  import opened ServiceSafety
  import Mailbox

  ghost predicate Reaches(s: Svc, steps: seq<Step>, r: Svc)
    decreases |steps|
  {
    if steps == [] then s == r else Enabled(s, steps[0]) && Reaches(Apply(s, steps[0]), steps[1..], r)
  }

  // What no step takes back
  ghost predicate Later(s: Svc, r: Svc) {
    && Rank(s.life.state) <= Rank(r.life.state)
    && s.hist.accepted <= r.hist.accepted && s.hist.fates <= r.hist.fates && s.hist.rejected <= r.hist.rejected
    && s.hist.next <= r.hist.next && s.hist.startResults <= r.hist.startResults
    && s.hist.joinResults <= r.hist.joinResults
    && (s.hist.drained ==> r.hist.drained) && (s.hist.everRunning ==> r.hist.everRunning)
    && (s.box.closed ==> r.box.closed) && (s.box.closed ==> s.hist.accepted == r.hist.accepted)
    && (!s.pool.routable ==> !r.pool.routable && r.senders.Keys <= s.senders.Keys)
    && (s.life.stopRequested ==> r.life.stopRequested) && (s.life.threadCreated ==> r.life.threadCreated)
  }

  lemma StartLater(s: Svc, step: StartStep)
    requires StartEnabled(s, step)
    ensures Later(s, StartApply(s, step))
  {
  }

  lemma BootLater(s: Svc, step: BootStep)
    requires Threads(s) && BootEnabled(s, step)
    ensures Later(s, BootApply(s, step))
  {
  }

  lemma RoundLater(s: Svc, step: RoundStep)
    requires RoundEnabled(s, step)
    ensures Later(s, RoundApply(s, step))
  {
  }

  lemma ShutLater(s: Svc, step: ShutStep)
    requires Threads(s) && ShutEnabled(s, step)
    ensures Later(s, ShutApply(s, step))
  {
  }

  lemma SendLater(s: Svc, step: SendStep)
    requires SendEnabled(s, step)
    ensures Later(s, SendApply(s, step))
  {
  }

  lemma StopLater(s: Svc, step: StopStep)
    requires StopEnabled(s, step)
    ensures Later(s, StopApply(s, step))
  {
  }

  lemma JoinLater(s: Svc, step: JoinStep)
    requires Joins(s) && JoinEnabled(s, step)
    ensures Later(s, JoinApply(s, step))
  {
  }

  lemma StepLater(s: Svc, step: Step)
    requires Inv(s) && Enabled(s, step)
    ensures Later(s, Apply(s, step))
  {
    hide Later, StartApply, BootApply, RoundApply, ShutApply, SendApply, StopApply, JoinApply;
    match step
    case Starting(x) => StartLater(s, x);
    case Booting(x) => BootLater(s, x);
    case Dispatching(x) => RoundLater(s, x);
    case Shutting(x) => ShutLater(s, x);
    case Sending(x) => SendLater(s, x);
    case Stopping(x) => StopLater(s, x);
    case Joining(x) => JoinLater(s, x);
  }

  lemma LaterChains(a: Svc, b: Svc, c: Svc)
    requires Later(a, b) && Later(b, c)
    ensures Later(a, c)
  {
  }

  lemma LaterKeeps(a: Svc, b: Svc)
    requires Later(a, b)
    ensures (a.life.stopRequested ==> b.life.stopRequested) && Rank(a.life.state) <= Rank(b.life.state)
  {
  }

  lemma LaterSame(a: Svc)
    ensures Later(a, a)
  {
  }

  lemma {:induction false} RunKeeps(s: Svc, steps: seq<Step>, r: Svc)
    requires Inv(s) && Reaches(s, steps, r)
    ensures Inv(r) && Later(s, r)
    decreases |steps|
  {
    hide Inv, Later, Enabled, Apply;
    if steps == [] {
      LaterSame(s);
    } else {
      var t := Apply(s, steps[0]);
      StepKeeps(s, steps[0]);
      StepLater(s, steps[0]);
      RunKeeps(t, steps[1..], r);
      LaterChains(s, t, r);
    }
  }

  // Pin safety: between its pin and its unpin a sender has a mailbox that is not
  // deleted and handles that are not closing.
  lemma PinnedIsSafe(steps: seq<Step>, s: Svc, tid: nat)
    requires Reaches(CREATED, steps, s) && tid in s.senders
    ensures !s.box.deleted && !s.uv.closing && !s.hist.drained && s.pool.pins > 0
    ensures s.main != Exited && s.life.state != FREED
  {
    hide Reaches;
    AllKept(steps, s);
    PinsMean(s, tid);
  }

  lemma AllKept(steps: seq<Step>, s: Svc)
    requires Reaches(CREATED, steps, s)
    ensures Inv(s) && Later(CREATED, s)
  {
    hide Reaches, Inv, Later;
    CreatedInv();
    RunKeeps(CREATED, steps, s);
  }

  lemma PinsMean(s: Svc, tid: nat)
    requires Inv(s) && tid in s.senders
    ensures !s.box.deleted && !s.uv.closing && !s.hist.drained && s.pool.pins > 0
    ensures s.main != Exited && s.life.state != FREED
  {
    assert s.senders.Keys != {};
    assert s.joiner == FreeDelete || s.box.deleted ==> s.senders == map[];
  }

  // A retired service whose pins are gone is never pinned again.
  lemma RetiredStaysUnpinned(steps: seq<Step>, s: Svc, more: seq<Step>, r: Svc)
    requires Reaches(CREATED, steps, s) && Reaches(s, more, r)
    requires !s.pool.routable && s.pool.pins == 0
    ensures !r.pool.routable && r.pool.pins == 0 && r.senders == map[]
  {
    hide Reaches, Inv, StartInv, JoinInv, WakeInv, ThreadInv, SignalInv, MessageInv;
    AllKept(steps, s);
    RunKeeps(s, more, r);
    assert Pins(s) && Pins(r) by { Parts(s); Parts(r); }
  }

  lemma Parts(s: Svc)
    requires Inv(s)
    ensures Pins(s) && Messages(s) && Answers(s) && Threads(s) && Starts(s) && Joins(s) && Wakeups(s) && Signals(s)
  {
    hide Pins, Messages, Answers, Threads, Starts, Joins, Wakeups, Signals;
  }

  // No lost wakeup: while a running service has mail in its open mailbox, an async
  // send is pending or owed, the dispatcher is about to look, or a stop is on its way.
  lemma NoLostWakeup(steps: seq<Step>, s: Svc)
    requires Reaches(CREATED, steps, s)
    requires s.life.state == RUNNING && !s.box.closed && s.box.queue != []
    ensures || s.uv.inboxPending
            || WillLook(s.main)
            || (exists t :: t in s.senders && OwesWake(s.senders[t]))
            || (exists k :: k in s.stoppers && StopUnderWay(s.stoppers[k]))
  {
    hide Reaches, PinInv, MessageInv, ThreadInv, StartInv, JoinInv, SignalInv;
    AllKept(steps, s);
  }

  // No lost stop: once a stop is requested the thread is on its way out of its loop,
  // or the loop has the stop's signal pending or about to be sent.
  lemma NoLostStop(steps: seq<Step>, s: Svc)
    requires Reaches(CREATED, steps, s) && s.life.stopRequested && BeforeShutdown(s.main)
    ensures || s.uv.controlPending || s.uv.closing
            || exists k :: k in s.stoppers && (s.stoppers[k] == Closing(true) || s.stoppers[k] == Signalling)
  {
    hide Reaches, PinInv, MessageInv, ThreadInv, StartInv, JoinInv, WakeInv;
    AllKept(steps, s);
    if !s.uv.controlPending && !s.uv.closing {
      var k :| k in s.stoppers && WillSignal(s.stoppers[k]);
    }
  }

  // A step of something already under way: not a new send, stop, start or join
  predicate Proceeds(step: Step) {
    match step
    case Starting(x) => !x.StartBegin? && !x.StartRefused?
    case Sending(x) => !x.Pin?
    case Stopping(x) => !x.StopBegin?
    case Joining(x) => !x.JoinBegin?
    case _ => true
  }

  lemma SenderProceeds(s: Svc, tid: nat, unused: nat) returns (step: Step)
    requires tid in s.senders && unused !in s.stoppers
    ensures Enabled(s, step) && Proceeds(step)
  {
    match s.senders[tid]
    case Pinned(_) => step := Sending(Push(tid, false));
    case MustCheck(_) => step := Sending(ReadReady(tid));
    case MustAsync(_) => step := Sending(Async(tid, true));
    case MustUnpin(_, _) => step := Sending(Unpin(tid, unused));
  }

  lemma StopperProceeds(s: Svc, sid: nat) returns (step: Step)
    requires sid in s.stoppers
    ensures Enabled(s, step) && Proceeds(step)
  {
    match s.stoppers[sid]
    case Retiring => step := Stopping(StopRetires(sid));
    case Deciding => step := Stopping(StopDecides(sid));
    case Closing(_) => step := Stopping(StopCloses(sid));
    case Signalling => step := Stopping(StopSignals(sid));
  }

  lemma ThreadProceeds(s: Svc, unused: nat) returns (step: Step)
    requires !s.main.Absent? && !s.main.Exited? && !s.main.Loop? && !s.main.ShutWait? && !s.main.Quitting?
    requires unused !in s.stoppers
    ensures Enabled(s, step) && Proceeds(step)
  {
    match s.main
    case InitInbox => step := Booting(InboxInit(true));
    case InitControl => step := Booting(ControlInit(true));
    case CheckStop(_) => step := Booting(StopCheck);
    case InitLua => step := Booting(LuaInit(true));
    case Decide(_) => step := Booting(Decides);
    case Wake => step := Booting(Wakes);
    case CbCheck => step := Dispatching(CbChecks);
    case Round(_) => step := Dispatching(RecvChecks);
    case Popping(_) => step := Dispatching(Pops);
    case Handling(_) => step := Dispatching(HandlerReturns);
    case EndRound(_) => step := Dispatching(RoundEnds);
    case Resend => step := Dispatching(Resends(true, unused));
    case ControlCb => step := Shutting(ControlChecks);
    case ShutRetire(_) => step := Shutting(MainRetires);
    case ShutClose(_) => step := Shutting(MainCloses);
    case ShutDrain(_) => step := Shutting(MainDrains);
    case CloseHandles => step := Shutting(HandlesClose);
    case Finish => step := Shutting(FinishBegins);
    case LuaStop => step := Shutting(LuaStops);
    case FinalClose => step := Shutting(FinalCloses);
    case Final => step := Shutting(Finishes);
  }

  lemma {:induction false} FreshKey(keys: set<nat>) returns (k: nat)
    ensures forall x :: x in keys ==> x < k
    decreases |keys|
  {
    k := 0;
    if keys != {} {
      var x :| x in keys;
      k := FreshKey(keys - {x});
      assert forall y :: y in keys ==> y == x || y in keys - {x};
      k := if x < k then k else x + 1;
    }
  }

  // A stopping service is never stuck: until its thread is gone, something already
  // under way can step. The shutdown waits for pins, never for itself.
  lemma StopNeverStuck(steps: seq<Step>, s: Svc) returns (step: Step)
    requires Reaches(CREATED, steps, s)
    requires s.life.threadCreated && s.life.stopRequested && s.main != Exited
    ensures Enabled(s, step) && Proceeds(step)
  {
    hide Reaches, Inv, Enabled, Later, Proceeds;
    AllKept(steps, s);
    var unused := FreshKey(s.stoppers.Keys);
    assert unused !in s.stoppers;
    match s.main
    case Loop =>
      NoLostStop(steps, s);
      step := LoopProceeds(s);
    case ShutWait(_) =>
      PinCount(s);
      if s.pool.pins == 0 {
        step := WaitEnds(s);
      } else {
        var tid :| tid in s.senders;
        step := SenderProceeds(s, tid, unused);
      }
    case Quitting(sid) =>
      if sid in s.stoppers {
        step := StopperProceeds(s, sid);
      } else {
        step := QuitEnds(s);
      }
    case _ =>
      NotAbsent(s);
      step := ThreadProceeds(s, unused);
  }

  lemma LoopProceeds(s: Svc) returns (step: Step)
    requires s.main == Loop
    requires s.uv.controlPending || s.uv.closing || exists k :: k in s.stoppers && WillSignal(s.stoppers[k])
    ensures Enabled(s, step) && Proceeds(step)
  {
    if s.uv.closing {
      step := Shutting(LoopReturns);
    } else if s.uv.controlPending {
      step := Shutting(ControlFires);
    } else {
      var k :| k in s.stoppers && WillSignal(s.stoppers[k]);
      step := StopperProceeds(s, k);
    }
  }

  lemma WaitEnds(s: Svc) returns (step: Step)
    requires s.main.ShutWait? && s.pool.pins == 0
    ensures Enabled(s, step) && Proceeds(step)
  {
    step := Shutting(MainPinsGone);
  }

  lemma QuitEnds(s: Svc) returns (step: Step)
    requires s.main.Quitting? && s.main.sid !in s.stoppers
    ensures Enabled(s, step) && Proceeds(step)
  {
    step := Dispatching(QuitDone);
  }

  lemma PinCount(s: Svc)
    requires Inv(s)
    ensures s.pool.pins != 0 ==> exists tid :: tid in s.senders
  {
    assert s.pool.pins == |s.senders|;
    if s.senders.Keys == {} {
      assert s.senders == map[];
    }
  }

  lemma NotAbsent(s: Svc)
    requires Inv(s) && s.life.threadCreated
    ensures s.main != Absent
  {
  }

  // Where send m stands: not yet answered, answered with an error, queued, or taken
  // out of the mailbox with a fate
  predicate Queued(s: Svc, m: nat) {
    m in s.box.queue
  }

  predicate Fated(s: Svc, m: nat, fate: Fate) {
    exists i :: 0 <= i < |s.hist.accepted| && i < |s.hist.fates| && s.hist.accepted[i] == m && s.hist.fates[i] == fate
  }

  // Conservation: every send is in exactly one place; one answered with an error is
  // never queued, dispatched, drained or deleted.
  lemma EverySendOnce(steps: seq<Step>, s: Svc, m: nat)
    requires Reaches(CREATED, steps, s) && m < s.hist.next
    ensures (exists fate :: Fated(s, m, fate)) || Queued(s, m) || m in s.hist.rejected || Held(s.senders, m)
    ensures forall f, g :: Fated(s, m, f) && Fated(s, m, g) ==> f == g
    ensures forall f :: Fated(s, m, f) ==> !Queued(s, m) && m !in s.hist.rejected && !Held(s.senders, m)
    ensures Queued(s, m) ==> m !in s.hist.rejected && !Held(s.senders, m)
    ensures m in s.hist.rejected ==> !Held(s.senders, m)
  {
    hide Reaches, PinInv, ThreadInv, StartInv, JoinInv, WakeInv, SignalInv, Fated, Queued, Held;
    AllKept(steps, s);
    if m in s.hist.accepted {
      AcceptedOnce(s, m);
    }
    NotAccepted(s, m);
  }

  lemma AcceptedOnce(s: Svc, m: nat)
    requires Messages(s) && m in s.hist.accepted
    ensures (exists fate :: Fated(s, m, fate)) || Queued(s, m)
    ensures forall f, g :: Fated(s, m, f) && Fated(s, m, g) ==> f == g
    ensures forall f :: Fated(s, m, f) ==> !Queued(s, m)
    ensures m !in s.hist.rejected && !Held(s.senders, m)
  {
    var n := |s.hist.fates|;
    var i :| 0 <= i < |s.hist.accepted| && s.hist.accepted[i] == m;
    if i < n {
      assert Fated(s, m, s.hist.fates[i]);
    } else {
      assert s.box.queue[i - n] == m;
    }
    if Queued(s, m) {
      var k :| 0 <= k < |s.box.queue| && s.box.queue[k] == m;
      assert s.hist.accepted[k + n] == m;
    }
  }

  lemma NotAccepted(s: Svc, m: nat)
    requires Messages(s) && Answers(s) && m < s.hist.next
    ensures m !in s.hist.accepted ==>
      (m in s.hist.rejected || Held(s.senders, m)) && !Queued(s, m) && forall f :: !Fated(s, m, f)
    ensures m in s.hist.rejected ==> !Held(s.senders, m)
  {
    if m in s.box.queue {
      var k :| 0 <= k < |s.box.queue| && s.box.queue[k] == m;
      assert s.hist.accepted[k + |s.hist.fates|] == m;
    }
  }

  // Once drained the mailbox stays empty, so that by the time the service is freed
  // each accepted message was dispatched, drained or deleted, and nothing else can be.
  lemma DrainedStaysEmpty(steps: seq<Step>, s: Svc, more: seq<Step>, r: Svc)
    requires Reaches(CREATED, steps, s) && Reaches(s, more, r)
    requires s.hist.drained || s.main == Exited || s.box.deleted
    ensures r.box.queue == [] && r.hist.accepted == s.hist.accepted && |r.hist.fates| == |r.hist.accepted|
  {
    hide Reaches, ThreadInv, StartInv, JoinInv, WakeInv, SignalInv, AnswerInv;
    AllKept(steps, s);
    RunKeeps(s, more, r);
  }

  // The lifecycle only moves forward; a start that returns 0 entered RUNNING; the
  // thread is joined at most once and the service freed at most once; a join that
  // returns 0 returns after the free, and none returns EBUSY.
  lemma Lifecycle(steps: seq<Step>, s: Svc, more: seq<Step>, r: Svc)
    requires Reaches(CREATED, steps, s) && Reaches(s, more, r)
    ensures Rank(s.life.state) <= Rank(r.life.state)
    ensures 0 in s.hist.startResults ==> s.hist.everRunning
    ensures s.hist.joins <= 1 && s.hist.frees <= 1 && (s.hist.frees == 1 <==> s.box.deleted)
    ensures forall e :: e in s.hist.joinResults ==> e == 0 || e == EINVAL
    ensures 0 in s.hist.joinResults ==> s.hist.frees == 1 && s.life.state == FREED
    ensures s.hist.joins == 1 ==> s.main == Exited
  {
    hide Reaches, PinInv, MessageInv, AnswerInv, WakeInv, SignalInv, ThreadInv;
    AllKept(steps, s);
    RunKeeps(s, more, r);
    JoinedThreadIsGone(s);
  }

  lemma JoinedThreadIsGone(s: Svc)
    requires Threads(s) && Joins(s)
    ensures s.hist.joins == 1 ==> s.main == Exited
  {
  }

  // Every join after one that returned 0 returns 0 at once.
  lemma LaterJoinersAgree(steps: seq<Step>, s: Svc)
    requires Reaches(CREATED, steps, s) && 0 in s.hist.joinResults && JoinEnabled(s, JoinBegin)
    ensures JoinApply(s, JoinBegin).hist.joinResults == s.hist.joinResults + [0]
    ensures JoinApply(s, JoinBegin).joiner == NoJoiner
  {
    hide Reaches, PinInv, MessageInv, AnswerInv, WakeInv, SignalInv, ThreadInv, StartInv;
    AllKept(steps, s);
  }

  // The mailbox steps above are those of the ring: the last locked region of a push,
  // a pop and the end of a full batch
  function Seen(b: Mailbox.Box<nat>): Inbox {
    Inbox(b.queue, b.closed, b.scheduled, false)
  }

  lemma PushIsThePush(s: Svc, tid: nat, mid: Mailbox.Box<nat>, b: Mailbox.Box<nat>, result: Mailbox.PushResult, notify: bool)
    requires tid in s.senders && s.senders[tid].Pinned?
    requires s.box == Seen(mid) && Mailbox.PushedOnce(mid, s.senders[tid].m, b, result, notify)
    ensures var t := ApplyPush(s, tid, result == Mailbox.FULL);
      && t.box == Seen(b)
      && t.hist.accepted == (if result == Mailbox.OK then s.hist.accepted + [s.senders[tid].m] else s.hist.accepted)
      && (t.senders[tid].MustCheck? <==> notify)
  {
  }

  lemma PopIsThePop(s: Svc, k: nat, b: Mailbox.Box<nat>)
    requires b.Valid() && s.box == Seen(b)
    ensures var (after, out) := Mailbox.Pop(b);
      ApplyPop(s, k).box == Seen(after) && (ApplyPop(s, k).main.Handling? <==> out.Some?)
    ensures var (after, more) := Mailbox.FinishBatch(b);
      ApplyRoundEnd(s, true).box == Seen(after) && (ApplyRoundEnd(s, true).main == Resend <==> more)
  {
  }
}
