// What every interleaving of the steps of Service keeps. The invariant comes in
// groups, each over the fields it reads only.
module ServiceSafety {
  import opened Service

  // Where the service thread is: 0 not created, 1 before RUNNING is decided, 2 from
  // there to the end of its loop, 3 and 4 in service_finish_thread, 5 gone
  function Span(p: MainPc): nat {
    match p
    case Absent => 0
    case InitInbox => 1
    case InitControl => 1
    case CheckStop(_) => 1
    case InitLua => 1
    case Decide(_) => 1
    case ShutRetire(last) => if last then 4 else 2
    case ShutClose(last) => if last then 4 else 2
    case ShutWait(last) => if last then 4 else 2
    case ShutDrain(last) => if last then 4 else 2
    case Finish => 3
    case LuaStop => 4
    case FinalClose => 4
    case Final => 4
    case Exited => 5
    case _ => 2
  }

  // Past service_wait_pins
  predicate PinsWaited(p: MainPc) {
    p.ShutDrain? || p.CloseHandles? || p.LuaStop? || p.FinalClose? || p.Final? || p.Exited?
  }

  // A service that waited for its pins has none and cannot be pinned again, and only
  // such a service has its mailbox drained or deleted or its handles closed.
  ghost predicate PinInv(pool: Pool, senders: map<nat, SendPc>, main: MainPc, joiner: JoinPc, uv: Uv, box: Inbox, drained: bool) {
    && pool.pins == |senders|
    && (main.ShutClose? || main.ShutWait? || joiner.FreeWait? ==> !pool.routable)
    && (PinsWaited(main) || uv.closing || drained || joiner.FreeTake? || joiner.FreeDelete? || box.deleted ==>
          !pool.routable && senders == map[])
    && (main.ShutWait? || main.ShutDrain? ==> box.closed)
    && (drained || box.deleted ==> box.closed && box.queue == [])
    && (main.CloseHandles? || main.LuaStop? || main.FinalClose? || main.Final? || main.Exited? || uv.closing ==> drained)
  }

  predicate Distinct(q: seq<nat>) {
    forall i, j :: 0 <= i < j < |q| ==> q[i] != q[j]
  }

  predicate OwnMessages(senders: map<nat, SendPc>) {
    forall t, u :: t in senders && u in senders && t != u ==> senders[t].m != senders[u].m
  }

  // The mailbox holds what was accepted and has no fate yet, in order; a send is
  // answered once.
  ghost predicate MessageInv(
    queue: seq<nat>, senders: map<nat, SendPc>, next: nat, accepted: seq<nat>, fates: seq<Fate>, rejected: set<nat>)
  {
    && |accepted| == |fates| + |queue|
    && queue == accepted[|fates|..]
    && Distinct(accepted)
    && (forall m :: m in accepted ==> m < next && m !in rejected)
    && (forall m :: m in rejected ==> m < next)
    && (forall t :: t in senders ==> senders[t].m < next)
    && (forall t :: t in senders && senders[t].Pinned? ==> senders[t].m !in accepted && senders[t].m !in rejected)
    && OwnMessages(senders)
  }

  ghost predicate ThreadInv(life: Life, main: MainPc, everRunning: bool) {
    var span, rank := Span(main), Rank(life.state);
    && (life.threadCreated <==> span != 0)
    && (span == 0 ==> rank == 0 || rank >= 4)
    && (span == 1 ==> !life.startDone && (rank == 1 || (rank == 3 && life.stopRequested)))
    && (span == 2 ==> everRunning && life.inboxReady && life.startDone && (rank == 2 || rank == 3))
    && (main == InitControl || main == CheckStop(false) || main == InitLua || main == Decide(false) ==> life.inboxReady)
    && (span == 3 ==> life.startDone && (rank == 3 || (rank == 2 && life.inboxReady)))
    && (span == 4 ==> life.startDone && rank == 3)
    && (span == 5 ==> life.startDone && rank >= 4)
    && (rank == 0 ==> !life.startDone && !life.stopRequested)
    && (life.stopRequested && span != 0 ==> rank >= 3)
  }

  ghost predicate StartInv(
    created: bool, done: bool, error: int, starter: StartPc, startResults: seq<int>, everRunning: bool)
  {
    && (done && error == 0 ==> everRunning)
    && (starter == StartWait ==> created)
    && (starter == FailRetire || starter == FailClose ==> done && error > 0)
    && (forall i :: 0 <= i < |startResults| && startResults[i] == 0 ==> everRunning)
  }

  ghost predicate JoinInv(life: Life, joiner: JoinPc, deleted: bool, joins: nat, frees: nat, joinResults: seq<int>) {
    && (life.joining <==> joiner != NoJoiner)
    && life.joinError == 0
    && (life.threadJoined <==> Rank(life.state) >= 5)
    && (joiner.JoinThread? ==> joiner.hasThread == life.threadCreated && (!joiner.hasThread ==> life.state == STOPPED))
    && (joiner.JoinThread? || joiner == JoinRecord ==> !life.threadJoined)
    && (joiner == JoinRecord ==> life.state == STOPPED)
    && (joiner == FreeRetire || joiner == FreeWait || joiner == FreeTake ==> life.state == JOINED)
    && (joiner == FreeDelete ==> life.state == FREED && !deleted)
    && (joiner.JoinClear? ==> joiner.error == 0 && life.state == FREED && deleted)
    && (joiner == NoJoiner && life.threadJoined ==> deleted)
    && (deleted ==> life.state == FREED)
    && frees == (if deleted then 1 else 0)
    && joins <= 1 && (joins == 1 ==> life.threadCreated) && (!life.threadJoined && joiner != JoinRecord ==> joins == 0)
    && (forall i :: 0 <= i < |joinResults| ==> joinResults[i] == EINVAL || (joinResults[i] == 0 && deleted))
  }

  predicate OwesWake(p: SendPc) {
    p.MustCheck? || p.MustAsync? || (p.MustUnpin? && p.stop)
  }

  // The dispatcher will look at the mailbox again before it waits.
  predicate WillLook(p: MainPc) {
    Span(p) <= 1 || p.Wake? || p.CbCheck? || p.Round? || p.Popping? || p.Handling? || p == EndRound(true) || p.Resend?
  }

  predicate StopUnderWay(p: StopPc) {
    p == Retiring || p == Deciding
  }

  ghost predicate Woken(uv: Uv, main: MainPc, senders: map<nat, SendPc>, stoppers: map<nat, StopPc>) {
    || uv.inboxPending
    || WillLook(main)
    || (exists t :: t in senders && OwesWake(senders[t]))
    || (exists k :: k in stoppers && StopUnderWay(stoppers[k]))
  }

  ghost predicate WakeInv(
    box: Inbox, state: State, uv: Uv, main: MainPc, senders: map<nat, SendPc>, stoppers: map<nat, StopPc>)
  {
    && (!box.scheduled && !box.closed ==> box.queue == [])
    && (box.scheduled && !box.closed && Rank(state) <= 2 ==> Woken(uv, main, senders, stoppers))
    && (forall k :: k in stoppers && !StopUnderWay(stoppers[k]) ==> Rank(state) >= 3)
    && (main.Quitting? && main.sid !in stoppers ==> Rank(state) >= 3)
  }

  // Every send taken up so far was answered or is in a pinned sender's hands.
  ghost predicate AnswerInv(senders: map<nat, SendPc>, next: nat, accepted: seq<nat>, rejected: set<nat>) {
    forall m: nat :: m < next && m !in accepted && m !in rejected ==> Held(senders, m)
  }

  predicate Held(senders: map<nat, SendPc>, m: nat) {
    exists t :: t in senders && senders[t] == Pinned(m)
  }

  // In or before the loop and not in the control callback
  predicate BeforeShutdown(p: MainPc) {
    p.Wake? || p.Loop? || p.CbCheck? || p.Round? || p.Popping? || p.Handling? || p.Quitting? || p.EndRound? || p.Resend?
  }

  predicate WillSignal(p: StopPc) {
    p == Closing(true) || p == Signalling
  }

  predicate StopSignalled(uv: Uv, stoppers: map<nat, StopPc>) {
    uv.controlPending || uv.closing || exists k :: k in stoppers && WillSignal(stoppers[k])
  }

  // A stop of a running service reaches its loop.
  ghost predicate SignalInv(life: Life, uv: Uv, main: MainPc, stoppers: map<nat, StopPc>) {
    && (uv.controlPending || main == ControlCb ==> life.stopRequested)
    && (forall k :: k in stoppers && WillSignal(stoppers[k]) ==> life.stopRequested)
    && (main == CheckStop(false) || main == InitLua || main == Decide(false) ==> life.controlReady)
    && (Span(main) == 2 ==> life.controlReady && (Rank(life.state) >= 3 ==> life.stopRequested))
    && (BeforeShutdown(main) && life.stopRequested ==> StopSignalled(uv, stoppers))
  }

  ghost predicate Pins(s: Svc) {
    PinInv(s.pool, s.senders, s.main, s.joiner, s.uv, s.box, s.hist.drained)
  }

  ghost predicate Messages(s: Svc) {
    MessageInv(s.box.queue, s.senders, s.hist.next, s.hist.accepted, s.hist.fates, s.hist.rejected)
  }

  ghost predicate Threads(s: Svc) {
    ThreadInv(s.life, s.main, s.hist.everRunning)
  }

  ghost predicate Starts(s: Svc) {
    StartInv(s.life.threadCreated, s.life.startDone, s.life.startError, s.starter, s.hist.startResults, s.hist.everRunning)
  }

  ghost predicate Joins(s: Svc) {
    JoinInv(s.life, s.joiner, s.box.deleted, s.hist.joins, s.hist.frees, s.hist.joinResults)
  }

  ghost predicate Wakeups(s: Svc) {
    WakeInv(s.box, s.life.state, s.uv, s.main, s.senders, s.stoppers)
  }

  ghost predicate Answers(s: Svc) {
    AnswerInv(s.senders, s.hist.next, s.hist.accepted, s.hist.rejected)
  }

  ghost predicate Signals(s: Svc) {
    SignalInv(s.life, s.uv, s.main, s.stoppers)
  }

  ghost predicate Inv(s: Svc) {
    Pins(s) && Messages(s) && Answers(s) && Threads(s) && Starts(s) && Joins(s) && Wakeups(s) && Signals(s)
  }

  lemma CreatedInv()
    ensures Inv(CREATED)
  {
  }


  lemma StartKeepsPins(s: Svc, step: StartStep)
    requires Pins(s) && StartEnabled(s, step)
    ensures Pins(StartApply(s, step))
  {
  }

  lemma BootKeepsPins(s: Svc, step: BootStep)
    requires Pins(s) && BootEnabled(s, step)
    ensures Pins(BootApply(s, step))
  {
  }

  lemma RoundKeepsPins(s: Svc, step: RoundStep)
    requires Pins(s) && RoundEnabled(s, step)
    ensures Pins(RoundApply(s, step))
  {
  }

  lemma ShutKeepsPins(s: Svc, step: ShutStep)
    requires Pins(s) && ShutEnabled(s, step)
    ensures Pins(ShutApply(s, step))
  {
  }

  lemma SendKeepsPins(s: Svc, step: SendStep)
    requires Pins(s) && SendEnabled(s, step)
    ensures Pins(SendApply(s, step))
  {
  }

  lemma StopKeepsPins(s: Svc, step: StopStep)
    requires Pins(s) && StopEnabled(s, step)
    ensures Pins(StopApply(s, step))
  {
  }

  lemma JoinKeepsPins(s: Svc, step: JoinStep)
    requires Pins(s) && JoinEnabled(s, step)
    ensures Pins(JoinApply(s, step))
  {
  }

  lemma RoundKeepsMessages(s: Svc, step: RoundStep)
    requires Messages(s) && RoundEnabled(s, step)
    ensures Messages(RoundApply(s, step))
  {
  }

  lemma ShutKeepsMessages(s: Svc, step: ShutStep)
    requires Messages(s) && ShutEnabled(s, step)
    ensures Messages(ShutApply(s, step))
  {
  }

  lemma PinKeepsMessages(s: Svc, tid: nat)
    requires Messages(s) && tid !in s.senders
    ensures Messages(ApplyPin(s, tid))
  {
  }

  lemma PushKeepsMessages(s: Svc, tid: nat, full: bool)
    requires Messages(s) && tid in s.senders && s.senders[tid].Pinned?
    ensures Messages(ApplyPush(s, tid, full))
  {
    var t := ApplyPush(s, tid, full);
    forall u | u in t.senders ensures t.senders[u].m == s.senders[u].m {
    }
  }

  lemma SendKeepsMessages(s: Svc, step: SendStep)
    requires Messages(s) && SendEnabled(s, step)
    ensures Messages(SendApply(s, step))
  {
    match step
    case Pin(tid) => PinKeepsMessages(s, tid);
    case Push(tid, full) => PushKeepsMessages(s, tid, full);
    case _ =>
      var t := SendApply(s, step);
      forall u | u in t.senders ensures u in s.senders && t.senders[u].m == s.senders[u].m {
      }
  }

  lemma JoinKeepsMessages(s: Svc, step: JoinStep)
    requires Messages(s) && JoinEnabled(s, step)
    ensures Messages(JoinApply(s, step))
  {
  }

  lemma StartKeepsThreads(s: Svc, step: StartStep)
    requires Threads(s) && Joins(s) && StartEnabled(s, step)
    ensures Threads(StartApply(s, step))
  {
  }

  lemma BootKeepsThreads(s: Svc, step: BootStep)
    requires Threads(s) && BootEnabled(s, step)
    ensures Threads(BootApply(s, step))
  {
  }

  lemma RoundKeepsThreads(s: Svc, step: RoundStep)
    requires Threads(s) && RoundEnabled(s, step)
    ensures Threads(RoundApply(s, step))
  {
  }

  lemma ShutMoves(s: Svc, step: ShutStep)
    requires ShutEnabled(s, step)
    ensures var was, now := Span(s.main), Span(ShutApply(s, step).main);
            match step
            case LoopReturns => was == 2 && now == 3
            case FinishBegins => was == 3 && now == 4
            case Finishes => was == 4 && now == 5
            case _ => was == now && (was == 2 || was == 4)
    ensures var p := ShutApply(s, step).main; !p.InitControl? && !p.CheckStop? && !p.InitLua? && !p.Decide?
  {
  }

  lemma ShutKeepsThreads(s: Svc, step: ShutStep)
    requires Threads(s) && ShutEnabled(s, step)
    ensures Threads(ShutApply(s, step))
  {
    hide Span;
    ShutMoves(s, step);
  }

  lemma StopKeepsThreads(s: Svc, step: StopStep)
    requires Threads(s) && Joins(s) && StopEnabled(s, step)
    ensures Threads(StopApply(s, step))
  {
  }

  lemma JoinKeepsThreads(s: Svc, step: JoinStep)
    requires Threads(s) && Joins(s) && JoinEnabled(s, step)
    ensures Threads(JoinApply(s, step))
  {
  }

  lemma StopKeepsStarts(s: Svc, step: StopStep)
    requires Threads(s) && Starts(s) && StopEnabled(s, step)
    ensures Starts(StopApply(s, step))
  {
  }

  lemma BootKeepsStarts(s: Svc, step: BootStep)
    requires Threads(s) && Starts(s) && BootEnabled(s, step)
    ensures Starts(BootApply(s, step))
  {
  }

  lemma StartKeepsStarts(s: Svc, step: StartStep)
    requires Threads(s) && Starts(s) && StartEnabled(s, step)
    ensures Starts(StartApply(s, step))
  {
  }

  lemma StartKeepsJoins(s: Svc, step: StartStep)
    requires Threads(s) && Joins(s) && StartEnabled(s, step)
    ensures Joins(StartApply(s, step))
  {
  }

  lemma BootKeepsJoins(s: Svc, step: BootStep)
    requires Threads(s) && Joins(s) && BootEnabled(s, step)
    ensures Joins(BootApply(s, step))
  {
  }

  lemma ShutKeepsJoins(s: Svc, step: ShutStep)
    requires Threads(s) && Joins(s) && ShutEnabled(s, step)
    ensures Joins(ShutApply(s, step))
  {
  }

  lemma StopKeepsJoins(s: Svc, step: StopStep)
    requires Threads(s) && Joins(s) && StopEnabled(s, step)
    ensures Joins(StopApply(s, step))
  {
  }

  lemma JoinKeepsJoins(s: Svc, step: JoinStep)
    requires Threads(s) && Joins(s) && JoinEnabled(s, step)
    ensures Joins(JoinApply(s, step))
  {
  }

  lemma StartKeepsWakes(s: Svc, step: StartStep)
    requires Threads(s) && Pins(s) && Wakeups(s) && StartEnabled(s, step)
    ensures Wakeups(StartApply(s, step))
  {
  }

  lemma BootKeepsWakes(s: Svc, step: BootStep)
    requires Threads(s) && Pins(s) && Wakeups(s) && BootEnabled(s, step)
    ensures Wakeups(BootApply(s, step))
  {
  }

  lemma RoundKeepsWakes(s: Svc, step: RoundStep)
    requires Threads(s) && Pins(s) && Wakeups(s) && RoundEnabled(s, step)
    ensures Wakeups(RoundApply(s, step))
  {
    var t := RoundApply(s, step);
    if w :| w in s.stoppers && StopUnderWay(s.stoppers[w]) {
      assert w in t.stoppers && StopUnderWay(t.stoppers[w]);
    }
    if step.HandlerStops? || step.Resends? {
      assert t.stoppers != s.stoppers ==> step.sid in t.stoppers && StopUnderWay(t.stoppers[step.sid]);
    }
  }

  lemma ShutKeepsWakes(s: Svc, step: ShutStep)
    requires Threads(s) && Pins(s) && Wakeups(s) && ShutEnabled(s, step)
    ensures Wakeups(ShutApply(s, step))
  {
    hide Woken;
    if Woken(s.uv, s.main, s.senders, s.stoppers) {
      ShutStaysWoken(s, step);
    }
  }

  lemma ShutStaysWoken(s: Svc, step: ShutStep)
    requires ShutEnabled(s, step) && Woken(s.uv, s.main, s.senders, s.stoppers)
    ensures var r := ShutApply(s, step); Woken(r.uv, r.main, r.senders, r.stoppers)
  {
  }

  lemma SendKeepsWakes(s: Svc, step: SendStep)
    requires Threads(s) && Pins(s) && Wakeups(s) && SendEnabled(s, step)
    ensures Wakeups(SendApply(s, step))
  {
    var t := SendApply(s, step);
    if w :| w in s.senders && OwesWake(s.senders[w]) {
      if step.Unpin? && step.tid == w {
        assert step.sid in t.stoppers && StopUnderWay(t.stoppers[step.sid]);
      } else if step.ReadReady? && !s.life.inboxReady {
        assert Rank(s.life.state) <= 2 ==> WillLook(t.main);
      } else if !(step.Async? && step.ok) {
        assert w in t.senders && OwesWake(t.senders[w]);
      }
    }
    if w :| w in s.stoppers && StopUnderWay(s.stoppers[w]) {
      assert w in t.stoppers && StopUnderWay(t.stoppers[w]);
    }
    if step.Push? {
      assert t.box != s.box && !s.box.scheduled ==> step.tid in t.senders && OwesWake(t.senders[step.tid]);
    }
  }

  lemma DecideKeepsWakes(s: Svc, sid: nat)
    requires Wakeups(s) && sid in s.stoppers
    ensures Wakeups(ApplyStopDecide(s, sid))
  {
    hide Woken;
    assert Rank(ApplyStopDecide(s, sid).life.state) >= 3;
  }

  lemma StopKeepsWakes(s: Svc, step: StopStep)
    requires Wakeups(s) && StopEnabled(s, step)
    ensures Wakeups(StopApply(s, step))
  {
    hide WillLook, Rank, ApplyStopDecide;
    if step.StopDecides? {
      DecideKeepsWakes(s, step.sid);
    } else {
      var t := StopApply(s, step);
      if w :| w in s.stoppers && StopUnderWay(s.stoppers[w]) {
        assert w in t.stoppers && StopUnderWay(t.stoppers[w]);
      }
    }
  }

  lemma JoinKeepsWakes(s: Svc, step: JoinStep)
    requires Threads(s) && Pins(s) && Wakeups(s) && JoinEnabled(s, step)
    ensures Wakeups(JoinApply(s, step))
  {
  }

  lemma StartKeepsSignals(s: Svc, step: StartStep)
    requires Threads(s) && Signals(s) && StartEnabled(s, step)
    ensures Signals(StartApply(s, step))
  {
  }

  lemma BootKeepsSignals(s: Svc, step: BootStep)
    requires Threads(s) && Signals(s) && BootEnabled(s, step)
    ensures Signals(BootApply(s, step))
  {
  }

  lemma RoundKeepsSignals(s: Svc, step: RoundStep)
    requires Threads(s) && Signals(s) && RoundEnabled(s, step)
    ensures Signals(RoundApply(s, step))
  {
    var t := RoundApply(s, step);
    if w :| w in s.stoppers && WillSignal(s.stoppers[w]) {
      assert w in t.stoppers && WillSignal(t.stoppers[w]);
    }
  }

  lemma ShutKeepsSignals(s: Svc, step: ShutStep)
    requires Threads(s) && Signals(s) && ShutEnabled(s, step)
    ensures Signals(ShutApply(s, step))
  {
    hide Span;
    ShutMoves(s, step);
  }

  lemma SendKeepsSignals(s: Svc, step: SendStep)
    requires Threads(s) && Signals(s) && SendEnabled(s, step)
    ensures Signals(SendApply(s, step))
  {
    var t := SendApply(s, step);
    if w :| w in s.stoppers && WillSignal(s.stoppers[w]) {
      assert w in t.stoppers && WillSignal(t.stoppers[w]);
    }
  }

  lemma StopKeepsSignals(s: Svc, step: StopStep)
    requires Threads(s) && Signals(s) && StopEnabled(s, step)
    ensures Signals(StopApply(s, step))
  {
    var t := StopApply(s, step);
    if w :| w in s.stoppers && WillSignal(s.stoppers[w]) {
      assert w != step.sid || step.StopCloses? ==> w in t.stoppers && WillSignal(t.stoppers[w]);
    }
    if step.StopDecides? && t.life.stopRequested && !s.life.stopRequested && BeforeShutdown(s.main) {
      assert WillSignal(t.stoppers[step.sid]);
    }
  }

  lemma JoinKeepsSignals(s: Svc, step: JoinStep)
    requires Threads(s) && Joins(s) && Signals(s) && JoinEnabled(s, step)
    ensures Signals(JoinApply(s, step))
  {
  }

  lemma SendKeepsAnswers(s: Svc, step: SendStep)
    requires Messages(s) && Answers(s) && SendEnabled(s, step)
    ensures Answers(SendApply(s, step))
  {
    var t := SendApply(s, step);
    forall m: nat | m < t.hist.next && m !in t.hist.accepted && m !in t.hist.rejected ensures Held(t.senders, m) {
      if m < s.hist.next {
        var w :| w in s.senders && s.senders[w] == Pinned(m);
        assert w in t.senders && t.senders[w] == Pinned(m);
      } else {
        assert step.Pin? && t.senders[step.tid] == Pinned(m);
      }
    }
  }

  lemma StartKeeps(s: Svc, step: StartStep)
    requires Inv(s) && StartEnabled(s, step)
    ensures Inv(StartApply(s, step))
  {
    hide PinInv, MessageInv, AnswerInv, ThreadInv, StartInv, JoinInv, WakeInv, SignalInv;
    StartKeepsPins(s, step);
    StartKeepsThreads(s, step);
    StartKeepsStarts(s, step);
    StartKeepsJoins(s, step);
    StartKeepsWakes(s, step);
    StartKeepsSignals(s, step);
  }

  lemma BootKeeps(s: Svc, step: BootStep)
    requires Inv(s) && BootEnabled(s, step)
    ensures Inv(BootApply(s, step))
  {
    hide PinInv, MessageInv, AnswerInv, ThreadInv, StartInv, JoinInv, WakeInv, SignalInv;
    BootKeepsPins(s, step);
    BootKeepsThreads(s, step);
    BootKeepsStarts(s, step);
    BootKeepsJoins(s, step);
    BootKeepsWakes(s, step);
    BootKeepsSignals(s, step);
  }

  lemma RoundKeeps(s: Svc, step: RoundStep)
    requires Inv(s) && RoundEnabled(s, step)
    ensures Inv(RoundApply(s, step))
  {
    hide PinInv, MessageInv, AnswerInv, ThreadInv, StartInv, JoinInv, WakeInv, SignalInv;
    RoundKeepsPins(s, step);
    RoundKeepsMessages(s, step);
    RoundKeepsThreads(s, step);
    RoundKeepsWakes(s, step);
    RoundKeepsSignals(s, step);
  }

  lemma ShutKeeps(s: Svc, step: ShutStep)
    requires Inv(s) && ShutEnabled(s, step)
    ensures Inv(ShutApply(s, step))
  {
    hide PinInv, MessageInv, AnswerInv, ThreadInv, StartInv, JoinInv, WakeInv, SignalInv;
    ShutKeepsPins(s, step);
    ShutKeepsMessages(s, step);
    ShutKeepsThreads(s, step);
    ShutKeepsJoins(s, step);
    ShutKeepsWakes(s, step);
    ShutKeepsSignals(s, step);
  }

  lemma SendKeeps(s: Svc, step: SendStep)
    requires Inv(s) && SendEnabled(s, step)
    ensures Inv(SendApply(s, step))
  {
    hide PinInv, MessageInv, AnswerInv, ThreadInv, StartInv, JoinInv, WakeInv, SignalInv;
    SendKeepsPins(s, step);
    SendKeepsMessages(s, step);
    SendKeepsAnswers(s, step);
    SendKeepsWakes(s, step);
    SendKeepsSignals(s, step);
  }

  lemma StopKeeps(s: Svc, step: StopStep)
    requires Inv(s) && StopEnabled(s, step)
    ensures Inv(StopApply(s, step))
  {
    hide PinInv, MessageInv, AnswerInv, ThreadInv, StartInv, JoinInv, WakeInv, SignalInv;
    StopKeepsPins(s, step);
    StopKeepsThreads(s, step);
    StopKeepsStarts(s, step);
    StopKeepsJoins(s, step);
    StopKeepsWakes(s, step);
    StopKeepsSignals(s, step);
  }

  // What joining does not touch
  lemma JoinFrame(s: Svc, step: JoinStep)
    requires JoinEnabled(s, step)
    ensures var r := JoinApply(s, step);
      && r.senders == s.senders && r.hist.next == s.hist.next && r.hist.accepted == s.hist.accepted
      && r.hist.rejected == s.hist.rejected && r.hist.everRunning == s.hist.everRunning
      && r.hist.startResults == s.hist.startResults && r.starter == s.starter
      && r.life.threadCreated == s.life.threadCreated && r.life.startDone == s.life.startDone
      && r.life.startError == s.life.startError
  {
  }

  lemma JoinKeepsRest(s: Svc, step: JoinStep)
    requires Answers(s) && Starts(s) && JoinEnabled(s, step)
    ensures Answers(JoinApply(s, step)) && Starts(JoinApply(s, step))
  {
    hide AnswerInv, StartInv, JoinApply;
    JoinFrame(s, step);
  }

  lemma JoinKeeps(s: Svc, step: JoinStep)
    requires Inv(s) && JoinEnabled(s, step)
    ensures Inv(JoinApply(s, step))
  {
    hide Pins, Messages, Answers, Threads, Starts, Joins, Wakeups, Signals, JoinApply, JoinEnabled;
    JoinKeepsRest(s, step);
    JoinKeepsPins(s, step);
    JoinKeepsMessages(s, step);
    JoinKeepsThreads(s, step);
    JoinKeepsJoins(s, step);
    JoinKeepsWakes(s, step);
    JoinKeepsSignals(s, step);
  }

  lemma StepKeeps(s: Svc, step: Step)
    requires Inv(s) && Enabled(s, step)
    ensures Inv(Apply(s, step))
  {
    hide Inv, StartApply, BootApply, RoundApply, ShutApply, SendApply, StopApply, JoinApply;
    match step
    case Starting(x) => StartKeeps(s, x);
    case Booting(x) => BootKeeps(s, x);
    case Dispatching(x) => RoundKeeps(s, x);
    case Shutting(x) => ShutKeeps(s, x);
    case Sending(x) => SendKeeps(s, x);
    case Stopping(x) => StopKeeps(s, x);
    case Joining(x) => JoinKeeps(s, x);
  }
}
