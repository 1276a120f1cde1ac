// What the calls and callbacks of a service promise, over every run: each start and join is
// answered once, a full batch is a batch of 256, what becomes of a message says who took it.
module Promises {
  import opened Service
  import opened ServiceSafety
  import opened ServiceRuns
  import Doors

  // Calls and answers

  function StartCalls(past: seq<Step>): nat {
    if past == [] then 0
    else StartCalls(past[..|past| - 1]) +
         match past[|past| - 1]
         case Starting(StartBegin(_, _)) => 1
         case Starting(StartRefused) => 1
         case _ => 0
  }

  function JoinCalls(past: seq<Step>): nat {
    if past == [] then 0 else JoinCalls(past[..|past| - 1]) + if past[|past| - 1] == Joining(JoinBegin) then 1 else 0
  }

  // How many messages the dispatcher's handler was done with since the callback began
  function Handled(past: seq<Step>): nat {
    if past == [] then 0
    else
      match past[|past| - 1]
      case Dispatching(CbChecks) => 0
      case Dispatching(HandlerReturns) => Handled(past[..|past| - 1]) + 1
      case _ => Handled(past[..|past| - 1])
  }

  // The call under way, if any, is not answered yet.
  ghost predicate Counted(past: seq<Step>, starter: StartPc, joiner: JoinPc, startResults: seq<int>, joinResults: seq<int>) {
    && |startResults| + (if starter == NoStarter then 0 else 1) == StartCalls(past)
    && |joinResults| + (if joiner == NoJoiner then 0 else 1) == JoinCalls(past)
  }

  ghost predicate BatchInv(past: seq<Step>, main: MainPc) {
    match main
    case Round(k) => k == Handled(past) < 256
    case Popping(k) => k == Handled(past) < 256
    case Handling(k) => k == Handled(past) < 256
    case EndRound(full) => full ==> Handled(past) == 256
    case Resend => Handled(past) == 256
    case _ => true
  }

  ghost predicate Kept(past: seq<Step>, s: Svc) {
    && Counted(past, s.starter, s.joiner, s.hist.startResults, s.hist.joinResults)
    && BatchInv(past, s.main)
    && (s.life.state == NEW ==> s.starter == NoStarter)
    && (s.joiner != NoJoiner ==> s.life.joining)
  }

  lemma OneMore(past: seq<Step>, step: Step)
    ensures (past + [step])[..|past|] == past && (past + [step])[|past|] == step
  {
  }

  lemma StartKept(past: seq<Step>, s: Svc, x: StartStep)
    requires Kept(past, s) && StartEnabled(s, x) && Threads(s)
    ensures Kept(past + [Starting(x)], StartApply(s, x))
  {
    OneMore(past, Starting(x));
  }

  lemma BootKept(past: seq<Step>, s: Svc, x: BootStep)
    requires Kept(past, s) && BootEnabled(s, x)
    ensures Kept(past + [Booting(x)], BootApply(s, x))
  {
    OneMore(past, Booting(x));
  }

  lemma RoundKept(past: seq<Step>, s: Svc, x: RoundStep)
    requires Kept(past, s) && RoundEnabled(s, x)
    ensures Kept(past + [Dispatching(x)], RoundApply(s, x))
  {
    OneMore(past, Dispatching(x));
  }

  lemma ShutKept(past: seq<Step>, s: Svc, x: ShutStep)
    requires Kept(past, s) && ShutEnabled(s, x)
    ensures Kept(past + [Shutting(x)], ShutApply(s, x))
  {
    OneMore(past, Shutting(x));
  }

  lemma SendKept(past: seq<Step>, s: Svc, x: SendStep)
    requires Kept(past, s) && SendEnabled(s, x)
    ensures Kept(past + [Sending(x)], SendApply(s, x))
  {
    OneMore(past, Sending(x));
  }

  lemma StopKept(past: seq<Step>, s: Svc, x: StopStep)
    requires Kept(past, s) && StopEnabled(s, x)
    ensures Kept(past + [Stopping(x)], StopApply(s, x))
  {
    OneMore(past, Stopping(x));
  }

  lemma JoinKept(past: seq<Step>, s: Svc, x: JoinStep)
    requires Kept(past, s) && JoinEnabled(s, x)
    ensures Kept(past + [Joining(x)], JoinApply(s, x))
  {
    OneMore(past, Joining(x));
  }

  lemma StepKept(past: seq<Step>, s: Svc, step: Step)
    requires Inv(s) && Kept(past, s) && Enabled(s, step)
    ensures Kept(past + [step], Apply(s, step))
  {
    hide Inv, Kept, Threads, StartApply, BootApply, RoundApply, ShutApply, SendApply, StopApply, JoinApply;
    match step
    case Starting(x) => Parts(s); StartKept(past, s, x);
    case Booting(x) => BootKept(past, s, x);
    case Dispatching(x) => RoundKept(past, s, x);
    case Shutting(x) => ShutKept(past, s, x);
    case Sending(x) => SendKept(past, s, x);
    case Stopping(x) => StopKept(past, s, x);
    case Joining(x) => JoinKept(past, s, x);
  }

  lemma {:induction false} RunKept(past: seq<Step>, s: Svc, steps: seq<Step>, r: Svc)
    requires Inv(s) && Kept(past, s) && Reaches(s, steps, r)
    ensures Kept(past + steps, r)
    decreases |steps|
  {
    hide Inv, Kept, Enabled, Apply;
    if steps == [] {
      assert past + steps == past;
    } else {
      StepKept(past, s, steps[0]);
      StepKeeps(s, steps[0]);
      RunKept(past + [steps[0]], Apply(s, steps[0]), steps[1..], r);
      assert past + steps == past + [steps[0]] + steps[1..];
    }
  }

  lemma AllKeptSo(steps: seq<Step>, s: Svc)
    requires Reaches(CREATED, steps, s)
    ensures Kept(steps, s)
  {
    hide Reaches, Inv;
    CreatedInv();
    RunKept([], CREATED, steps, s);
    assert [] + steps == steps;
  }

  // Every start and every join is answered once, or is the one under way.
  lemma EachCallAnswered(steps: seq<Step>, s: Svc)
    requires Reaches(CREATED, steps, s)
    ensures |s.hist.startResults| + (if s.starter == NoStarter then 0 else 1) == StartCalls(steps)
    ensures |s.hist.joinResults| + (if s.joiner == NoJoiner then 0 else 1) == JoinCalls(steps)
  {
    hide Reaches;
    AllKeptSo(steps, s);
  }

  // A batch is full when 256 messages were handled since the callback began, and never more
  // are; one that ends before that found the mailbox empty or the service not running.
  lemma BatchIsFull(steps: seq<Step>, s: Svc)
    requires Reaches(CREATED, steps, s)
    ensures s.main == EndRound(true) || s.main == Resend ==> Handled(steps) == 256
    ensures s.main.Handling? ==> Handled(steps) < 256
    ensures forall step :: Enabled(s, step) && Apply(s, step).main == EndRound(false) && s.main != EndRound(false) ==>
      (s.main.Popping? && s.box.queue == []) || (s.main.Round? && s.life.state != RUNNING)
  {
    hide Reaches, Kept;
    AllKeptSo(steps, s);
    assert BatchInv(steps, s.main) by { assert Kept(steps, s); KeptBatch(steps, s); }
    forall step | Enabled(s, step) && Apply(s, step).main == EndRound(false) && s.main != EndRound(false)
      ensures (s.main.Popping? && s.box.queue == []) || (s.main.Round? && s.life.state != RUNNING)
    {
      EndsRound(s, step);
    }
  }

  lemma KeptBatch(past: seq<Step>, s: Svc)
    requires Kept(past, s)
    ensures BatchInv(past, s.main)
  {
  }

  // Whatever ends a round early
  predicate Early(s: Svc, p: MainPc) {
    p == EndRound(false) && s.main != EndRound(false) ==>
      (s.main.Popping? && s.box.queue == []) || (s.main.Round? && s.life.state != RUNNING)
  }

  lemma EndsRound(s: Svc, step: Step)
    requires Enabled(s, step)
    ensures Early(s, Apply(s, step).main)
  {
    hide Early, StartApply, BootApply, RoundApply, ShutApply, SendApply, StopApply, JoinApply;
    match step
    case Starting(x) => StartEndsNone(s, x);
    case Booting(x) => BootEndsNone(s, x);
    case Dispatching(x) => RoundEndsEarly(s, x);
    case Shutting(x) => ShutEndsNone(s, x);
    case Sending(x) => SendEndsNone(s, x);
    case Stopping(x) => StopEndsNone(s, x);
    case Joining(x) => JoinEndsNone(s, x);
  }

  lemma StartEndsNone(s: Svc, x: StartStep)
    requires StartEnabled(s, x)
    ensures Early(s, StartApply(s, x).main)
  {
  }

  lemma BootEndsNone(s: Svc, x: BootStep)
    requires BootEnabled(s, x)
    ensures Early(s, BootApply(s, x).main)
  {
  }

  lemma RoundEndsEarly(s: Svc, x: RoundStep)
    requires RoundEnabled(s, x)
    ensures Early(s, RoundApply(s, x).main)
  {
  }

  lemma ShutEndsNone(s: Svc, x: ShutStep)
    requires ShutEnabled(s, x)
    ensures Early(s, ShutApply(s, x).main)
  {
  }

  lemma SendEndsNone(s: Svc, x: SendStep)
    requires SendEnabled(s, x)
    ensures Early(s, SendApply(s, x).main)
  {
  }

  lemma StopEndsNone(s: Svc, x: StopStep)
    requires StopEnabled(s, x)
    ensures Early(s, StopApply(s, x).main)
  {
  }

  lemma JoinEndsNone(s: Svc, x: JoinStep)
    requires JoinEnabled(s, x)
    ensures Early(s, JoinApply(s, x).main)
  {
  }

  // The fate of a message says who took it out: the dispatcher of a service that came to run,
  // the drain of one that no message can reach any more, or the deletion of one that is freed.
  lemma FateTells(steps: seq<Step>, s: Svc, step: Step, i: nat)
    requires Reaches(CREATED, steps, s) && Enabled(s, step)
    requires |s.hist.fates| <= i < |Apply(s, step).hist.fates|
    ensures match Apply(s, step).hist.fates[i]
            case Dispatched => step == Dispatching(Pops) && s.hist.everRunning && !s.hist.drained
            case Drained => step == Shutting(MainDrains) && s.box.closed && !s.pool.routable && s.senders == map[]
            case Deleted => step == Joining(FreeDeletes) && s.life.state == FREED
  {
    hide Reaches;
    AllKept(steps, s);
    Taker(s, step, i);
    TakerMeans(s);
  }

  lemma Taker(s: Svc, step: Step, i: nat)
    requires Enabled(s, step) && |s.hist.fates| <= i < |Apply(s, step).hist.fates|
    ensures match Apply(s, step).hist.fates[i]
            case Dispatched => step == Dispatching(Pops)
            case Drained => step == Shutting(MainDrains)
            case Deleted => step == Joining(FreeDeletes)
  {
    hide StartApply, BootApply, RoundApply, ShutApply, SendApply, StopApply, JoinApply;
    match step
    case Starting(x) => StartTakesNone(s, x);
    case Booting(x) => BootTakesNone(s, x);
    case Dispatching(x) => RoundTaker(s, x, i);
    case Shutting(x) => ShutTaker(s, x, i);
    case Sending(x) => SendTakesNone(s, x);
    case Stopping(x) => StopTakesNone(s, x);
    case Joining(x) => JoinTaker(s, x, i);
  }

  lemma StartTakesNone(s: Svc, x: StartStep)
    requires StartEnabled(s, x)
    ensures StartApply(s, x).hist.fates == s.hist.fates
  {
  }

  lemma BootTakesNone(s: Svc, x: BootStep)
    requires BootEnabled(s, x)
    ensures BootApply(s, x).hist.fates == s.hist.fates
  {
  }

  lemma SendTakesNone(s: Svc, x: SendStep)
    requires SendEnabled(s, x)
    ensures SendApply(s, x).hist.fates == s.hist.fates
  {
  }

  lemma StopTakesNone(s: Svc, x: StopStep)
    requires StopEnabled(s, x)
    ensures StopApply(s, x).hist.fates == s.hist.fates
  {
  }

  lemma RoundTaker(s: Svc, x: RoundStep, i: nat)
    requires RoundEnabled(s, x) && |s.hist.fates| <= i < |RoundApply(s, x).hist.fates|
    ensures RoundApply(s, x).hist.fates[i] == Dispatched && x == Pops
  {
  }

  lemma ShutTaker(s: Svc, x: ShutStep, i: nat)
    requires ShutEnabled(s, x) && |s.hist.fates| <= i < |ShutApply(s, x).hist.fates|
    ensures ShutApply(s, x).hist.fates[i] == Drained && x == MainDrains
  {
  }

  lemma JoinTaker(s: Svc, x: JoinStep, i: nat)
    requires JoinEnabled(s, x) && |s.hist.fates| <= i < |JoinApply(s, x).hist.fates|
    ensures JoinApply(s, x).hist.fates[i] == Deleted && x == FreeDeletes
  {
  }

  lemma TakerMeans(s: Svc)
    requires Inv(s)
    ensures s.main.Popping? ==> s.hist.everRunning && (s.box.queue != [] ==> !s.hist.drained)
    ensures s.main.ShutDrain? ==> s.box.closed && !s.pool.routable && s.senders == map[]
    ensures s.joiner == FreeDelete ==> s.life.state == FREED
  {
    hide MessageInv, StartInv, WakeInv, AnswerInv, SignalInv;
  }

  // A service stopped while it is being set up does not run its Lua source.
  lemma {:induction false} StoppedIsNotLoaded(s: Svc, steps: seq<Step>, r: Svc)
    requires Inv(s) && Reaches(s, steps, r) && Unloaded(s)
    ensures Unloaded(r) && forall ok :: Booting(LuaInit(ok)) !in steps
    decreases |steps|
  {
    hide Inv, Enabled, Apply, Unloaded;
    if steps != [] {
      StepKeeps(s, steps[0]);
      StaysUnloaded(s, steps[0]);
      StoppedIsNotLoaded(Apply(s, steps[0]), steps[1..], r);
      assert steps == [steps[0]] + steps[1..];
    }
  }

  // A stop was requested before the thread got to check for one.
  predicate Unloaded(s: Svc) {
    s.life.stopRequested && s.main != InitLua
  }

  lemma StaysUnloaded(s: Svc, step: Step)
    requires Inv(s) && Enabled(s, step) && Unloaded(s)
    ensures Unloaded(Apply(s, step)) && !(step.Booting? && step.boot.LuaInit?)
  {
    hide Inv, StartApply, BootApply, RoundApply, ShutApply, SendApply, StopApply, JoinApply, Later;
    StepLater(s, step);
    LaterKeeps(s, Apply(s, step));
    match step
    case Starting(x) => NoInitStart(s, x);
    case Booting(x) => NoInitBoot(s, x);
    case Dispatching(x) => NoInitRound(s, x);
    case Shutting(x) => NoInitShut(s, x);
    case Sending(x) => NoInitSend(s, x);
    case Stopping(x) => NoInitStop(s, x);
    case Joining(x) => NoInitJoin(s, x);
  }

  lemma NoInitStart(s: Svc, x: StartStep)
    requires StartEnabled(s, x) && s.main != InitLua
    ensures StartApply(s, x).main != InitLua
  {
  }

  lemma NoInitBoot(s: Svc, x: BootStep)
    requires BootEnabled(s, x) && s.main != InitLua && s.life.stopRequested
    ensures BootApply(s, x).main != InitLua && !x.LuaInit?
  {
  }

  lemma NoInitRound(s: Svc, x: RoundStep)
    requires RoundEnabled(s, x)
    ensures RoundApply(s, x).main != InitLua
  {
  }

  lemma NoInitShut(s: Svc, x: ShutStep)
    requires ShutEnabled(s, x)
    ensures ShutApply(s, x).main != InitLua
  {
  }

  lemma NoInitSend(s: Svc, x: SendStep)
    requires SendEnabled(s, x)
    ensures SendApply(s, x).main == s.main
  {
  }

  lemma NoInitStop(s: Svc, x: StopStep)
    requires StopEnabled(s, x)
    ensures StopApply(s, x).main == s.main
  {
  }

  lemma NoInitJoin(s: Svc, x: JoinStep)
    requires JoinEnabled(s, x)
    ensures JoinApply(s, x).main == s.main
  {
  }

  // A service that stops itself, from a handler or because its dispatch failed, does nothing
  // else before that call of service_stop returns; and then the stop is requested, or had
  // been before.
  lemma OwnStopFirst(s: Svc, step: Step, sid: nat)
    requires Enabled(s, step)
    requires step == Dispatching(HandlerStops(sid)) || step == Dispatching(Resends(false, sid))
    ensures var r := Apply(s, step);
      && r.main == Quitting(sid) && sid in r.stoppers && r.stoppers[sid] == Retiring
      && forall x :: Enabled(r, x) ==> !x.Booting? && !x.Dispatching? && !x.Shutting?
  {
  }

  lemma QuitWaits(steps: seq<Step>, s: Svc, step: Step)
    requires Reaches(CREATED, steps, s) && s.main.Quitting? && Enabled(s, step)
    requires step.Booting? || step.Dispatching? || step.Shutting?
    ensures s.main.sid !in s.stoppers && Rank(s.life.state) >= 3
  {
    hide Reaches, PinInv, MessageInv, ThreadInv, StartInv, JoinInv, AnswerInv, SignalInv;
    AllKept(steps, s);
  }

  // What the locked region of service_stop decides: a service that was never started is
  // STOPPED at once, with the start error ECANCELED; one that is starting or runs is asked to
  // stop, by its control handle if that is open; any other is left as it is.
  lemma StopTakesEffect(steps: seq<Step>, s: Svc, sid: nat)
    requires Reaches(CREATED, steps, s) && Enabled(s, Stopping(StopDecides(sid)))
    ensures var r := Apply(s, Stopping(StopDecides(sid)));
      && Rank(r.life.state) >= 3 && !r.pool.routable
      && (Rank(s.life.state) <= 2 ==> r.life.stopRequested && sid in r.stoppers && r.stoppers[sid].Closing?)
      && (s.life.state == NEW ==> r.life.state == STOPPED && r.life.startDone && r.life.startError == ECANCELED)
      && (s.life.state == STARTING || s.life.state == RUNNING ==> (WillSignal(r.stoppers[sid]) <==> s.life.controlReady))
      && (Rank(s.life.state) >= 3 ==> r.life == s.life && r.stoppers == s.stoppers - {sid})
  {
    hide Reaches, PinInv, MessageInv, StartInv, JoinInv, AnswerInv, SignalInv, WakeInv;
    AllKept(steps, s);
    Doors.AllBarred(steps, s);
  }
}
