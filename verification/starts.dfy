// What service_start answers, and when a service comes to run: over every run, against the
// initialisations that were made in it.
module StartOutcomes {
  import opened Service
  import opened ServiceSafety
  import opened ServiceRuns

  predicate Has(past: seq<Step>, x: BootStep) {
    Booting(x) in past
  }

  // The loop, its handles and the Lua state were all set up.
  predicate Initialised(past: seq<Step>) {
    Has(past, InboxInit(true)) && Has(past, ControlInit(true)) && Has(past, LuaInit(true))
  }

  predicate InitFailed(past: seq<Step>) {
    Has(past, InboxInit(false)) || Has(past, ControlInit(false)) || Has(past, LuaInit(false))
  }

  predicate LuaTried(past: seq<Step>) {
    Has(past, LuaInit(true)) || Has(past, LuaInit(false))
  }

  // What has been set up when the thread is here
  ghost predicate BootInv(past: seq<Step>, main: MainPc, stopRequested: bool, everRunning: bool) {
    && (Span(main) == 0 || main == InitInbox ==>
          !InitFailed(past) && !Has(past, InboxInit(true)) && !Has(past, ControlInit(true)) && !LuaTried(past))
    && (main == InitControl ==> Has(past, InboxInit(true)) && !InitFailed(past) && !Has(past, ControlInit(true)) && !LuaTried(past))
    && (main == CheckStop(false) || main == InitLua ==>
          Has(past, InboxInit(true)) && Has(past, ControlInit(true)) && !InitFailed(past) && !LuaTried(past))
    && (main == CheckStop(true) ==> InitFailed(past) && !LuaTried(past))
    && (main == Decide(false) ==>
          && Has(past, InboxInit(true)) && Has(past, ControlInit(true)) && !InitFailed(past)
          && (Has(past, LuaInit(true)) || stopRequested))
    && (main == Decide(true) ==> InitFailed(past))
    && (everRunning ==> Initialised(past) && Span(main) >= 2)
    && (Initialised(past) ==> !InitFailed(past))
  }

  ghost predicate Booted(past: seq<Step>, s: Svc) {
    BootInv(past, s.main, s.life.stopRequested, s.hist.everRunning)
  }

  lemma HasMore(past: seq<Step>, step: Step, x: BootStep)
    ensures Has(past + [step], x) <==> Has(past, x) || step == Booting(x)
  {
  }

  // A step that is none of the thread's own before the decision
  lemma OtherBooted(past: seq<Step>, s: Svc, step: Step, r: Svc)
    requires Booted(past, s) && !step.Booting? && r.hist.everRunning == s.hist.everRunning
    requires s.life.stopRequested ==> r.life.stopRequested
    requires r.main == s.main || (Span(s.main) >= 2 && Span(r.main) >= 2) || (s.main == Absent && r.main == InitInbox)
    ensures Booted(past + [step], r)
  {
    assert forall x :: Has(past + [step], x) <==> Has(past, x);
  }

  // A step that has nothing to do with starting; a stop before any start answers for itself.
  ghost predicate Aside(s: Svc, r: Svc) {
    && r.starter == s.starter && r.hist.startResults == s.hist.startResults && r.hist.everRunning == s.hist.everRunning
    && Onward(s.main, r.main)
    && r.life.threadCreated == s.life.threadCreated
    && SameVerdict(s.life, r.life)
  }

  predicate Onward(p: MainPc, q: MainPc) {
    q == p || (Span(p) >= 2 && Span(q) >= 2 && (Span(p) >= 3 ==> Span(q) >= 3))
  }

  ghost predicate SameVerdict(was: Life, now: Life) {
    && (was.startDone || now.threadCreated ==> now.startDone == was.startDone && now.startError == was.startError)
    && (Rank(now.state) >= 4 && Rank(was.state) < 4 && !was.startDone ==> now.startDone && now.startError == ECANCELED)
  }

  lemma RoundAside(s: Svc, x: RoundStep)
    requires RoundEnabled(s, x)
    ensures Aside(s, RoundApply(s, x))
  {
  }

  lemma ShutAside(s: Svc, x: ShutStep)
    requires Threads(s) && ShutEnabled(s, x)
    ensures Aside(s, ShutApply(s, x))
  {
    hide Onward, SameVerdict, Threads;
    ShutOnward(s, x);
    ShutVerdict(s, x);
  }

  lemma ShutOnward(s: Svc, x: ShutStep)
    requires ShutEnabled(s, x)
    ensures Onward(s.main, ShutApply(s, x).main)
  {
  }

  lemma ShutVerdict(s: Svc, x: ShutStep)
    requires Threads(s) && ShutEnabled(s, x)
    ensures SameVerdict(s.life, ShutApply(s, x).life)
  {
    hide Threads;
    if x.Finishes? {
      FinalIsDecided(s);
    }
  }

  lemma FinalIsDecided(s: Svc)
    requires Threads(s) && s.main == Final
    ensures s.life.startDone
  {
  }

  lemma SendAside(s: Svc, x: SendStep)
    requires SendEnabled(s, x)
    ensures Aside(s, SendApply(s, x))
  {
  }

  lemma StopAside(s: Svc, x: StopStep)
    requires Threads(s) && StopEnabled(s, x)
    ensures Aside(s, StopApply(s, x))
  {
  }

  lemma JoinAside(s: Svc, x: JoinStep)
    requires Joins(s) && JoinEnabled(s, x)
    ensures Aside(s, JoinApply(s, x))
  {
  }

  lemma StepAside(s: Svc, step: Step)
    requires Threads(s) && Joins(s) && Enabled(s, step) && !step.Booting? && !step.Starting?
    ensures Aside(s, Apply(s, step))
  {
    hide Threads, Joins, Aside, BootApply, StartApply, RoundApply, ShutApply, SendApply, StopApply, JoinApply;
    match step
    case Dispatching(x) => RoundAside(s, x);
    case Shutting(x) => ShutAside(s, x);
    case Sending(x) => SendAside(s, x);
    case Stopping(x) => StopAside(s, x);
    case Joining(x) => JoinAside(s, x);
  }

  lemma StartMoves(s: Svc, x: StartStep)
    requires Threads(s) && StartEnabled(s, x)
    ensures var r := StartApply(s, x);
      r.hist.everRunning == s.hist.everRunning && (r.main == s.main || (s.main == Absent && r.main == InitInbox))
  {
  }

  lemma OtherMain(s: Svc, step: Step)
    requires Threads(s) && Joins(s) && Enabled(s, step) && !step.Booting?
    ensures var r := Apply(s, step);
      && r.hist.everRunning == s.hist.everRunning
      && (r.main == s.main || (Span(s.main) >= 2 && Span(r.main) >= 2) || (s.main == Absent && r.main == InitInbox))
  {
    hide Threads, Joins, BootApply, StartApply, RoundApply, ShutApply, SendApply, StopApply, JoinApply;
    if step.Starting? {
      StartMoves(s, step.start);
    } else {
      StepAside(s, step);
    }
  }

  lemma BootBooted(past: seq<Step>, s: Svc, x: BootStep)
    requires Booted(past, s) && BootEnabled(s, x)
    ensures Booted(past + [Booting(x)], BootApply(s, x))
  {
    hide Has;
    forall y ensures Has(past + [Booting(x)], y) <==> Has(past, y) || x == y {
      HasMore(past, Booting(x), y);
    }
  }

  lemma StepBooted(past: seq<Step>, s: Svc, step: Step)
    requires Inv(s) && Booted(past, s) && Enabled(s, step)
    ensures Booted(past + [step], Apply(s, step))
  {
    hide Inv, Booted, BootApply, StartApply, RoundApply, ShutApply, SendApply, StopApply, JoinApply, Later;
    Parts(s);
    if step.Booting? {
      BootBooted(past, s, step.boot);
    } else {
      OtherMain(s, step);
      StepLater(s, step);
      LaterKeeps(s, Apply(s, step));
      OtherBooted(past, s, step, Apply(s, step));
    }
  }

  // What a start is answered

  // The start error, once the start is over
  ghost predicate Verdict(past: seq<Step>, main: MainPc, life: Life, everRunning: bool) {
    && (life.startDone && life.threadCreated ==>
          || (life.startError == 0 && everRunning)
          || (life.startError == ECANCELED && !everRunning && Span(main) >= 3 && life.stopRequested && !InitFailed(past))
          || (life.startError == 1 && !everRunning && Span(main) >= 3 && InitFailed(past)))
    && (!life.threadCreated ==> !everRunning)
    && (Rank(life.state) >= 4 ==> life.startDone && (life.startError == 0 <==> everRunning))
  }

  ghost predicate Judged(past: seq<Step>, s: Svc) {
    && Verdict(past, s.main, s.life, s.hist.everRunning)
    && (s.starter == FailRetire || s.starter == FailClose ==> CreateFailed(past, s.life))
    && (forall e :: e in s.hist.startResults ==>
          e == EALREADY || (s.life.startDone && e == s.life.startError && (s.life.threadCreated || CreateFailed(past, s.life))))
  }

  // pthread_create failed, with the start error.
  ghost predicate CreateFailed(past: seq<Step>, life: Life) {
    && life.startDone && !life.threadCreated && life.startError > 0 && Rank(life.state) >= 4
    && Starting(StartBegin(false, life.startError)) in past
  }

  lemma FailedMore(past: seq<Step>, step: Step)
    ensures InitFailed(past + [step]) <==>
      InitFailed(past) || step == Booting(InboxInit(false)) || step == Booting(ControlInit(false)) || step == Booting(LuaInit(false))
  {
    HasMore(past, step, InboxInit(false));
    HasMore(past, step, ControlInit(false));
    HasMore(past, step, LuaInit(false));
  }

  lemma StartJudged(past: seq<Step>, s: Svc, x: StartStep)
    requires Threads(s) && Starts(s) && Judged(past, s) && StartEnabled(s, x)
    ensures Judged(past + [Starting(x)], StartApply(s, x))
  {
    hide InitFailed;
    FailedMore(past, Starting(x));
  }

  lemma BootJudged(past: seq<Step>, s: Svc, x: BootStep)
    requires Threads(s) && Starts(s) && Booted(past, s) && Judged(past, s) && BootEnabled(s, x)
    ensures Judged(past + [Booting(x)], BootApply(s, x))
  {
    hide InitFailed, Initialised;
    FailedMore(past, Booting(x));
  }

  lemma RestJudged(past: seq<Step>, s: Svc, step: Step, r: Svc)
    requires Judged(past, s) && !step.Booting? && !step.Starting? && Aside(s, r)
    requires (s.life.stopRequested ==> r.life.stopRequested) && Rank(s.life.state) <= Rank(r.life.state)
    requires Threads(r) && Starts(r)
    ensures Judged(past + [step], r)
  {
    hide InitFailed;
    FailedMore(past, step);
  }

  lemma StepJudged(past: seq<Step>, s: Svc, step: Step)
    requires Inv(s) && Booted(past, s) && Judged(past, s) && Enabled(s, step)
    ensures Judged(past + [step], Apply(s, step))
  {
    hide Inv, Booted, Judged, Threads, Joins, Aside, BootApply, StartApply, RoundApply, ShutApply, SendApply, StopApply, JoinApply, Later;
    Parts(s);
    if step.Booting? {
      BootJudged(past, s, step.boot);
    } else if step.Starting? {
      StartJudged(past, s, step.start);
    } else {
      StepAside(s, step);
      StepLater(s, step);
      LaterKeeps(s, Apply(s, step));
      StepKeeps(s, step);
      Parts(Apply(s, step));
      RestJudged(past, s, step, Apply(s, step));
    }
  }

  lemma {:induction false} RunJudged(past: seq<Step>, s: Svc, steps: seq<Step>, r: Svc)
    requires Inv(s) && Booted(past, s) && Judged(past, s) && Reaches(s, steps, r)
    ensures Booted(past + steps, r) && Judged(past + steps, r)
    decreases |steps|
  {
    hide Inv, Booted, Judged, Enabled, Apply;
    if steps == [] {
      assert past + steps == past;
    } else {
      StepKeeps(s, steps[0]);
      StepBooted(past, s, steps[0]);
      StepJudged(past, s, steps[0]);
      RunJudged(past + [steps[0]], Apply(s, steps[0]), steps[1..], r);
      assert past + steps == past + [steps[0]] + steps[1..];
    }
  }

  lemma CreatedJudged()
    ensures Inv(CREATED) && Booted([], CREATED) && Judged([], CREATED)
  {
    CreatedInv();
  }

  lemma AnyJudged(steps: seq<Step>, s: Svc)
    requires Reaches(CREATED, steps, s)
    ensures Inv(s) && Booted(steps, s) && Judged(steps, s)
  {
    hide Reaches, Inv, Booted, Judged;
    CreatedJudged();
    RunJudged([], CREATED, steps, s);
    AllKept(steps, s);
    assert [] + steps == steps;
  }

  // What start answers on any run: EALREADY, or the one answer of the start that got
  // through. That is 0 exactly if the service came to run, which needs the loop, its
  // handles and the Lua source all set up; otherwise something failed, or a stop came first.
  lemma StartAnswers(steps: seq<Step>, s: Svc)
    requires Reaches(CREATED, steps, s)
    ensures s.hist.everRunning ==> Initialised(steps) && !InitFailed(steps)
    ensures forall e, f :: e in s.hist.startResults && f in s.hist.startResults && e != EALREADY && f != EALREADY ==> e == f
    ensures Rank(s.life.state) >= 4 ==> s.life.startDone && (s.life.startError == 0 <==> s.hist.everRunning)
    ensures forall e :: e in s.hist.startResults && e != EALREADY ==>
      && (e == 0 <==> s.hist.everRunning)
      && (e != 0 ==>
            || (e == ECANCELED && s.life.stopRequested && !InitFailed(steps))
            || (e == 1 && InitFailed(steps))
            || Starting(StartBegin(false, e)) in steps)
  {
    hide Reaches, Inv, InitFailed, Initialised;
    AnyJudged(steps, s);
    FailedIsNot(steps, s);
  }

  lemma FailedIsNot(past: seq<Step>, s: Svc)
    requires Booted(past, s)
    ensures s.hist.everRunning ==> Initialised(past) && !InitFailed(past)
  {
  }

  // And it does come to run if all that is set up and no stop was requested until the
  // thread decides.
  lemma RunsIfInitialised(before: seq<Step>, s: Svc, after: seq<Step>, r: Svc)
    requires Reaches(CREATED, before, s) && Enabled(s, Booting(Decides)) && Reaches(Apply(s, Booting(Decides)), after, r)
    ensures r.hist.everRunning <==> Initialised(before) && !s.life.stopRequested
  {
    hide Reaches, Inv, InitFailed, Initialised, Apply;
    AnyJudged(before, s);
    Parts(s);
    StepKeeps(s, Booting(Decides));
    Decision(before, s);
    StaysDecided(Apply(s, Booting(Decides)), after, r);
  }

  lemma Decision(past: seq<Step>, s: Svc)
    requires Booted(past, s) && Threads(s) && s.main.Decide?
    ensures var r := Apply(s, Booting(Decides));
      Span(r.main) >= 2 && (r.hist.everRunning <==> Initialised(past) && !s.life.stopRequested)
  {
  }

  lemma {:induction false} StaysDecided(s: Svc, steps: seq<Step>, r: Svc)
    requires Inv(s) && Reaches(s, steps, r) && Span(s.main) >= 2
    ensures r.hist.everRunning == s.hist.everRunning
    decreases |steps|
  {
    hide Inv, Enabled, Apply;
    if steps != [] {
      StepKeeps(s, steps[0]);
      StepDecided(s, steps[0]);
      StaysDecided(Apply(s, steps[0]), steps[1..], r);
    }
  }

  lemma StepDecided(s: Svc, step: Step)
    requires Inv(s) && Enabled(s, step) && Span(s.main) >= 2
    ensures Span(Apply(s, step).main) >= 2 && Apply(s, step).hist.everRunning == s.hist.everRunning
  {
    hide Inv, Threads, Joins, StartApply, RoundApply, ShutApply, SendApply, StopApply, JoinApply;
    Parts(s);
    if !step.Booting? {
      OtherMain(s, step);
    }
  }

  // A start under way is answered: by the steps of its own thread, whatever their outcome.

  function BootLeft(p: MainPc): nat {
    match p
    case InitInbox => 5
    case InitControl => 4
    case CheckStop(_) => 3
    case InitLua => 2
    case Decide(_) => 1
    case _ => 0
  }

  lemma StartIsAnswered(steps: seq<Step>, s: Svc)
    requires Reaches(CREATED, steps, s) && s.starter == StartWait
    ensures s.life.startDone ==> Enabled(s, Starting(StartReturns))
    ensures !s.life.startDone ==> 0 < BootLeft(s.main) <= 5 && exists x :: BootEnabled(s, x)
    ensures forall step :: Enabled(s, step) ==>
      var r := Apply(s, step);
      if step.Booting? then BootLeft(r.main) < BootLeft(s.main) || s.life.startDone
      else BootLeft(r.main) == BootLeft(s.main)
    ensures Enabled(s, Starting(StartReturns)) ==>
      Apply(s, Starting(StartReturns)).hist.startResults == s.hist.startResults + [s.life.startError]
  {
    hide Reaches, Inv, Enabled, Apply;
    AllKept(steps, s);
    AnswerUnderWay(s);
    forall step | Enabled(s, step)
      ensures var r := Apply(s, step);
        if step.Booting? then BootLeft(r.main) < BootLeft(s.main) || s.life.startDone
        else BootLeft(r.main) == BootLeft(s.main)
    {
      BootStep(s, step);
    }
  }

  lemma AnswerUnderWay(s: Svc)
    requires Inv(s) && s.starter == StartWait
    ensures s.life.threadCreated && s.main != Absent
    ensures s.life.startDone ==> Enabled(s, Starting(StartReturns))
    ensures Enabled(s, Starting(StartReturns)) ==>
      Apply(s, Starting(StartReturns)).hist.startResults == s.hist.startResults + [s.life.startError]
    ensures !s.life.startDone ==> 0 < BootLeft(s.main) <= 5 && exists x :: BootEnabled(s, x)
  {
    hide PinInv, MessageInv, JoinInv, WakeInv, AnswerInv, SignalInv;
    match s.main
    case InitInbox => assert BootEnabled(s, InboxInit(true));
    case InitControl => assert BootEnabled(s, ControlInit(true));
    case CheckStop(_) => assert BootEnabled(s, StopCheck);
    case InitLua => assert BootEnabled(s, LuaInit(true));
    case Decide(_) => assert BootEnabled(s, Decides);
    case _ =>
  }

  lemma BootStep(s: Svc, step: Step)
    requires Inv(s) && Enabled(s, step) && s.main != Absent
    ensures var r := Apply(s, step);
      if step.Booting? then BootLeft(r.main) < BootLeft(s.main) || s.life.startDone else BootLeft(r.main) == BootLeft(s.main)
  {
    hide Inv, BootApply, StartApply, RoundApply, ShutApply, SendApply, StopApply, JoinApply;
    Parts(s);
    if step.Booting? {
      BootShortens(s, step.boot);
    } else {
      OtherMain(s, step);
    }
  }

  lemma BootShortens(s: Svc, x: BootStep)
    requires Threads(s) && BootEnabled(s, x)
    ensures BootLeft(BootApply(s, x).main) < BootLeft(s.main) || s.life.startDone
  {
  }

  // Any other start is refused and changes nothing else.
  lemma SecondStart(s: Svc)
    requires StartEnabled(s, StartRefused)
    ensures s.life.state != NEW && !StartEnabled(s, StartBegin(true, 0))
    ensures StartApply(s, StartRefused) == s.(hist := s.hist.(startResults := s.hist.startResults + [EALREADY]))
  {
  }
}
