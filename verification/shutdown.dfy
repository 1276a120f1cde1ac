// That a service which is stopping, or could not start, comes to its end, and a join of it to
// its own: what is under way can always go on, and each step of it takes something off a
// measure.
module Shutdown {
  import opened Service
  import opened ServiceSafety
  import opened ServiceRuns
  import opened Doors

  // Sums over maps

  ghost function Total(m: map<nat, nat>): nat
    decreases |m|
  {
    if m == map[] then 0
    else
      var k :| k in m;
      m[k] + Total(m - {k})
  }

  lemma {:induction false} TotalWithout(m: map<nat, nat>, k: nat)
    requires k in m
    ensures Total(m) == m[k] + Total(m - {k})
    decreases |m|
  {
    var x :| x in m && Total(m) == m[x] + Total(m - {x});
    if x != k {
      TotalWithout(m - {x}, k);
      TotalWithout(m - {k}, x);
      assert m - {x} - {k} == m - {k} - {x};
    }
  }

  lemma TotalAdds(m: map<nat, nat>, k: nat, w: nat)
    requires k !in m
    ensures Total(m[k := w]) == Total(m) + w
  {
    TotalWithout(m[k := w], k);
    assert m[k := w] - {k} == m;
  }

  lemma TotalChanges(m: map<nat, nat>, k: nat, w: nat)
    requires k in m
    ensures Total(m[k := w]) + m[k] == Total(m) + w
  {
    TotalWithout(m, k);
    TotalWithout(m[k := w], k);
    assert m[k := w] - {k} == m - {k};
  }

  // How far each part is from having nothing left to do

  function SendLeft(p: SendPc): nat {
    match p
    case Pinned(_) => 13
    case MustCheck(_) => 11
    case MustAsync(_) => 10
    case MustUnpin(_, _) => 6
  }

  function StopLeft(p: StopPc): nat {
    match p
    case Retiring => 5
    case Deciding => 4
    case Closing(_) => 3
    case Signalling => 2
  }

  function StartLeft(p: StartPc): nat {
    match p
    case NoStarter => 0
    case StartWait => 1
    case FailRetire => 2
    case FailClose => 1
  }

  function JoinLeft(p: JoinPc): nat {
    match p
    case NoJoiner => 0
    case JoinThread(_) => 7
    case JoinRecord => 6
    case FreeRetire => 5
    case FreeWait => 4
    case FreeTake => 3
    case FreeDelete => 2
    case JoinClear(_) => 1
  }

  // The service thread; a loop whose handles are closing only returns.
  function MainLeft(p: MainPc, closing: bool): nat {
    match p
    case Absent => 0
    case InitInbox => 25
    case InitControl => 24
    case CheckStop(_) => 23
    case InitLua => 22
    case Decide(_) => 21
    case Wake => 20
    case Loop => if closing then 9 else 16
    case CbCheck => 17
    case Quitting(_) => 17
    case Resend => 24
    case EndRound(_) => 25
    case Round(_) => 26
    case Handling(_) => 27
    case Popping(_) => 28
    case ControlCb => 15
    case ShutRetire(last) => if last then 7 else 14
    case ShutClose(last) => if last then 6 else 13
    case ShutWait(last) => if last then 5 else 12
    case ShutDrain(last) => if last then 4 else 11
    case CloseHandles => 10
    case Finish => 8
    case LuaStop => 3
    case FinalClose => 2
    case Final => 1
    case Exited => 0
  }

  ghost function SendWeights(senders: map<nat, SendPc>): map<nat, nat> {
    map t | t in senders :: SendLeft(senders[t])
  }

  ghost function SendsLeft(senders: map<nat, SendPc>): nat {
    Total(SendWeights(senders))
  }

  ghost function StopWeights(stoppers: map<nat, StopPc>): map<nat, nat> {
    map k | k in stoppers :: StopLeft(stoppers[k])
  }

  ghost function StopsLeft(stoppers: map<nat, StopPc>): nat {
    Total(StopWeights(stoppers))
  }

  function ThreadLeft(main: MainPc, uv: Uv): nat {
    MainLeft(main, uv.closing) + (if uv.inboxPending then 3 else 0) + (if uv.controlPending then 1 else 0)
  }

  ghost function OthersLeft(
    queued: nat, senders: map<nat, SendPc>, stoppers: map<nat, StopPc>, starter: StartPc, joiner: JoinPc): nat
  {
    queued + SendsLeft(senders) + StopsLeft(stoppers) + StartLeft(starter) + JoinLeft(joiner)
  }

  ghost function Left(s: Svc): nat {
    ThreadLeft(s.main, s.uv) + OthersLeft(|s.box.queue|, s.senders, s.stoppers, s.starter, s.joiner)
  }

  lemma SendChanges(senders: map<nat, SendPc>, t: nat, p: SendPc)
    requires t in senders
    ensures SendsLeft(senders[t := p]) + SendLeft(senders[t]) == SendsLeft(senders) + SendLeft(p)
  {
    assert SendWeights(senders[t := p]) == SendWeights(senders)[t := SendLeft(p)];
    TotalChanges(SendWeights(senders), t, SendLeft(p));
  }

  lemma SendLeaves(senders: map<nat, SendPc>, t: nat)
    requires t in senders
    ensures SendsLeft(senders - {t}) + SendLeft(senders[t]) == SendsLeft(senders)
  {
    assert SendWeights(senders - {t}) == SendWeights(senders) - {t};
    TotalWithout(SendWeights(senders), t);
  }

  lemma StopArrives(stoppers: map<nat, StopPc>, k: nat, p: StopPc)
    requires k !in stoppers
    ensures StopsLeft(stoppers[k := p]) == StopsLeft(stoppers) + StopLeft(p)
  {
    assert StopWeights(stoppers[k := p]) == StopWeights(stoppers)[k := StopLeft(p)];
    TotalAdds(StopWeights(stoppers), k, StopLeft(p));
  }

  lemma StopChanges(stoppers: map<nat, StopPc>, k: nat, p: StopPc)
    requires k in stoppers
    ensures StopsLeft(stoppers[k := p]) + StopLeft(stoppers[k]) == StopsLeft(stoppers) + StopLeft(p)
  {
    assert StopWeights(stoppers[k := p]) == StopWeights(stoppers)[k := StopLeft(p)];
    TotalChanges(StopWeights(stoppers), k, StopLeft(p));
  }

  lemma StopLeaves(stoppers: map<nat, StopPc>, k: nat)
    requires k in stoppers
    ensures StopsLeft(stoppers - {k}) + StopLeft(stoppers[k]) == StopsLeft(stoppers)
  {
    assert StopWeights(stoppers - {k}) == StopWeights(stoppers) - {k};
    TotalWithout(StopWeights(stoppers), k);
  }

  // STOPPING or later: the thread has seen or will see it, or there is none.
  ghost predicate Ending(s: Svc) {
    Inv(s) && Barred(s) && Rank(s.life.state) >= 3
  }

  lemma EndingMeans(s: Svc)
    requires Ending(s)
    ensures Rank(s.life.state) >= 3 && (s.main == ControlCb ==> s.life.stopRequested)
    ensures s.life.stopRequested ==> !s.pool.routable
  {
  }

  lemma StartShrinks(s: Svc, x: StartStep)
    requires StartEnabled(s, x) && Proceeds(Starting(x))
    ensures Left(StartApply(s, x)) < Left(s)
  {
    hide SendsLeft, StopsLeft, ThreadLeft;
  }

  lemma DecideShrinks(s: Svc, failed: bool)
    requires s.main == Decide(failed)
    ensures Left(ApplyDecide(s, failed)) < Left(s)
  {
    hide OthersLeft;
  }

  lemma BootShrinks(s: Svc, x: BootStep)
    requires BootEnabled(s, x)
    ensures Left(BootApply(s, x)) < Left(s)
  {
    hide OthersLeft, ApplyDecide;
    if x.Decides? {
      DecideShrinks(s, s.main.failed);
    }
  }

  // The dispatcher stops its own service.
  lemma QuitShrinks(s: Svc, x: RoundStep)
    requires RoundEnabled(s, x) && (x.HandlerStops? || x.Resends?)
    ensures Left(RoundApply(s, x)) < Left(s)
  {
    hide SendsLeft, StopsLeft;
    StopArrives(s.stoppers, x.sid, Retiring);
  }

  lemma PopShrinks(s: Svc, k: nat)
    requires s.main == Popping(k)
    ensures Left(ApplyPop(s, k)) < Left(s)
  {
    hide SendsLeft, StopsLeft;
  }

  lemma RoundShrinks(s: Svc, x: RoundStep)
    requires RoundEnabled(s, x) && Rank(s.life.state) >= 3
    ensures Left(RoundApply(s, x)) < Left(s)
  {
    hide OthersLeft, ApplyPop;
    if x.HandlerStops? || x.Resends? {
      QuitShrinks(s, x);
    } else if x.Pops? {
      PopShrinks(s, s.main.k);
    }
  }

  lemma DrainShrinks(s: Svc, last: bool)
    requires s.main == ShutDrain(last)
    ensures Left(ApplyDrain(s, last)) < Left(s)
  {
    hide SendsLeft, StopsLeft;
  }

  lemma PrepareShrinks(s: Svc, x: ShutStep)
    requires ShutEnabled(s, x) && (x.MainRetires? || x.MainCloses? || x.MainPinsGone?)
    ensures Left(ShutApply(s, x)) < Left(s)
  {
    hide OthersLeft, ApplyDrain;
  }

  lemma ShutShrinks(s: Svc, x: ShutStep)
    requires ShutEnabled(s, x) && (s.main == ControlCb ==> s.life.stopRequested)
    ensures Left(ShutApply(s, x)) < Left(s)
  {
    hide OthersLeft, ApplyDrain;
    if x.MainDrains? {
      DrainShrinks(s, s.main.last);
    } else if x.MainRetires? || x.MainCloses? || x.MainPinsGone? {
      PrepareShrinks(s, x);
    }
  }

  lemma SendShrinks(s: Svc, x: SendStep)
    requires SendEnabled(s, x) && !x.Pin?
    ensures Left(SendApply(s, x)) < Left(s)
  {
    hide SendsLeft, StopsLeft, MainLeft;
    var r := SendApply(s, x);
    match x
    case Unpin(tid, sid) =>
      SendLeaves(s.senders, tid);
      StopArrives(s.stoppers, sid, Retiring);
    case Push(tid, _) => SendChanges(s.senders, tid, r.senders[tid]);
    case ReadReady(tid) => SendChanges(s.senders, tid, r.senders[tid]);
    case Async(tid, _) => SendChanges(s.senders, tid, r.senders[tid]);
  }

  lemma StopShrinks(s: Svc, x: StopStep)
    requires StopEnabled(s, x) && !x.StopBegin?
    ensures Left(StopApply(s, x)) < Left(s)
  {
    hide SendsLeft, StopsLeft, MainLeft;
    var r := StopApply(s, x);
    if x.sid in r.stoppers {
      StopChanges(s.stoppers, x.sid, r.stoppers[x.sid]);
    } else {
      StopLeaves(s.stoppers, x.sid);
    }
  }

  lemma JoinShrinks(s: Svc, x: JoinStep)
    requires JoinEnabled(s, x) && !x.JoinBegin?
    ensures Left(JoinApply(s, x)) < Left(s)
  {
    hide SendsLeft, StopsLeft, ThreadLeft;
  }

  lemma StepShrinks(s: Svc, step: Step)
    requires Ending(s) && Enabled(s, step) && Proceeds(step)
    ensures Left(Apply(s, step)) < Left(s)
  {
    hide Left, ThreadLeft, OthersLeft, Ending, StartApply, BootApply, RoundApply, ShutApply, SendApply, StopApply, JoinApply;
    EndingMeans(s);
    match step
    case Starting(x) => StartShrinks(s, x);
    case Booting(x) => BootShrinks(s, x);
    case Dispatching(x) => RoundShrinks(s, x);
    case Shutting(x) => ShutShrinks(s, x);
    case Sending(x) => SendShrinks(s, x);
    case Stopping(x) => StopShrinks(s, x);
    case Joining(x) => JoinShrinks(s, x);
  }

  lemma EndingStays(s: Svc, step: Step)
    requires Ending(s) && Enabled(s, step)
    ensures Ending(Apply(s, step)) && (Apply(s, step).pool.routable ==> s.pool.routable)
  {
    hide Inv, Barred, Enabled, Apply;
    StepKeeps(s, step);
    StepLater(s, step);
    BarredStays(s, step);
  }

  // What comes from outside meanwhile: each stop and each join brings its own steps with it,
  // and so does a send as long as sends are let in; any other is turned away, a start refused.
  function Arrives(step: Step, open: bool): nat {
    match step
    case Sending(Pin(_)) => if open then 13 else 0
    case Stopping(StopBegin(_)) => 5
    case Joining(JoinBegin) => 7
    case _ => 0
  }

  function Arrivals(steps: seq<Step>, open: bool): nat {
    if steps == [] then 0 else Arrives(steps[0], open) + Arrivals(steps[1..], open)
  }

  // The steps of what is under way
  function Proceeding(steps: seq<Step>): nat {
    if steps == [] then 0 else (if Proceeds(steps[0]) then 1 else 0) + Proceeding(steps[1..])
  }

  // A pin taken too late is nothing: a retired service only turns it away.
  lemma LatePinIsNothing(s: Svc, tid: nat)
    requires SendEnabled(s, Pin(tid)) && !s.pool.routable
    ensures Left(SendApply(s, Pin(tid))) == Left(s)
  {
  }

  lemma PinAdds(s: Svc, tid: nat)
    requires SendEnabled(s, Pin(tid)) && s.pool.routable
    ensures Left(SendApply(s, Pin(tid))) == Left(s) + 13
  {
    hide StopsLeft, ThreadLeft;
    SendArrives(s.senders, tid, Pinned(s.hist.next));
  }

  lemma SendArrives(senders: map<nat, SendPc>, t: nat, p: SendPc)
    requires t !in senders
    ensures SendsLeft(senders[t := p]) == SendsLeft(senders) + SendLeft(p)
  {
    assert SendWeights(senders[t := p]) == SendWeights(senders)[t := SendLeft(p)];
    TotalAdds(SendWeights(senders), t, SendLeft(p));
  }

  lemma ArrivalAdds(s: Svc, step: Step)
    requires Ending(s) && Enabled(s, step) && !Proceeds(step)
    ensures Left(Apply(s, step)) <= Left(s) + Arrives(step, s.pool.routable)
  {
    hide Ending, Inv, SendsLeft, StopsLeft, MainLeft;
    EndingMeans(s);
    match step
    case Starting(_) =>
    case Sending(x) => if s.pool.routable { PinAdds(s, x.tid); } else { LatePinIsNothing(s, x.tid); }
    case Stopping(x) => StopArrives(s.stoppers, x.sid, Retiring);
    case Joining(_) =>
  }

  lemma {:induction false} RunShrinks(s: Svc, steps: seq<Step>, r: Svc, open: bool)
    requires Ending(s) && Reaches(s, steps, r) && (s.pool.routable ==> open)
    ensures Ending(r) && Proceeding(steps) + Left(r) <= Left(s) + Arrivals(steps, open)
    decreases |steps|
  {
    hide Ending, Enabled, Apply, Left, Proceeds, Arrives;
    if steps != [] {
      if Proceeds(steps[0]) {
        StepShrinks(s, steps[0]);
      } else {
        ArrivalAdds(s, steps[0]);
        ArrivesLess(steps[0], s.pool.routable, open);
      }
      EndingStays(s, steps[0]);
      RunShrinks(Apply(s, steps[0]), steps[1..], r, open);
    }
  }

  lemma ArrivesLess(step: Step, a: bool, b: bool)
    requires a ==> b
    ensures Arrives(step, a) <= Arrives(step, b)
  {
  }

  lemma {:induction false} RunsJoin(s: Svc, steps: seq<Step>, t: Svc, more: seq<Step>, r: Svc)
    requires Reaches(s, steps, t) && Reaches(t, more, r)
    ensures Reaches(s, steps + more, r)
    decreases |steps|
  {
    hide Enabled, Apply;
    if steps == [] {
      assert steps + more == more;
    } else {
      RunsJoin(Apply(s, steps[0]), steps[1..], t, more, r);
      assert (steps + more)[1..] == steps[1..] + more;
    }
  }

  // Nothing is left to do, but for new sends, stops, starts and joins.
  predicate Settled(s: Svc) {
    && (s.main == Exited || s.main == Absent) && s.senders == map[] && s.stoppers == map[]
    && s.starter == NoStarter && s.joiner == NoJoiner && Rank(s.life.state) >= 4
  }

  // Until then something under way can step: the thread,
  lemma ThreadGoesOn(steps: seq<Step>, s: Svc) returns (step: Step)
    requires Reaches(CREATED, steps, s) && Rank(s.life.state) >= 3 && s.main != Exited && s.main != Absent
    ensures Enabled(s, step) && Proceeds(step)
  {
    hide Reaches, Inv, Enabled, Proceeds;
    AllKept(steps, s);
    WhereAtEnd(s);
    if s.life.stopRequested {
      step := StopNeverStuck(steps, s);
    } else {
      var unused := FreshKey(s.stoppers.Keys);
      assert unused !in s.stoppers;
      if s.main.ShutWait? {
        PinCount(s);
        if s.pool.pins == 0 {
          step := WaitEnds(s);
        } else {
          var tid :| tid in s.senders;
          step := SenderProceeds(s, tid, unused);
        }
      } else {
        step := ThreadProceeds(s, unused);
      }
    }
  }

  lemma WhereAtEnd(s: Svc)
    requires Inv(s) && Rank(s.life.state) >= 3 && s.main != Exited && s.main != Absent
    ensures s.life.threadCreated && (!s.life.stopRequested ==> Span(s.main) >= 3)
  {
    hide PinInv, MessageInv, StartInv, JoinInv, WakeInv, AnswerInv;
  }

  // or, once the thread is gone or where there is none, whoever still sends, stops, starts or
  // joins.
  lemma OthersGoOn(s: Svc) returns (step: Step)
    requires Inv(s) && Rank(s.life.state) >= 3 && (s.main == Exited || s.main == Absent) && !Settled(s)
    ensures Enabled(s, step) && Proceeds(step)
  {
    hide PinInv, MessageInv, WakeInv, AnswerInv, SignalInv;
    var unused := FreshKey(s.stoppers.Keys);
    assert unused !in s.stoppers;
    PinCount(s);
    if tid :| tid in s.senders {
      step := SenderProceeds(s, tid, unused);
    } else if sid :| sid in s.stoppers {
      step := StopperProceeds(s, sid);
    } else {
      assert s.senders == map[] && s.stoppers == map[];
      NoPins(s);
      match s.starter
      case StartWait => step := Starting(StartReturns);
      case FailRetire => step := Starting(FailsRetire);
      case FailClose => step := Starting(FailsClose);
      case NoStarter => step := JoinerProceeds(s);
    }
  }

  lemma NoPins(s: Svc)
    requires Inv(s) && s.senders == map[]
    ensures s.pool.pins == 0
  {
    hide MessageInv, ThreadInv, StartInv, JoinInv, WakeInv, AnswerInv, SignalInv;
  }

  lemma JoinerProceeds(s: Svc) returns (step: Step)
    requires Threads(s) && Joins(s) && Rank(s.life.state) >= 3 && (s.main == Exited || s.main == Absent)
    requires s.starter == NoStarter && s.senders == map[] && s.stoppers == map[] && s.pool.pins == 0 && !Settled(s)
    ensures Enabled(s, step) && Proceeds(step)
  {
    match s.joiner
    case JoinThread(_) => step := Joining(PthreadJoin);
    case JoinRecord => step := Joining(JoinRecords);
    case FreeRetire => step := Joining(FreeRetires);
    case FreeWait => step := Joining(FreePinsGone);
    case FreeTake => step := Joining(FreeTakes);
    case FreeDelete => step := Joining(FreeDeletes);
    case JoinClear(_) => step := Joining(JoinClears);
  }

  lemma GoesOn(steps: seq<Step>, s: Svc) returns (step: Step)
    requires Reaches(CREATED, steps, s) && Rank(s.life.state) >= 3 && !Settled(s)
    ensures Enabled(s, step) && Proceeds(step)
  {
    hide Reaches, Inv, Enabled, Proceeds, Settled;
    if s.main != Exited && s.main != Absent {
      step := ThreadGoesOn(steps, s);
    } else {
      AllKept(steps, s);
      step := OthersGoOn(s);
    }
  }

  // What a join is answered

  // A join is over only when the service is deleted, and then it is answered 0.
  ghost predicate JoinTold(s: Svc) {
    && (s.box.deleted && s.joiner == NoJoiner ==> 0 in s.hist.joinResults)
    && (s.joiner != NoJoiner ==> 0 !in s.hist.joinResults)
  }

  lemma StepTells(s: Svc, step: Step)
    requires Joins(s) && JoinTold(s) && Enabled(s, step)
    ensures JoinTold(Apply(s, step)) && (s.joiner != NoJoiner ==> Apply(s, step).joiner != NoJoiner || Apply(s, step).box.deleted)
  {
    hide Joins, StartApply, BootApply, RoundApply, ShutApply, SendApply, StopApply, JoinApply;
    if step.Joining? {
      JoinTells(s, step.join);
    } else {
      StepUnjoined(s, step);
    }
  }

  lemma JoinTells(s: Svc, x: JoinStep)
    requires Joins(s) && JoinTold(s) && JoinEnabled(s, x)
    ensures var r := JoinApply(s, x); JoinTold(r) && (s.joiner != NoJoiner ==> r.joiner != NoJoiner || r.box.deleted)
  {
    var r := JoinApply(s, x);
    if |r.hist.joinResults| > |s.hist.joinResults| {
      assert r.hist.joinResults[|s.hist.joinResults|] in r.hist.joinResults;
    }
  }

  // Only the joiner has to do with joining.
  ghost predicate Unjoined(s: Svc, r: Svc) {
    r.joiner == s.joiner && r.box.deleted == s.box.deleted && r.hist.joinResults == s.hist.joinResults
  }

  lemma StartUnjoined(s: Svc, x: StartStep)
    requires StartEnabled(s, x)
    ensures Unjoined(s, StartApply(s, x))
  {
  }

  lemma BootUnjoined(s: Svc, x: BootStep)
    requires BootEnabled(s, x)
    ensures Unjoined(s, BootApply(s, x))
  {
  }

  lemma RoundUnjoined(s: Svc, x: RoundStep)
    requires RoundEnabled(s, x)
    ensures Unjoined(s, RoundApply(s, x))
  {
  }

  lemma ShutUnjoined(s: Svc, x: ShutStep)
    requires ShutEnabled(s, x)
    ensures Unjoined(s, ShutApply(s, x))
  {
  }

  lemma SendUnjoined(s: Svc, x: SendStep)
    requires SendEnabled(s, x)
    ensures Unjoined(s, SendApply(s, x))
  {
  }

  lemma StopUnjoined(s: Svc, x: StopStep)
    requires StopEnabled(s, x)
    ensures Unjoined(s, StopApply(s, x))
  {
  }

  lemma StepUnjoined(s: Svc, step: Step)
    requires Enabled(s, step) && !step.Joining?
    ensures Unjoined(s, Apply(s, step))
  {
    hide Unjoined, StartApply, BootApply, RoundApply, ShutApply, SendApply, StopApply, JoinApply;
    match step
    case Starting(x) => StartUnjoined(s, x);
    case Booting(x) => BootUnjoined(s, x);
    case Dispatching(x) => RoundUnjoined(s, x);
    case Shutting(x) => ShutUnjoined(s, x);
    case Sending(x) => SendUnjoined(s, x);
    case Stopping(x) => StopUnjoined(s, x);
  }

  lemma JoinPart(s: Svc)
    requires Inv(s)
    ensures Joins(s)
  {
    hide Joins;
  }

  lemma {:induction false} RunTells(s: Svc, steps: seq<Step>, r: Svc)
    requires Inv(s) && JoinTold(s) && Reaches(s, steps, r)
    ensures JoinTold(r) && (s.joiner != NoJoiner || s.box.deleted ==> r.joiner != NoJoiner || r.box.deleted)
    decreases |steps|
  {
    hide Inv, Joins, JoinTold, Enabled, Apply;
    if steps != [] {
      var t := Apply(s, steps[0]);
      StepKeeps(s, steps[0]);
      JoinPart(s);
      StepTells(s, steps[0]);
      if s.box.deleted {
        StaysDeleted(s, steps[0]);
      }
      RunTells(t, steps[1..], r);
    }
  }

  lemma StaysDeleted(s: Svc, step: Step)
    requires Joins(s) && Enabled(s, step) && s.box.deleted
    ensures Apply(s, step).box.deleted
  {
    hide StartApply, BootApply, RoundApply, ShutApply, SendApply, StopApply;
    if !step.Joining? {
      StepUnjoined(s, step);
    }
  }

  // What is answered at once: EINVAL exactly if the service was neither started nor stopped,
  // and 0 if an earlier join has freed it; any other join goes on to join and free.
  lemma JoinAnswers(steps: seq<Step>, s: Svc)
    requires Reaches(CREATED, steps, s) && JoinEnabled(s, JoinBegin)
    ensures var r := JoinApply(s, JoinBegin);
      && (s.life.state == NEW <==> r.hist.joinResults == s.hist.joinResults + [EINVAL])
      && (s.hist.frees == 1 <==> r.hist.joinResults == s.hist.joinResults + [0])
      && (r.joiner != NoJoiner <==> s.life.state != NEW && s.hist.frees == 0)
      && (r.joiner != NoJoiner ==> r.hist.joinResults == s.hist.joinResults)
    ensures s.life.state == NEW ==> !s.life.threadCreated
  {
    hide Reaches, PinInv, MessageInv, AnswerInv, WakeInv, SignalInv, StartInv;
    AllKept(steps, s);
    var told := s.hist.joinResults;
    assert |told| < |told + [0]| && (told + [0])[|told|] == 0 && (told + [EINVAL])[|told|] == EINVAL;
  }

  // Nothing else answers EINVAL to a join.
  lemma EinvalMeans(steps: seq<Step>, s: Svc, step: Step)
    requires Reaches(CREATED, steps, s) && Enabled(s, step)
    requires Apply(s, step).hist.joinResults == s.hist.joinResults + [EINVAL]
    ensures step == Joining(JoinBegin) && s.life.state == NEW && !s.life.threadCreated
  {
    hide Reaches, Inv, JoinTold;
    AllKept(steps, s);
    Parts(s);
    if step.Joining? {
      JoinsByEinval(s, step.join);
      JoinAnswers(steps, s);
    } else {
      StepUnjoined(s, step);
    }
  }

  lemma JoinsByEinval(s: Svc, x: JoinStep)
    requires Joins(s) && JoinEnabled(s, x) && JoinApply(s, x).hist.joinResults == s.hist.joinResults + [EINVAL]
    ensures x == JoinBegin
  {
    var r := JoinApply(s, x);
    assert r.hist.joinResults[|s.hist.joinResults|] == EINVAL;
  }

  // What is left in the end: no thread, nobody inside, every send turned away; and if a join
  // was under way the service is freed, once, and that join answered 0.
  ghost predicate EndsWell(s: Svc, r: Svc) {
    && Settled(r) && !r.pool.routable && r.box.closed && (r.main == Exited ==> r.uv.closing)
    && (s.joiner != NoJoiner ==>
          r.life.state == FREED && r.hist.frees == 1 && 0 !in s.hist.joinResults && 0 in r.hist.joinResults)
  }

  lemma SettledEndsWell(s: Svc, r: Svc)
    requires JoinTold(s) && Joins(r) && JoinTold(r) && Settled(r) && Shut(r)
    requires s.joiner != NoJoiner ==> r.joiner != NoJoiner || r.box.deleted
    ensures EndsWell(s, r)
  {
  }

  // Shutdown ends: from STOPPING on, however it came to that, and whatever else is sent,
  // started, stopped or joined meanwhile, what is under way takes at most Left steps more and
  // a fixed number for each further stop and join, and for each further send if sends are
  // still let in; and when none of its steps is possible the service has ended well.
  lemma ShutdownEnds(steps: seq<Step>, s: Svc, more: seq<Step>, r: Svc)
    requires Reaches(CREATED, steps, s) && Rank(s.life.state) >= 3
    requires Reaches(s, more, r)
    ensures Proceeding(more) + Left(r) <= Left(s) + Arrivals(more, s.pool.routable)
    ensures s.life.stopRequested ==> !s.pool.routable
    ensures (forall step :: Proceeds(step) ==> !Enabled(r, step)) ==> EndsWell(s, r)
  {
    hide Inv, Reaches, Left, Enabled, Proceeds, Later, Arrivals, Proceeding, Settled, JoinTold, EndsWell, Shut, Barred;
    AllKept(steps, s);
    AllBarred(steps, s);
    assert Ending(s);
    EndingMeans(s);
    RunShrinks(s, more, r, s.pool.routable);
    EndingMeans(r);
    RunsJoin(CREATED, steps, s, more, r);
    JoinsTold(steps, s, more, r);
    AllShut(steps + more, r);
    if !Settled(r) {
      var step := GoesOn(steps + more, r);
    } else {
      SettledEndsWell(s, r);
    }
  }

  lemma JoinsTold(steps: seq<Step>, s: Svc, more: seq<Step>, r: Svc)
    requires Reaches(CREATED, steps, s) && Reaches(s, more, r)
    ensures JoinTold(s) && Joins(r) && JoinTold(r)
    ensures s.joiner != NoJoiner ==> r.joiner != NoJoiner || r.box.deleted
  {
    hide Inv, Reaches, Later, Joins;
    AllKept(steps, s);
    CreatedInv();
    RunTells(CREATED, steps, s);
    RunKeeps(s, more, r);
    RunTells(s, more, r);
    Parts(r);
  }

  // And it can be left to itself: some run of what is under way, no longer than Left, ends
  // well.
  lemma {:induction false} ShutdownCompletes(steps: seq<Step>, s: Svc) returns (more: seq<Step>, r: Svc)
    requires Reaches(CREATED, steps, s) && Rank(s.life.state) >= 3
    ensures Reaches(s, more, r) && |more| <= Left(s) && (forall step :: step in more ==> Proceeds(step)) && EndsWell(s, r)
    decreases Left(s)
  {
    hide Inv, Reaches, Left, Enabled, Apply, Proceeds, Later, Settled, JoinTold, EndsWell, Shut, Barred;
    if Settled(s) {
      more, r := [], s;
      ReachesItself(s);
      AllShut(steps, s);
      JoinsTold(steps, s, more, r);
      SettledEndsWell(s, r);
    } else {
      var step := GoesOn(steps, s);
      AllKept(steps, s);
      AllBarred(steps, s);
      assert Ending(s);
      StepShrinks(s, step);
      EndingStays(s, step);
      var t := Apply(s, step);
      EndingMeans(t);
      ReachesOne(s, step);
      RunsJoin(CREATED, steps, s, [step], t);
      var rest, end := ShutdownCompletes(steps + [step], t);
      more, r := [step] + rest, end;
      RunsJoin(s, [step], t, rest, r);
      RunsJoin(CREATED, steps, s, more, r);
      AllShut(steps + more, r);
      JoinsTold(steps, s, more, r);
      EndedSettled(t, r);
      SettledEndsWell(s, r);
    }
  }

  lemma EndedSettled(t: Svc, r: Svc)
    requires EndsWell(t, r)
    ensures Settled(r)
  {
  }

  lemma ReachesItself(s: Svc)
    ensures Reaches(s, [], s)
  {
  }

  lemma ReachesOne(s: Svc, step: Step)
    requires Enabled(s, step)
    ensures Reaches(s, [step], Apply(s, step))
  {
    hide Enabled, Apply;
    assert [step][1..] == [];
    ReachesItself(Apply(s, step));
  }
}
