// What a stop, an ending and a notification can rely on: which doors are shut when, on every
// run of a service.
module Doors {
  import opened Service
  import opened ServiceSafety
  import opened ServiceRuns

  predicate CloseUnderWay(stoppers: map<nat, StopPc>) {
    exists k :: k in stoppers && stoppers[k].Closing?
  }

  // A service whose stop is requested was retired before.
  ghost predicate Barred(s: Svc) {
    && (s.life.stopRequested ==> !s.pool.routable)
    && (forall k :: k in s.stoppers && s.stoppers[k] != Retiring ==> !s.pool.routable)
  }

  // The mailbox is closed once a stop is requested, and once the service is STOPPED, unless
  // the call that does it is on its way to do so; and then the service is out of the pool.
  ghost predicate MailInv(
    open: bool, closed: bool, stopRequested: bool, state: State, starter: StartPc, stoppers: map<nat, StopPc>)
  {
    && (stopRequested && !closed ==> CloseUnderWay(stoppers))
    && (Rank(state) >= 4 && open ==> starter == FailRetire)
    && (Rank(state) >= 4 && !closed ==> starter == FailRetire || starter == FailClose || CloseUnderWay(stoppers))
  }

  // A thread that is gone has closed its handles, and nobody is about to use one that is not
  // open.
  ghost predicate HandleInv(uv: Uv, life: Life, main: MainPc, senders: map<nat, SendPc>) {
    && (main.Final? || main.Exited? ==> uv.closing)
    && (main.Exited? || main.Absent? || main.InitInbox? ==> !life.inboxReady)
    && (main.Exited? || main.Absent? || main.InitInbox? || main.InitControl? ==> !life.controlReady)
    && (forall t :: t in senders && senders[t].MustAsync? ==> life.inboxReady)
  }

  ghost predicate Mail(s: Svc) {
    MailInv(s.pool.routable, s.box.closed, s.life.stopRequested, s.life.state, s.starter, s.stoppers)
  }

  ghost predicate Handles(s: Svc) {
    HandleInv(s.uv, s.life, s.main, s.senders)
  }

  ghost predicate Shut(s: Svc) {
    Barred(s) && Mail(s) && Handles(s)
  }

  lemma BarredStays(s: Svc, step: Step)
    requires Barred(s) && Enabled(s, step)
    ensures Barred(Apply(s, step))
  {
    hide Barred, StartApply, BootApply, RoundApply, ShutApply, SendApply, StopApply, JoinApply;
    match step
    case Starting(x) => StartBars(s, x);
    case Booting(x) => BootBars(s, x);
    case Dispatching(x) => RoundBars(s, x);
    case Shutting(x) => ShutBars(s, x);
    case Sending(x) => SendBars(s, x);
    case Stopping(x) => StopBars(s, x);
    case Joining(x) => JoinBars(s, x);
  }

  lemma StartBars(s: Svc, x: StartStep)
    requires Barred(s) && StartEnabled(s, x)
    ensures Barred(StartApply(s, x))
  {
  }

  lemma BootBars(s: Svc, x: BootStep)
    requires Barred(s) && BootEnabled(s, x)
    ensures Barred(BootApply(s, x))
  {
  }

  lemma RoundBars(s: Svc, x: RoundStep)
    requires Barred(s) && RoundEnabled(s, x)
    ensures Barred(RoundApply(s, x))
  {
  }

  lemma ShutBars(s: Svc, x: ShutStep)
    requires Barred(s) && ShutEnabled(s, x)
    ensures Barred(ShutApply(s, x))
  {
  }

  lemma SendBars(s: Svc, x: SendStep)
    requires Barred(s) && SendEnabled(s, x)
    ensures Barred(SendApply(s, x))
  {
  }

  lemma StopBars(s: Svc, x: StopStep)
    requires Barred(s) && StopEnabled(s, x)
    ensures Barred(StopApply(s, x))
  {
  }

  lemma JoinBars(s: Svc, x: JoinStep)
    requires Barred(s) && JoinEnabled(s, x)
    ensures Barred(JoinApply(s, x))
  {
  }

  lemma StartMail(s: Svc, x: StartStep)
    requires Mail(s) && StartEnabled(s, x) && Handles(s) && Threads(s)
    ensures Mail(StartApply(s, x)) && Handles(StartApply(s, x))
  {
  }

  lemma BootMail(s: Svc, x: BootStep)
    requires Mail(s) && BootEnabled(s, x) && Handles(s)
    ensures Mail(BootApply(s, x)) && Handles(BootApply(s, x))
  {
    hide Mail, Handles;
    BootKeepsMail(s, x);
    BootKeepsHandles(s, x);
  }

  lemma BootKeepsMail(s: Svc, x: BootStep)
    requires Mail(s) && BootEnabled(s, x)
    ensures Mail(BootApply(s, x))
  {
    hide CloseUnderWay, BootApply;
    BootFrame(s, x);
  }

  lemma BootFrame(s: Svc, x: BootStep)
    requires BootEnabled(s, x)
    ensures var r := BootApply(s, x);
      && r.pool == s.pool && r.box == s.box && r.starter == s.starter && r.stoppers == s.stoppers
      && r.life.stopRequested == s.life.stopRequested
      && (r.life.state == s.life.state || Rank(r.life.state) < 4)
  {
  }

  lemma BootKeepsHandles(s: Svc, x: BootStep)
    requires Handles(s) && BootEnabled(s, x)
    ensures Handles(BootApply(s, x))
  {
  }

  // What a stopper that comes to another place leaves of the closing under way
  lemma StillCloses(stoppers: map<nat, StopPc>, sid: nat, p: StopPc)
    requires CloseUnderWay(stoppers) && (sid in stoppers ==> !stoppers[sid].Closing?)
    ensures CloseUnderWay(stoppers[sid := p]) && CloseUnderWay(stoppers - {sid})
  {
    var k :| k in stoppers && stoppers[k].Closing?;
    assert stoppers[sid := p][k].Closing? || k == sid;
    assert k != sid;
    assert stoppers[sid := p][k].Closing? && (stoppers - {sid})[k].Closing?;
  }

  lemma RoundMail(s: Svc, x: RoundStep)
    requires Mail(s) && RoundEnabled(s, x) && Handles(s)
    ensures Mail(RoundApply(s, x)) && Handles(RoundApply(s, x))
  {
    hide Mail, Handles;
    RoundKeepsMail(s, x);
    RoundKeepsHandles(s, x);
  }

  lemma RoundKeepsHandles(s: Svc, x: RoundStep)
    requires RoundEnabled(s, x) && Handles(s)
    ensures Handles(RoundApply(s, x))
  {
  }

  lemma RoundKeepsMail(s: Svc, x: RoundStep)
    requires Mail(s) && RoundEnabled(s, x)
    ensures Mail(RoundApply(s, x))
  {
    hide CloseUnderWay;
    if (x.HandlerStops? || x.Resends?) && CloseUnderWay(s.stoppers) {
      StillCloses(s.stoppers, x.sid, Retiring);
    }
  }

  lemma ShutMail(s: Svc, x: ShutStep)
    requires Mail(s) && ShutEnabled(s, x) && Handles(s) && Pins(s)
    ensures Mail(ShutApply(s, x)) && Handles(ShutApply(s, x))
  {
    hide Mail, Handles, Pins;
    ShutKeepsMail(s, x);
    ShutKeepsHandles(s, x);
  }

  lemma ShutKeepsMail(s: Svc, x: ShutStep)
    requires Mail(s) && ShutEnabled(s, x) && Pins(s)
    ensures Mail(ShutApply(s, x))
  {
    hide CloseUnderWay;
  }

  lemma ShutKeepsHandles(s: Svc, x: ShutStep)
    requires ShutEnabled(s, x) && Handles(s) && Pins(s)
    ensures Handles(ShutApply(s, x))
  {
  }

  lemma SendMail(s: Svc, x: SendStep)
    requires Mail(s) && SendEnabled(s, x) && Handles(s)
    ensures Mail(SendApply(s, x)) && Handles(SendApply(s, x))
  {
    hide CloseUnderWay;
    if x.Unpin? && CloseUnderWay(s.stoppers) {
      StillCloses(s.stoppers, x.sid, Retiring);
    }
  }

  lemma StopMail(s: Svc, x: StopStep)
    requires Mail(s) && Barred(s) && StopEnabled(s, x) && Handles(s)
    ensures Mail(StopApply(s, x)) && Handles(StopApply(s, x))
  {
    hide Mail, Handles, Barred;
    StopKeepsMail(s, x);
    StopKeepsHandles(s, x);
  }

  lemma StopKeepsHandles(s: Svc, x: StopStep)
    requires Handles(s) && StopEnabled(s, x)
    ensures Handles(StopApply(s, x))
  {
  }

  lemma StopKeepsMail(s: Svc, x: StopStep)
    requires Mail(s) && Barred(s) && StopEnabled(s, x)
    ensures Mail(StopApply(s, x))
  {
    hide CloseUnderWay;
    var r := StopApply(s, x);
    if CloseUnderWay(s.stoppers) && (x.StopBegin? || x.StopRetires? || x.StopDecides? || x.StopSignals?) {
      StillCloses(s.stoppers, x.sid, if x.sid in r.stoppers then r.stoppers[x.sid] else Retiring);
    }
    if x.StopDecides? && x.sid in r.stoppers {
      ClosesNow(r.stoppers, x.sid);
    }
  }

  lemma ClosesNow(stoppers: map<nat, StopPc>, sid: nat)
    requires sid in stoppers && stoppers[sid].Closing?
    ensures CloseUnderWay(stoppers)
  {
  }

  lemma JoinMail(s: Svc, x: JoinStep)
    requires Mail(s) && JoinEnabled(s, x) && Handles(s) && Joins(s)
    ensures Mail(JoinApply(s, x)) && Handles(JoinApply(s, x))
  {
    hide Mail, Handles, Joins;
    JoinKeepsMail(s, x);
    JoinKeepsHandles(s, x);
  }

  lemma JoinKeepsMail(s: Svc, x: JoinStep)
    requires Mail(s) && JoinEnabled(s, x) && Joins(s)
    ensures Mail(JoinApply(s, x))
  {
    hide CloseUnderWay;
  }

  lemma JoinKeepsHandles(s: Svc, x: JoinStep)
    requires JoinEnabled(s, x) && Handles(s)
    ensures Handles(JoinApply(s, x))
  {
  }

  lemma StepShuts(s: Svc, step: Step)
    requires Inv(s) && Shut(s) && Enabled(s, step)
    ensures Shut(Apply(s, step))
  {
    hide Barred, Mail, Handles, Pins, Messages, Answers, Threads, Starts, Joins, Wakeups, Signals;
    hide StartApply, BootApply, RoundApply, ShutApply, SendApply, StopApply, JoinApply;
    BarredStays(s, step);
    match step
    case Starting(x) => StartMail(s, x);
    case Booting(x) => BootMail(s, x);
    case Dispatching(x) => RoundMail(s, x);
    case Shutting(x) => ShutMail(s, x);
    case Sending(x) => SendMail(s, x);
    case Stopping(x) => StopMail(s, x);
    case Joining(x) => JoinMail(s, x);
  }

  lemma {:induction false} RunShuts(s: Svc, steps: seq<Step>, r: Svc)
    requires Inv(s) && Shut(s) && Reaches(s, steps, r)
    ensures Shut(r)
    decreases |steps|
  {
    hide Inv, Shut, Enabled, Apply;
    if steps != [] {
      StepKeeps(s, steps[0]);
      StepShuts(s, steps[0]);
      RunShuts(Apply(s, steps[0]), steps[1..], r);
    }
  }

  lemma AllShut(steps: seq<Step>, s: Svc)
    requires Reaches(CREATED, steps, s)
    ensures Shut(s)
  {
    hide Reaches, Inv;
    CreatedInv();
    RunShuts(CREATED, steps, s);
  }

  lemma AllBarred(steps: seq<Step>, s: Svc)
    requires Reaches(CREATED, steps, s)
    ensures Barred(s)
  {
    hide Reaches, Barred, Mail, Handles;
    AllShut(steps, s);
  }

  // Once the calls that requested a stop, or failed to start, have returned, the service is
  // out of the pool and its mailbox closed, so that every send is turned away; and so is any
  // service that is STOPPED.
  lemma StoppedIsShut(steps: seq<Step>, s: Svc)
    requires Reaches(CREATED, steps, s) && (s.life.stopRequested || Rank(s.life.state) >= 4)
    requires s.stoppers == map[] && s.starter != FailRetire && s.starter != FailClose
    ensures !s.pool.routable && s.box.closed
    ensures forall tid :: SendEnabled(s, Pin(tid)) ==>
      SendApply(s, Pin(tid)).senders == s.senders && s.hist.next in SendApply(s, Pin(tid)).hist.rejected
  {
    hide Reaches, Handles;
    AllShut(steps, s);
  }

  // A handle is notified only while it is open: initialised, and not closing.
  lemma NotifiesOpenHandles(steps: seq<Step>, s: Svc, tid: nat, ok: bool)
    requires Reaches(CREATED, steps, s) && Enabled(s, Sending(Async(tid, ok)))
    ensures s.life.inboxReady && !s.uv.closing && s.main != Absent && s.main != InitInbox && s.main != Exited
  {
    hide Reaches, Inv, Barred, Mail;
    AllShut(steps, s);
    PinnedIsSafe(steps, s, tid);
  }

  // When the thread is gone its handles are closed and marked so.
  lemma ExitedIsClosed(steps: seq<Step>, s: Svc)
    requires Reaches(CREATED, steps, s) && s.main == Exited
    ensures s.uv.closing && !s.life.inboxReady && !s.life.controlReady && s.box.closed && !s.pool.routable
  {
    hide Reaches, Barred, Mail;
    AllShut(steps, s);
    AllKept(steps, s);
    ExitedMeans(s);
  }

  lemma ExitedMeans(s: Svc)
    requires Inv(s) && s.main == Exited
    ensures s.box.closed && !s.pool.routable
  {
    hide MessageInv, ThreadInv, StartInv, JoinInv, WakeInv, AnswerInv, SignalInv;
  }
}
