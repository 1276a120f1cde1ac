// The payloads of the messages sent to one service: who has to free each of them, and
// that somebody does, once.
module Payloads {
  import S = Service
  import opened ServiceSafety
  import ServiceRuns

  datatype Kind = SYSTEM | REQUEST | RESPONSE | ERROR | SIGNAL

  // What the dispatch loop goes by, and whether there is a payload at all
  datatype Mail = Mail(kind: Kind, session: nat, payload: bool)

  // What the service thread has popped and not disposed of: still in the loop, passed to
  // the coroutine of a request, to a caller it resumes, to one that will not take it, to the
  // bootstrap command, to service.remove, or in service_drain_mailbox
  datatype Hand =
    | Empty
    | Received(m: nat)
    | InHandler(m: nat)
    | InCaller(m: nat)
    | InStray(m: nat)
    | InSystem(m: nat)
    | Unwanted(m: nat)
    | Draining(m: nat)

  // mails    the messages by the numbers of their sends
  // refused  the sends answered with an error whose payload _send_message is about to free
  // freed    the payloads freed, in order, by the same numbers
  // leaked   those nobody will free any more
  datatype Sys = Sys(svc: S.Svc, mails: seq<Mail>, hand: Hand, refused: set<nat>, freed: seq<nat>, leaked: seq<nat>)

  // What the table of pending calls has for the session of a reply: nothing; a coroutine
  // that takes the reply; or, after the yield of a call has raised, one that is over or
  // waits for something else and does not
  datatype Entered = Nobody | Caller | Stray

  datatype Step =
    | Runs(step: S.Step, mail: Mail)
    | Dispatches(entered: Entered)
    | Unpacks
    | Removes
    | Forgets
    | Disposes
    | DisposesRefused(m: nat)

  const CREATED := Sys(S.CREATED, [], Empty, {}, [], [])

  predicate OnThread(step: S.Step) {
    step.Booting? || step.Dispatching? || step.Shutting?
  }

  // The service thread does nothing else before it is done with the payload.
  predicate Enabled(s: Sys, step: Step) {
    match step
    case Runs(x, _) => S.Enabled(s.svc, x) && (OnThread(x) ==> s.hand.Empty?)
    case Dispatches(_) => s.hand.Received? && s.hand.m < |s.mails|
    case Unpacks => s.hand.InHandler? || s.hand.InCaller? || s.hand.InSystem?
    case Removes => s.hand.Unwanted?
    case Forgets => s.hand.InStray?
    case Disposes => s.hand.Draining?
    case DisposesRefused(m) => m in s.refused
  }

  // The branches of the dispatch loop
  function Branch(m: nat, mail: Mail, entered: Entered): Hand {
    if mail.kind == REQUEST then InHandler(m)
    else if (mail.kind == RESPONSE || mail.kind == ERROR) && mail.session > 0 then
      match entered
      case Nobody => Unwanted(m)
      case Caller => InCaller(m)
      case Stray => InStray(m)
    else if mail.kind == SYSTEM then InSystem(m)
    else Unwanted(m)
  }

  // The payload of m is freed if it has one. Unpacking frees it even when it raises.
  function Freed(s: Sys, m: nat): Sys {
    if m < |s.mails| && s.mails[m].payload then s.(freed := s.freed + [m]) else s
  }

  // Passed to a coroutine that does not take it
  function Leaked(s: Sys, m: nat): Sys {
    if m < |s.mails| && s.mails[m].payload then s.(leaked := s.leaked + [m]) else s
  }

  function PayloadsOf(mails: seq<Mail>, queue: seq<nat>): (r: seq<nat>) {
    if queue == [] then []
    else
      var rest := PayloadsOf(mails, queue[..|queue| - 1]);
      var m := queue[|queue| - 1];
      if m < |mails| && mails[m].payload then rest + [m] else rest
  }

  // What a step of the service does to payloads
  function HandAfter(s: Sys, step: S.Step): Hand {
    if s.svc.box.queue == [] then s.hand
    else if step == S.Dispatching(S.Pops) then Received(s.svc.box.queue[0])
    else if step == S.Shutting(S.MainDrains) then Draining(s.svc.box.queue[0])
    else s.hand
  }

  function RefusedAfter(s: Sys, step: S.Step): set<nat>
    requires S.Enabled(s.svc, step)
  {
    match step
    case Sending(Pin(_)) => if s.svc.pool.routable then s.refused else s.refused + {s.svc.hist.next}
    case Sending(Unpin(tid, _)) =>
      if s.svc.senders[tid].m in s.svc.hist.rejected then s.refused + {s.svc.senders[tid].m} else s.refused
    case _ => s.refused
  }

  function Apply(s: Sys, step: Step): Sys
    requires Enabled(s, step)
  {
    match step
    case Runs(x, mail) =>
      Sys(S.Apply(s.svc, x),
          if x.Sending? && x.send.Pin? then s.mails + [mail] else s.mails,
          HandAfter(s, x), RefusedAfter(s, x),
          if x == S.Joining(S.FreeDeletes) then s.freed + PayloadsOf(s.mails, s.svc.box.queue) else s.freed, s.leaked)
    case Dispatches(entered) => s.(hand := Branch(s.hand.m, s.mails[s.hand.m], entered))
    case Unpacks => Freed(s, s.hand.m).(hand := Empty)
    case Removes => Freed(s, s.hand.m).(hand := Empty)
    case Forgets => Leaked(s, s.hand.m).(hand := Empty)
    case Disposes => Freed(s, s.hand.m).(hand := Empty)
    case DisposesRefused(m) => Freed(s, m).(refused := s.refused - {m})
  }

  // Taken out of the mailbox
  ghost predicate Taken(accepted: seq<nat>, fates: seq<S.Fate>, m: nat) {
    exists i :: 0 <= i < |accepted| && i < |fates| && accepted[i] == m
  }

  predicate Carried(senders: map<nat, S.SendPc>, m: nat) {
    exists t :: t in senders && senders[t].m == m
  }

  predicate Holds(hand: Hand, m: nat) {
    !hand.Empty? && hand.m == m
  }

  // Nobody is left to free it.
  ghost predicate Spent(
    hand: Hand, refused: set<nat>, senders: map<nat, S.SendPc>, accepted: seq<nat>, fates: seq<S.Fate>, rejected: set<nat>, m: nat)
  {
    || (Taken(accepted, fates, m) && !Holds(hand, m))
    || (m in rejected && m !in refused && !Carried(senders, m))
  }

  ghost predicate HandInv(hand: Hand, main: S.MainPc, accepted: seq<nat>, fates: seq<S.Fate>) {
    !hand.Empty? ==>
      && 0 < |fates| <= |accepted| && hand.m == accepted[|fates| - 1]
      && (if hand.Draining? then main.ShutDrain? else main.Handling?)
  }

  ghost predicate RefusedInv(refused: set<nat>, senders: map<nat, S.SendPc>, rejected: set<nat>) {
    forall m :: m in refused ==> m in rejected && !Carried(senders, m)
  }

  // Freed or leaked once, and exactly when spent
  ghost predicate FreedInv(
    mails: seq<Mail>, freed: seq<nat>, leaked: seq<nat>, hand: Hand, refused: set<nat>, senders: map<nat, S.SendPc>, accepted: seq<nat>,
    fates: seq<S.Fate>, rejected: set<nat>)
  {
    && Distinct(freed) && Distinct(leaked) && (forall m :: m in freed ==> m !in leaked)
    && (forall m :: m in freed || m in leaked ==> m < |mails| && mails[m].payload)
    && (forall m: nat :: m < |mails| && mails[m].payload ==>
          (m in freed || m in leaked <==> Spent(hand, refused, senders, accepted, fates, rejected, m)))
  }

  ghost predicate Hands(s: Sys) {
    HandInv(s.hand, s.svc.main, s.svc.hist.accepted, s.svc.hist.fates)
  }

  ghost predicate Refusals(s: Sys) {
    RefusedInv(s.refused, s.svc.senders, s.svc.hist.rejected)
  }

  ghost predicate Frees(s: Sys) {
    FreedInv(s.mails, s.freed, s.leaked, s.hand, s.refused, s.svc.senders, s.svc.hist.accepted, s.svc.hist.fates, s.svc.hist.rejected)
  }

  ghost predicate Ledger(s: Sys) {
    Inv(s.svc) && |s.mails| == s.svc.hist.next && Hands(s) && Refusals(s) && Frees(s)
  }

  lemma CreatedLedger()
    ensures Ledger(CREATED)
  {
    CreatedInv();
  }

  // Steps of the service

  // Nothing that has to do with payloads changes.
  ghost predicate Quiet(a: S.Svc, b: S.Svc) {
    && a.senders == b.senders && a.hist.next == b.hist.next && a.hist.accepted == b.hist.accepted
    && a.hist.fates == b.hist.fates && a.hist.rejected == b.hist.rejected
  }

  // The oldest message is taken out.
  ghost predicate TakesOne(a: S.Svc, b: S.Svc) {
    && a.box.queue != [] && |b.hist.fates| == |a.hist.fates| + 1
    && a.senders == b.senders && a.hist.next == b.hist.next && a.hist.accepted == b.hist.accepted
    && a.hist.rejected == b.hist.rejected
  }

  lemma StartIsQuiet(a: S.Svc, x: S.StartStep)
    requires S.StartEnabled(a, x) && Threads(a)
    ensures Quiet(a, S.StartApply(a, x))
    ensures a.main == S.StartApply(a, x).main || a.main.Absent?
  {
  }

  lemma BootIsQuiet(a: S.Svc, x: S.BootStep)
    requires S.BootEnabled(a, x)
    ensures Quiet(a, S.BootApply(a, x))
  {
  }

  lemma RoundTakes(a: S.Svc, x: S.RoundStep)
    requires S.RoundEnabled(a, x)
    ensures var b := S.RoundApply(a, x);
      if x.Pops? && a.box.queue != [] then TakesOne(a, b) && b.main.Handling? else Quiet(a, b)
  {
  }

  lemma ShutTakes(a: S.Svc, x: S.ShutStep)
    requires S.ShutEnabled(a, x)
    ensures var b := S.ShutApply(a, x);
      if x.MainDrains? && a.box.queue != [] then TakesOne(a, b) && b.main.ShutDrain? else Quiet(a, b)
  {
  }

  lemma StopIsQuiet(a: S.Svc, x: S.StopStep)
    requires S.StopEnabled(a, x)
    ensures Quiet(a, S.StopApply(a, x)) && S.StopApply(a, x).main == a.main
  {
  }

  lemma JoinIsQuiet(a: S.Svc, x: S.JoinStep)
    requires S.JoinEnabled(a, x) && !x.FreeDeletes?
    ensures Quiet(a, S.JoinApply(a, x)) && S.JoinApply(a, x).main == a.main
  {
  }

  lemma QuietKeeps(s: Sys, r: Sys)
    requires Ledger(s) && Inv(r.svc) && Quiet(s.svc, r.svc)
    requires r.mails == s.mails && r.hand == s.hand && r.refused == s.refused && r.freed == s.freed && r.leaked == s.leaked
    requires s.svc.main == r.svc.main || s.hand.Empty?
    ensures Ledger(r)
  {
    hide Inv, FreedInv, RefusedInv;
  }

  // A message popped is in the thread's hands.
  lemma TakeKeeps(s: Sys, r: Sys)
    requires Ledger(s) && Inv(r.svc) && TakesOne(s.svc, r.svc) && s.hand.Empty?
    requires r.mails == s.mails && r.refused == s.refused && r.freed == s.freed && r.leaked == s.leaked
    requires !r.hand.Empty? && r.hand.m == s.svc.box.queue[0]
    requires if r.hand.Draining? then r.svc.main.ShutDrain? else r.svc.main.Handling?
    ensures Ledger(r)
  {
    hide PinInv, AnswerInv, ThreadInv, StartInv, JoinInv, WakeInv, SignalInv;
    var accepted, n := s.svc.hist.accepted, |s.svc.hist.fates|;
    assert accepted[n] == r.hand.m;
    forall m: nat | m < |s.mails| && s.mails[m].payload
      ensures Spent(s.hand, s.refused, s.svc.senders, accepted, s.svc.hist.fates, s.svc.hist.rejected, m)
        <==> Spent(r.hand, r.refused, r.svc.senders, accepted, r.svc.hist.fates, r.svc.hist.rejected, m)
    {
      TakenOneMore(accepted, s.svc.hist.fates, r.svc.hist.fates, m);
    }
  }

  lemma TakenOneMore(accepted: seq<nat>, fates: seq<S.Fate>, fates2: seq<S.Fate>, m: nat)
    requires Distinct(accepted) && |fates2| == |fates| + 1 <= |accepted|
    ensures Taken(accepted, fates2, m) <==> Taken(accepted, fates, m) || m == accepted[|fates|]
    ensures m == accepted[|fates|] ==> !Taken(accepted, fates, m)
  {
    if m == accepted[|fates|] {
      assert 0 <= |fates| < |accepted| && |fates| < |fates2|;
    }
  }

  // Sending

  // A sender gets or changes its place; what it carries stays out of the ledger.
  lemma PinKeeps(s: Sys, tid: nat, mail: Mail)
    requires Enabled(s, Runs(S.Sending(S.Pin(tid)), mail)) && S.SendEnabled(s.svc, S.Pin(tid))
    requires Inv(S.ApplyPin(s.svc, tid)) && Ledger(s)
    ensures Ledger(Apply(s, Runs(S.Sending(S.Pin(tid)), mail)))
  {
    hide PinInv, AnswerInv, ThreadInv, StartInv, JoinInv, WakeInv, SignalInv;
    var r, latest := Apply(s, Runs(S.Sending(S.Pin(tid)), mail)), s.svc.hist.next;
    forall m | m in s.svc.hist.accepted ensures m != latest {
    }
    forall m: nat | m < |s.mails|
      ensures Carried(r.svc.senders, m) <==> Carried(s.svc.senders, m)
    {
      CarriedAfter(s.svc.senders, tid, r.svc.senders, latest, m);
    }
    if s.svc.pool.routable {
      assert r.svc.senders[tid].m == latest;
    }
  }

  lemma CarriedAfter(senders: map<nat, S.SendPc>, tid: nat, after: map<nat, S.SendPc>, latest: nat, m: nat)
    requires m != latest && tid !in senders
    requires after == senders || (tid in after && after[tid].m == latest && after == senders[tid := after[tid]])
    ensures Carried(after, m) <==> Carried(senders, m)
  {
    if Carried(senders, m) {
      var t :| t in senders && senders[t].m == m;
      assert after[t].m == m;
    }
  }

  lemma CarriedSame(senders: map<nat, S.SendPc>, tid: nat, pc: S.SendPc, m: nat)
    requires tid in senders && senders[tid].m == pc.m
    ensures Carried(senders[tid := pc], m) <==> Carried(senders, m)
  {
    if Carried(senders, m) {
      var t :| t in senders && senders[t].m == m;
      assert senders[tid := pc][t].m == m;
    }
  }

  lemma CarriedLess(senders: map<nat, S.SendPc>, tid: nat, m: nat)
    requires tid in senders && OwnMessages(senders)
    ensures Carried(senders - {tid}, m) <==> Carried(senders, m) && senders[tid].m != m
  {
    if Carried(senders, m) && senders[tid].m != m {
      var t :| t in senders && senders[t].m == m;
      assert t in senders - {tid};
    }
  }

  // The sender stays, still with its message: pushed, refused or on its way to its unpin.
  lemma SenderMoves(s: Sys, b: S.Svc, tid: nat)
    requires Ledger(s) && Inv(b) && tid in s.svc.senders && tid in b.senders
    requires b.main == s.svc.main && b.hist.next == s.svc.hist.next && b.hist.fates == s.svc.hist.fates
    requires b.senders == s.svc.senders[tid := b.senders[tid]] && b.senders[tid].m == s.svc.senders[tid].m
    requires var m := s.svc.senders[tid].m;
      || (b.hist.accepted == s.svc.hist.accepted && b.hist.rejected == s.svc.hist.rejected)
      || (b.hist.accepted == s.svc.hist.accepted + [m] && b.hist.rejected == s.svc.hist.rejected)
      || (b.hist.accepted == s.svc.hist.accepted && b.hist.rejected == s.svc.hist.rejected + {m} && m !in s.svc.hist.rejected)
    ensures Ledger(s.(svc := b))
  {
    hide PinInv, AnswerInv, ThreadInv, StartInv, JoinInv, WakeInv, SignalInv, Carried;
    var mine := s.svc.senders[tid].m;
    forall m ensures Carried(b.senders, m) <==> Carried(s.svc.senders, m) {
      CarriedSame(s.svc.senders, tid, b.senders[tid], m);
    }
    assert Carried(s.svc.senders, mine) by { Carries(s.svc.senders, tid); }
    forall m ensures Taken(b.hist.accepted, b.hist.fates, m) <==> Taken(s.svc.hist.accepted, s.svc.hist.fates, m) {
      TakenAmongFirst(s.svc.hist.accepted, b.hist.accepted, s.svc.hist.fates, m);
    }
  }

  lemma Carries(senders: map<nat, S.SendPc>, tid: nat)
    requires tid in senders
    ensures Carried(senders, senders[tid].m)
  {
  }

  lemma TakenAmongFirst(accepted: seq<nat>, more: seq<nat>, fates: seq<S.Fate>, m: nat)
    requires accepted <= more && |fates| <= |accepted|
    ensures Taken(more, fates, m) <==> Taken(accepted, fates, m)
  {
    if Taken(more, fates, m) {
      var i :| 0 <= i < |more| && i < |fates| && more[i] == m;
      assert accepted[i] == m;
    }
    if Taken(accepted, fates, m) {
      var i :| 0 <= i < |accepted| && i < |fates| && accepted[i] == m;
      assert more[i] == m;
    }
  }

  lemma PushMoves(a: S.Svc, tid: nat, full: bool)
    requires Messages(a) && S.SendEnabled(a, S.Push(tid, full))
    ensures tid in a.senders
    ensures var b, m := S.ApplyPush(a, tid, full), a.senders[tid].m;
      && tid in b.senders && b.senders == a.senders[tid := b.senders[tid]] && b.senders[tid].m == m
      && b.main == a.main && b.hist.next == a.hist.next && b.hist.fates == a.hist.fates
      && ((b.hist.accepted == a.hist.accepted + [m] && b.hist.rejected == a.hist.rejected)
          || (b.hist.accepted == a.hist.accepted && b.hist.rejected == a.hist.rejected + {m} && m !in a.hist.rejected))
  {
  }

  // A sender whose message was refused takes the payload back to its caller.
  lemma UnpinKeeps(s: Sys, tid: nat, sid: nat, mail: Mail)
    requires Enabled(s, Runs(S.Sending(S.Unpin(tid, sid)), mail)) && S.SendEnabled(s.svc, S.Unpin(tid, sid))
    requires Inv(S.ApplyUnpin(s.svc, tid, sid)) && Ledger(s)
    ensures Ledger(Apply(s, Runs(S.Sending(S.Unpin(tid, sid)), mail)))
  {
    hide PinInv, AnswerInv, ThreadInv, StartInv, JoinInv, WakeInv, SignalInv, Carried;
    var r := Apply(s, Runs(S.Sending(S.Unpin(tid, sid)), mail));
    forall m ensures Carried(r.svc.senders, m) <==> Carried(s.svc.senders, m) && s.svc.senders[tid].m != m {
      CarriedLess(s.svc.senders, tid, m);
    }
    assert Carried(s.svc.senders, s.svc.senders[tid].m) by { Carries(s.svc.senders, tid); }
  }

  lemma PushKeeps(s: Sys, tid: nat, full: bool)
    requires S.SendEnabled(s.svc, S.Push(tid, full)) && Ledger(s) && Inv(S.ApplyPush(s.svc, tid, full))
    ensures Ledger(s.(svc := S.ApplyPush(s.svc, tid, full)))
  {
    hide *;
    LedgerHas(s);
    PushMoves(s.svc, tid, full);
    SenderMoves(s, S.ApplyPush(s.svc, tid, full), tid);
  }

  lemma PushRuns(s: Sys, tid: nat, full: bool, mail: Mail)
    requires S.SendEnabled(s.svc, S.Push(tid, full))
    ensures Apply(s, Runs(S.Sending(S.Push(tid, full)), mail)) == s.(svc := S.ApplyPush(s.svc, tid, full))
  {
    hide S.ApplyPush;
  }

  // The sender's steps between its push and its unpin
  lemma NotifyKeeps(s: Sys, x: S.SendStep, mail: Mail)
    requires Enabled(s, Runs(S.Sending(x), mail)) && S.SendEnabled(s.svc, x) && (x.ReadReady? || x.Async?)
    requires Inv(S.SendApply(s.svc, x)) && Ledger(s)
    ensures Ledger(Apply(s, Runs(S.Sending(x), mail)))
  {
    hide Ledger, Inv;
    SenderMoves(s, S.SendApply(s.svc, x), x.tid);
  }

  lemma SendKeeps(s: Sys, x: S.SendStep, mail: Mail)
    requires Enabled(s, Runs(S.Sending(x), mail)) && S.SendEnabled(s.svc, x)
    requires Inv(S.SendApply(s.svc, x)) && Ledger(s)
    ensures Ledger(Apply(s, Runs(S.Sending(x), mail)))
  {
    hide Ledger, Inv, Apply, S.ApplyPush, S.ApplyPin, S.ApplyUnpin;
    match x
    case Pin(tid) => PinKeeps(s, tid, mail);
    case Push(tid, full) =>
      PushKeeps(s, tid, full);
      PushRuns(s, tid, full, mail);
    case Unpin(tid, sid) => UnpinKeeps(s, tid, sid, mail);
    case _ => NotifyKeeps(s, x, mail);
  }

  lemma LedgerHas(s: Sys)
    requires Ledger(s)
    ensures Inv(s.svc) && Messages(s.svc) && Threads(s.svc) && |s.mails| == s.svc.hist.next
  {
    hide Messages, Threads;
  }

  // mailbox_delete: the thread is gone or never was, and every message left is disposed of.

  lemma {:induction false} PayloadsAre(mails: seq<Mail>, queue: seq<nat>)
    requires Distinct(queue)
    ensures Distinct(PayloadsOf(mails, queue))
    ensures forall m :: m in PayloadsOf(mails, queue) <==> m in queue && m < |mails| && mails[m].payload
  {
    if queue != [] {
      var rest, m := queue[..|queue| - 1], queue[|queue| - 1];
      PayloadsAre(mails, rest);
      assert queue == rest + [m];
      assert m !in rest;
    }
  }

  lemma TakenAll(accepted: seq<nat>, fates: seq<S.Fate>, fates2: seq<S.Fate>, m: nat)
    requires |fates| <= |accepted| == |fates2|
    ensures Taken(accepted, fates2, m) <==> Taken(accepted, fates, m) || m in accepted[|fates|..]
  {
    if m in accepted[|fates|..] {
      var k :| 0 <= k < |accepted| - |fates| && accepted[|fates|..][k] == m;
      assert accepted[|fates| + k] == m;
    }
    if Taken(accepted, fates2, m) && !Taken(accepted, fates, m) {
      var i :| 0 <= i < |accepted| && accepted[i] == m;
      assert accepted[|fates|..][i - |fates|] == m;
    }
  }

  lemma QueueIsNotTaken(accepted: seq<nat>, fates: seq<S.Fate>, m: nat)
    requires Distinct(accepted) && |fates| <= |accepted|
    ensures m in accepted[|fates|..] ==> !Taken(accepted, fates, m)
  {
    if m in accepted[|fates|..] {
      var k :| 0 <= k < |accepted| - |fates| && accepted[|fates|..][k] == m;
      assert accepted[|fates| + k] == m;
    }
  }

  lemma DeleteSpends(
    refused: set<nat>, senders: map<nat, S.SendPc>, accepted: seq<nat>, fates: seq<S.Fate>, rejected: set<nat>,
    fates2: seq<S.Fate>, m: nat)
    requires Distinct(accepted) && |fates| <= |accepted| == |fates2|
    requires m in accepted ==> m !in rejected
    ensures Spent(Empty, refused, senders, accepted, fates2, rejected, m) <==>
      Spent(Empty, refused, senders, accepted, fates, rejected, m) || m in accepted[|fates|..]
    ensures m in accepted[|fates|..] ==> m in accepted && !Spent(Empty, refused, senders, accepted, fates, rejected, m)
  {
    hide Carried, Taken;
    TakenAll(accepted, fates, fates2, m);
    QueueIsNotTaken(accepted, fates, m);
    assert m in accepted[|fates|..] ==> m in accepted;
  }

  lemma DeleteFrees(
    mails: seq<Mail>, freed: seq<nat>, leaked: seq<nat>, refused: set<nat>, senders: map<nat, S.SendPc>, accepted: seq<nat>,
    fates: seq<S.Fate>, rejected: set<nat>, fates2: seq<S.Fate>)
    requires FreedInv(mails, freed, leaked, Empty, refused, senders, accepted, fates, rejected)
    requires Distinct(accepted) && |fates| <= |accepted| == |fates2|
    requires forall m :: m in accepted ==> m < |mails| && m !in rejected
    ensures FreedInv(mails, freed + PayloadsOf(mails, accepted[|fates|..]), leaked, Empty, refused, senders, accepted, fates2,
      rejected)
  {
    hide Spent, Distinct;
    var queue := accepted[|fates|..];
    QueueDistinct(accepted, |fates|);
    PayloadsAre(mails, queue);
    forall m: nat
      ensures Spent(Empty, refused, senders, accepted, fates2, rejected, m) <==>
        Spent(Empty, refused, senders, accepted, fates, rejected, m) || m in queue
      ensures m in queue ==> !Spent(Empty, refused, senders, accepted, fates, rejected, m)
    {
      DeleteSpends(refused, senders, accepted, fates, rejected, fates2, m);
    }
    DistinctJoin(freed, PayloadsOf(mails, queue));
  }

  lemma QueueDistinct(accepted: seq<nat>, n: nat)
    requires Distinct(accepted) && n <= |accepted|
    ensures Distinct(accepted[n..])
  {
  }

  lemma DistinctJoin(a: seq<nat>, b: seq<nat>)
    requires Distinct(a) && Distinct(b) && forall m :: m in a ==> m !in b
    ensures Distinct(a + b)
  {
    forall i, j | 0 <= i < j < |a + b| ensures (a + b)[i] != (a + b)[j] {
      if i < |a| <= j {
        assert a[i] in a && b[j - |a|] in b;
      }
    }
  }

  lemma DeleteKeeps(s: Sys, mail: Mail)
    requires Enabled(s, Runs(S.Joining(S.FreeDeletes), mail)) && S.JoinEnabled(s.svc, S.FreeDeletes)
    requires Inv(S.ApplyDelete(s.svc)) && Ledger(s)
    ensures Ledger(Apply(s, Runs(S.Joining(S.FreeDeletes), mail)))
  {
    hide PinInv, AnswerInv, StartInv, WakeInv, SignalInv, FreedInv, RefusedInv, Inv;
    LedgerHas(s);
    DeletedFields(s.svc);
    DeleteFrees(s.mails, s.freed, s.leaked, s.refused, s.svc.senders, s.svc.hist.accepted, s.svc.hist.fates, s.svc.hist.rejected,
      S.ApplyDelete(s.svc).hist.fates);
  }

  lemma DeleteIs(a: S.Svc)
    requires S.JoinEnabled(a, S.FreeDeletes)
    ensures S.Apply(a, S.Joining(S.FreeDeletes)) == S.ApplyDelete(a)
  {
  }

  lemma DeletedFields(a: S.Svc)
    requires Inv(a) && a.joiner == S.FreeDelete
    ensures a.main.Absent? || a.main.Exited?
    ensures |S.ApplyDelete(a).hist.fates| == |a.hist.accepted|
  {
  }

  lemma RunsKeeps(s: Sys, step: S.Step, mail: Mail)
    requires Enabled(s, Runs(step, mail)) && Ledger(s)
    ensures Ledger(Apply(s, Runs(step, mail)))
  {
    hide Ledger, Inv, S.StartApply, S.BootApply, S.RoundApply, S.ShutApply, S.SendApply, S.StopApply, S.JoinApply, Quiet, TakesOne;
    LedgerHas(s);
    StepKeeps(s.svc, step);
    var r := Apply(s, Runs(step, mail));
    match step
    case Starting(x) =>
      StartIsQuiet(s.svc, x);
      IdleBeforeThread(s);
      QuietKeeps(s, r);
    case Booting(x) =>
      BootIsQuiet(s.svc, x);
      QuietKeeps(s, r);
    case Dispatching(x) =>
      RoundTakes(s.svc, x);
      if x.Pops? && s.svc.box.queue != [] {
        TakeKeeps(s, r);
      } else {
        QuietKeeps(s, r);
      }
    case Shutting(x) =>
      ShutTakes(s.svc, x);
      if x.MainDrains? && s.svc.box.queue != [] {
        TakeKeeps(s, r);
      } else {
        QuietKeeps(s, r);
      }
    case Sending(x) => SendKeeps(s, x, mail);
    case Stopping(x) =>
      StopIsQuiet(s.svc, x);
      QuietKeeps(s, r);
    case Joining(x) =>
      if x.FreeDeletes? {
        DeleteIs(s.svc);
        DeleteKeeps(s, mail);
      } else {
        JoinIsQuiet(s.svc, x);
        QuietKeeps(s, r);
      }
  }

  lemma IdleBeforeThread(s: Sys)
    requires Ledger(s)
    ensures s.svc.main.Absent? ==> s.hand.Empty?
  {
    hide Inv, FreedInv, RefusedInv;
  }

  // What the service thread and a refused sender do with a payload

  lemma BranchKeeps(s: Sys, entered: Entered)
    requires Enabled(s, Dispatches(entered)) && Ledger(s)
    ensures var hand, mail := Apply(s, Dispatches(entered)).hand, s.mails[s.hand.m];
      && Ledger(Apply(s, Dispatches(entered))) && !hand.Empty? && hand.m == s.hand.m
      && (hand.InHandler? <==> mail.kind == REQUEST)
      && (hand.InSystem? <==> mail.kind == SYSTEM)
      && (hand.InCaller? <==> IsReply(mail) && entered == Caller)
      && (hand.InStray? <==> IsReply(mail) && entered == Stray)
      && (hand.Unwanted? <==> mail.kind == SIGNAL || (mail.kind != REQUEST && mail.kind != SYSTEM && mail.session == 0)
                              || (IsReply(mail) && entered == Nobody))
  {
    hide Inv;
  }

  // The payload in the thread's hands is freed or leaked, and it has it no more.
  lemma HandKeeps(s: Sys)
    requires Ledger(s) && !s.hand.Empty?
    ensures Ledger(Freed(s, s.hand.m).(hand := Empty)) && Ledger(Leaked(s, s.hand.m).(hand := Empty))
  {
    hide PinInv, AnswerInv, ThreadInv, StartInv, JoinInv, WakeInv, SignalInv, Carried;
    var m := s.hand.m;
    assert s.svc.hist.accepted[|s.svc.hist.fates| - 1] == m;
    assert Taken(s.svc.hist.accepted, s.svc.hist.fates, m);
  }

  lemma RefusedKeeps(s: Sys, m: nat)
    requires Ledger(s) && m in s.refused
    ensures Ledger(Apply(s, DisposesRefused(m)))
  {
    hide PinInv, AnswerInv, ThreadInv, StartInv, JoinInv, WakeInv, SignalInv, Carried;
    NeverTaken(s.svc, m);
  }

  lemma NeverTaken(a: S.Svc, m: nat)
    requires Messages(a) && m in a.hist.rejected
    ensures !Taken(a.hist.accepted, a.hist.fates, m) && m < a.hist.next
  {
  }

  lemma LedgerKept(s: Sys, step: Step)
    requires Enabled(s, step) && Ledger(s)
    ensures Ledger(Apply(s, step))
  {
    hide Ledger;
    match step
    case Runs(x, mail) => RunsKeeps(s, x, mail);
    case Dispatches(entered) => BranchKeeps(s, entered);
    case DisposesRefused(m) => RefusedKeeps(s, m);
    case _ => HandKeeps(s);
  }

  ghost predicate Reaches(s: Sys, steps: seq<Step>, r: Sys)
    decreases |steps|
  {
    if steps == [] then s == r else Enabled(s, steps[0]) && Reaches(Apply(s, steps[0]), steps[1..], r)
  }

  lemma {:induction false} RunKeeps(s: Sys, steps: seq<Step>, r: Sys)
    requires Reaches(s, steps, r) && Ledger(s)
    ensures Ledger(r)
    decreases |steps|
  {
    hide Ledger, Enabled, Apply;
    if steps != [] {
      LedgerKept(s, steps[0]);
      RunKeeps(Apply(s, steps[0]), steps[1..], r);
    }
  }

  // Who has the payload of m: the thread of a send on its way or refused, the mailbox, or
  // whoever the service thread has passed it to
  datatype Owner = Sender(tid: nat) | Refused | Mailbox | Thread(hand: Hand)

  ghost predicate Owns(s: Sys, owner: Owner, m: nat) {
    match owner
    case Sender(tid) => tid in s.svc.senders && s.svc.senders[tid].m == m && m !in s.svc.hist.accepted
    case Refused => m in s.refused
    case Mailbox => m in s.svc.box.queue
    case Thread(hand) => hand == s.hand && Holds(hand, m)
  }

  // On every run each payload sent has exactly one owner until it is freed, or leaked, and
  // none after; and nothing is freed twice, nor after it is leaked.
  lemma EachPayloadOnce(steps: seq<Step>, s: Sys, m: nat)
    requires Reaches(CREATED, steps, s) && m < |s.mails| && s.mails[m].payload
    ensures m in s.freed || m in s.leaked <==> !exists owner :: Owns(s, owner, m)
    ensures m in s.freed ==> m !in s.leaked
    ensures forall a, b :: Owns(s, a, m) && Owns(s, b, m) ==> a == b
    ensures forall i, j :: 0 <= i < j < |s.freed| ==> s.freed[i] != s.freed[j]
  {
    hide Reaches, Ledger, Owns;
    CreatedLedger();
    RunKeeps(CREATED, steps, s);
    OwnersMean(s, m);
  }

  lemma OwnersMean(s: Sys, m: nat)
    requires Ledger(s) && m < |s.mails| && s.mails[m].payload
    ensures m in s.freed || m in s.leaked <==> !exists owner :: Owns(s, owner, m)
    ensures m in s.freed ==> m !in s.leaked
    ensures forall a, b :: Owns(s, a, m) && Owns(s, b, m) ==> a == b
    ensures Distinct(s.freed)
  {
    hide Inv, HandInv, RefusedInv, Owns, Spent;
    LedgerHas(s);
    if Spent(s.hand, s.refused, s.svc.senders, s.svc.hist.accepted, s.svc.hist.fates, s.svc.hist.rejected, m) {
      forall owner ensures !Owns(s, owner, m) {
        SpentIsNobodys(s, owner, m);
      }
    } else {
      var owner := OwnerOf(s, m);
    }
    forall a, b | Owns(s, a, m) && Owns(s, b, m) ensures a == b {
      OwnersAgree(s, a, b, m);
    }
  }

  lemma SpentIsNobodys(s: Sys, owner: Owner, m: nat)
    requires Ledger(s)
    requires Spent(s.hand, s.refused, s.svc.senders, s.svc.hist.accepted, s.svc.hist.fates, s.svc.hist.rejected, m)
    ensures !Owns(s, owner, m)
  {
    hide PinInv, AnswerInv, ThreadInv, StartInv, JoinInv, WakeInv, SignalInv, FreedInv;
    QueueIsNotTaken(s.svc.hist.accepted, s.svc.hist.fates, m);
    if s.hand != Empty {
      assert s.svc.hist.accepted[|s.svc.hist.fates| - 1] in s.svc.hist.accepted;
    }
  }

  lemma OwnerOf(s: Sys, m: nat) returns (owner: Owner)
    requires Ledger(s) && m < |s.mails|
    requires !Spent(s.hand, s.refused, s.svc.senders, s.svc.hist.accepted, s.svc.hist.fates, s.svc.hist.rejected, m)
    ensures Owns(s, owner, m)
  {
    hide PinInv, ThreadInv, StartInv, JoinInv, WakeInv, SignalInv, FreedInv, HandInv, RefusedInv;
    var accepted, n := s.svc.hist.accepted, |s.svc.hist.fates|;
    if m in accepted {
      var i :| 0 <= i < |accepted| && accepted[i] == m;
      if i < n {
        owner := Thread(s.hand);
      } else {
        assert s.svc.box.queue[i - n] == m;
        owner := Mailbox;
      }
    } else if m in s.refused {
      owner := Refused;
    } else {
      var tid :| tid in s.svc.senders && s.svc.senders[tid].m == m;
      owner := Sender(tid);
    }
  }

  lemma OwnersAgree(s: Sys, a: Owner, b: Owner, m: nat)
    requires Ledger(s) && Owns(s, a, m) && Owns(s, b, m)
    ensures a == b
  {
    hide PinInv, AnswerInv, ThreadInv, StartInv, JoinInv, WakeInv, SignalInv, FreedInv;
    QueueIsNotTaken(s.svc.hist.accepted, s.svc.hist.fates, m);
    if Holds(s.hand, m) {
      HeldIsTaken(s, m);
    }
    if a.Sender? {
      Carries(s.svc.senders, a.tid);
    }
    if b.Sender? {
      Carries(s.svc.senders, b.tid);
    }
  }

  lemma HeldIsTaken(s: Sys, m: nat)
    requires Ledger(s) && Holds(s.hand, m)
    ensures Taken(s.svc.hist.accepted, s.svc.hist.fates, m) && m in s.svc.hist.accepted
  {
    hide Inv, FreedInv, RefusedInv;
    assert s.svc.hist.accepted[|s.svc.hist.fates| - 1] == m;
  }

  // Nothing is leaked unless a reply is dispatched to a stray.
  lemma {:induction false} LeaksAreStray(s: Sys, steps: seq<Step>, r: Sys)
    requires Reaches(s, steps, r) && !s.hand.InStray? && Dispatches(Stray) !in steps
    ensures r.leaked == s.leaked && !r.hand.InStray?
    decreases |steps|
  {
    if steps != [] {
      assert steps == [steps[0]] + steps[1..];
      LeaksAreStray(Apply(s, steps[0]), steps[1..], r);
    }
  }

  // A leaked payload came with a reply to a call.
  ghost predicate LeakInv(s: Sys) {
    && (s.hand.InStray? ==> s.hand.m < |s.mails| && IsReply(s.mails[s.hand.m]))
    && forall m :: m in s.leaked ==> m < |s.mails| && IsReply(s.mails[m])
  }

  predicate IsReply(mail: Mail) {
    (mail.kind == RESPONSE || mail.kind == ERROR) && mail.session > 0
  }

  lemma {:induction false} LeaksAreReplies(s: Sys, steps: seq<Step>, r: Sys)
    requires LeakInv(s) && Reaches(s, steps, r)
    ensures LeakInv(r)
    decreases |steps|
  {
    hide Enabled, Apply;
    if steps != [] {
      LeakStep(s, steps[0]);
      LeaksAreReplies(Apply(s, steps[0]), steps[1..], r);
    }
  }

  lemma LeakStep(s: Sys, step: Step)
    requires LeakInv(s) && Enabled(s, step)
    ensures LeakInv(Apply(s, step))
  {
    hide S.Apply, S.Enabled;
  }

  // Once the service is freed, every payload it accepted has been freed, but for replies
  // leaked to strays; and every other one too, but for refused ones on their way to it.
  lemma AllAreFreed(steps: seq<Step>, s: Sys, m: nat)
    requires Reaches(CREATED, steps, s) && s.svc.box.deleted && m < |s.mails| && s.mails[m].payload
    ensures m in s.freed || (m in s.refused && m in s.svc.hist.rejected) || (m in s.leaked && IsReply(s.mails[m]))
    ensures m in s.svc.hist.accepted ==> m in s.freed || m in s.leaked
    ensures m in s.leaked ==> Dispatches(Stray) in steps
  {
    hide Reaches, Ledger;
    CreatedLedger();
    RunKeeps(CREATED, steps, s);
    LeaksAreReplies(CREATED, steps, s);
    if Dispatches(Stray) !in steps {
      LeaksAreStray(CREATED, steps, s);
    }
    DeletedMeans(s);
    if m !in s.freed && m !in s.leaked {
      OwnersMean(s, m);
      var owner :| Owns(s, owner, m);
    }
  }

  lemma DeletedMeans(s: Sys)
    requires Ledger(s) && s.svc.box.deleted
    ensures s.svc.senders == map[] && s.svc.box.queue == [] && s.hand.Empty?
    ensures forall m :: m in s.refused ==> m in s.svc.hist.rejected
    ensures forall m :: m in s.svc.hist.accepted ==> m !in s.svc.hist.rejected
  {
    hide AnswerInv, StartInv, WakeInv, SignalInv, FreedInv;
  }

  // The runs of the service are those of Service.
  lemma RunsAreRuns(s: Sys, steps: seq<Step>, r: Sys) returns (own: seq<S.Step>)
    requires Reaches(s, steps, r)
    ensures ServiceRuns.Reaches(s.svc, own, r.svc)
    decreases |steps|
  {
    own := [];
    if steps != [] {
      own := RunsAreRuns(Apply(s, steps[0]), steps[1..], r);
      if steps[0].Runs? {
        var rest := own;
        own := [steps[0].step] + rest;
        assert own[1..] == rest;
      }
    }
  }
}
