// What every interleaving of the steps of Rpc keeps. Each request with a session is
// in one place, and the services' own state says the same of it as calls does.
module RpcSafety {
  import opened Wire
  import opened Rpc

  type Calls = map<nat, Call>

  // Not yet back at the coroutine that waits for it
  predicate InFlight(p: Place) {
    p.Queued? || p.Held? || p.Sending? || p.Replied?
  }

  predicate LocalTo(p: Place, i: nat) {
    InFlight(p) && p.node == i
  }

  // A message in i's mailbox is the token of the call it names.
  predicate IsToken(m: Msg, i: nat, calls: Calls) {
    && m.req in calls && calls[m.req].session == m.session
    && (m.kind == REQUEST ==> calls[m.req].place == Queued(i) && calls[m.req].to == i && calls[m.req].from == m.from)
    && (m.kind != REQUEST ==> calls[m.req].place == Replied(i) && calls[m.req].from == i)
  }

  predicate Carries(inbox: seq<Msg>, r: nat) {
    exists k :: 0 <= k < |inbox| && inbox[k].session > 0 && inbox[k].req == r
  }

  ghost predicate InboxInv(i: nat, inbox: seq<Msg>, calls: Calls) {
    && (forall k :: 0 <= k < |inbox| && inbox[k].session > 0 ==> IsToken(inbox[k], i, calls))
    && (forall k :: 0 <= k < |inbox| && inbox[k].session == 0 ==> inbox[k].kind == REQUEST)
    && (forall j, k :: 0 <= j < k < |inbox| && inbox[j].session > 0 && inbox[k].session > 0 ==> inbox[j].req != inbox[k].req)
    && (forall r :: r in calls && (calls[r].place == Queued(i) || calls[r].place == Replied(i)) ==> Carries(inbox, r))
  }

  // A coroutine whose duty nobody has met yet
  predicate Unmet(stage: Stage, cos: map<nat, Co>, co: nat) {
    co in cos && Owes(cos[co].duty) && (stage.Passing? ==> co in stage.todo)
  }

  predicate IsDuty(i: nat, co: nat, duty: Duty, calls: Calls) {
    && duty.req in calls && calls[duty.req].place == Held(i, co) && calls[duty.req].to == i
    && calls[duty.req].from == duty.from && calls[duty.req].session == duty.session
  }

  ghost predicate DutyInv(i: nat, stage: Stage, cos: map<nat, Co>, nextCo: nat, calls: Calls) {
    && (forall co :: co in cos ==> co < nextCo)
    && (stage.Passing? ==> stage.todo <= cos.Keys)
    && (forall co :: Unmet(stage, cos, co) ==>
          IsDuty(i, co, cos[co].duty, calls))
    && (forall r :: r in calls && calls[r].place.Held? && calls[r].place.node == i ==>
          Unmet(stage, cos, calls[r].place.co) && cos[calls[r].place.co].duty.req == r)
  }

  ghost predicate SendInv(i: nat, outgoing: Option<Outgoing>, running: Option<nat>, cos: map<nat, Co>, calls: Calls) {
    && (outgoing.Some? ==>
          var m := outgoing.value.msg;
          && (m.session == 0 ==> m.kind == REQUEST)
          && (m.session > 0 && m.kind == REQUEST ==>
                m.from == i && running.Some? && running.value in cos && cos[running.value].status == Calling(m.session))
          && (m.kind != REQUEST ==>
                m.req in calls && calls[m.req].place == Sending(i) && calls[m.req].from == outgoing.value.to
                && calls[m.req].session == m.session))
    && (forall r :: r in calls && calls[r].place == Sending(i) ==>
          outgoing.Some? && outgoing.value.msg.kind != REQUEST && outgoing.value.msg.req == r)
  }

  predicate Waits(cos: map<nat, Co>, co: nat, session: nat, r: nat) {
    co in cos && (cos[co].status == Registering(session, r) || cos[co].status == Waiting(session, r))
  }

  // A call that is under way has its coroutine waiting for it.
  ghost predicate CallerInv(i: nat, turned: bool, gone: bool, cos: map<nat, Co>, calls: Calls) {
    && (forall co :: co in cos && (cos[co].status.Registering? || cos[co].status.Waiting?) ==>
          var st := cos[co].status;
          && st.session > 0 && st.req in calls && calls[st.req].from == i && calls[st.req].co == co
          && calls[st.req].session == st.session
          && (InFlight(calls[st.req].place) || (calls[st.req].place == Lost && turned)))
    && (forall r :: r in calls && calls[r].from == i && InFlight(calls[r].place) ==>
          gone || Waits(cos, calls[r].co, calls[r].session, r))
  }

  // No two coroutines of a service wait on one session.
  ghost predicate TableInv(pending: map<nat, nat>, cos: map<nat, Co>, running: Option<nat>) {
    && (forall x :: x in pending ==>
          pending[x] in cos && cos[pending[x]].status.Waiting? && cos[pending[x]].status.session == x)
    && (forall co :: co in cos && cos[co].status.Waiting? ==>
          cos[co].status.session in pending && pending[cos[co].status.session] == co)
    && (running.Some? ==> running.value in cos)
    && (forall co :: co in cos ==> ((running == Some(co)) <==> !cos[co].status.Waiting? && !cos[co].status.Sleeping?))
    && (forall co :: co in cos && (cos[co].status.Registering? || cos[co].status.Calling?) ==>
          cos[co].status.session !in pending && cos[co].status.session > 0)
  }

  ghost predicate WaitInv(
    i: nat, turned: bool, gone: bool, pending: map<nat, nat>, cos: map<nat, Co>, running: Option<nat>, calls: Calls)
  {
    CallerInv(i, turned, gone, cos, calls) && TableInv(pending, cos, running)
  }

  // While no yield of a call has raised
  ghost predicate WaitNode(i: nat, n: Node, calls: Calls) {
    n.strayed || WaitInv(i, n.closed || n.refused, n.stage.Gone?, n.pending, n.cos, n.running, calls)
  }

  // What a coroutine waits for is a call of its own service, whatever has raised.
  ghost predicate OwnInv(i: nat, cos: map<nat, Co>, calls: Calls) {
    forall co :: co in cos && (cos[co].status.Registering? || cos[co].status.Waiting?) ==>
      cos[co].status.req in calls && calls[cos[co].status.req].from == i
  }

  ghost predicate StageInv(n: Node) {
    && (n.stage.Draining? || n.stage.Drained? || n.stage.Passing? || n.stage.Gone? ==> n.closed)
    && (n.stage.Drained? || n.stage.Passing? || n.stage.Gone? ==> n.inbox == [])
    && (n.stage.Draining? || n.stage.Passing? || n.stage.Gone? ==> n.running == None)
    && (n.stage.Gone? ==> n.cos == map[] && n.outgoing == None)
    && (n.stage.Booting? ==> n.cos == map[])
    && 1 <= n.nextSession <= UINT32_MAX
  }

  ghost predicate NodeInv(i: nat, n: Node, calls: Calls) {
    && InboxInv(i, n.inbox, calls)
    && DutyInv(i, n.stage, n.cos, n.nextCo, calls)
    && SendInv(i, n.outgoing, n.running, n.cos, calls)
    && OwnInv(i, n.cos, calls)
    && WaitNode(i, n, calls)
    && StageInv(n)
  }

  predicate Within(p: Place, count: nat) {
    InFlight(p) ==> p.node < count
  }

  ghost predicate CallsInv(calls: Calls, count: nat, nextReq: nat) {
    forall r :: r in calls ==>
      && r < nextReq && calls[r].from < count && calls[r].to < count && calls[r].session > 0 && Within(calls[r].place, count)
      && (calls[r].place.Queued? || calls[r].place.Held? || calls[r].place.Sending? ==> calls[r].place.node == calls[r].to)
      && (calls[r].place.Replied? ==> calls[r].place.node == calls[r].from)
  }

  predicate Answered(p: Place) {
    !p.Queued? && !p.Held?
  }

  ghost predicate HistoryInv(calls: Calls, replies: seq<nat>, resumes: seq<(nat, nat)>, strays: set<nat>) {
    && (forall j, k :: 0 <= j < k < |replies| ==> replies[j] != replies[k])
    && (forall r :: r in replies ==> r in calls && Answered(calls[r].place))
    && (forall r :: r in calls && Answered(calls[r].place) ==> r in replies)
    && (forall k :: 0 <= k < |resumes| ==> resumes[k].0 in calls)
    && (forall k :: 0 <= k < |resumes| && calls[resumes[k].0].from !in strays ==>
          resumes[k].0 == resumes[k].1 && calls[resumes[k].0].place == Consumed)
    && (forall j, k :: 0 <= j < k < |resumes| && calls[resumes[j].0].from !in strays ==> resumes[j].0 != resumes[k].0)
  }

  ghost predicate NodesInv(nodes: seq<Node>, calls: Calls) {
    forall i :: 0 <= i < |nodes| ==> NodeInv(i, nodes[i], calls)
  }

  ghost predicate Inv(s: Sys) {
    && NodesInv(s.nodes, s.calls)
    && CallsInv(s.calls, |s.nodes|, s.nextReq)
    && HistoryInv(s.calls, s.replies, s.resumes, s.strays)
    && StraysInv(s.nodes, s.strays)
  }

  ghost predicate StraysInv(nodes: seq<Node>, strays: set<nat>) {
    forall i :: 0 <= i < |nodes| && nodes[i].strayed ==> i in strays
  }

  // What a change of calls must leave alone for node i to see nothing of it
  ghost predicate Elsewhere(i: nat, was: Calls, now: Calls) {
    && (forall r :: r in was ==> r in now && now[r] == was[r].(place := now[r].place))
    && (forall r :: r in was && now[r].place != was[r].place ==>
          && InFlight(was[r].place) && (InFlight(now[r].place) || was[r].from != i)
          && !LocalTo(was[r].place, i) && !LocalTo(now[r].place, i))
    && (forall r :: r in now && r !in was ==> now[r].from != i && !LocalTo(now[r].place, i))
  }

  lemma FrameInbox(i: nat, n: Node, was: Calls, now: Calls)
    requires InboxInv(i, n.inbox, was) && Elsewhere(i, was, now)
    ensures InboxInv(i, n.inbox, now)
  {
  }

  lemma FrameDuty(i: nat, n: Node, was: Calls, now: Calls)
    requires DutyInv(i, n.stage, n.cos, n.nextCo, was) && Elsewhere(i, was, now)
    ensures DutyInv(i, n.stage, n.cos, n.nextCo, now)
  {
  }

  lemma FrameSend(i: nat, n: Node, was: Calls, now: Calls)
    requires SendInv(i, n.outgoing, n.running, n.cos, was) && Elsewhere(i, was, now)
    ensures SendInv(i, n.outgoing, n.running, n.cos, now)
  {
  }

  lemma FrameWait(i: nat, n: Node, was: Calls, now: Calls)
    requires WaitNode(i, n, was) && Elsewhere(i, was, now)
    ensures WaitNode(i, n, now)
  {
  }

  lemma FrameOwn(i: nat, n: Node, was: Calls, now: Calls)
    requires OwnInv(i, n.cos, was) && Elsewhere(i, was, now)
    ensures OwnInv(i, n.cos, now)
  {
  }

  lemma Frame(i: nat, n: Node, was: Calls, now: Calls)
    requires NodeInv(i, n, was) && Elsewhere(i, was, now)
    ensures NodeInv(i, n, now)
  {
    hide InboxInv, DutyInv, SendInv, OwnInv, WaitNode, StageInv, Elsewhere;
    FrameInbox(i, n, was, now);
    FrameOwn(i, n, was, now);
    FrameDuty(i, n, was, now);
    FrameSend(i, n, was, now);
    FrameWait(i, n, was, now);
  }

  lemma OneNode(s: Sys, i: nat, n: Node, now: Calls)
    requires i < |s.nodes| && NodesInv(s.nodes, s.calls) && NodeInv(i, n, now)
    requires forall j :: 0 <= j < |s.nodes| && j != i ==> Elsewhere(j, s.calls, now)
    ensures NodesInv(s.nodes[i := n], now)
  {
    hide NodeInv, Elsewhere;
    var nodes := s.nodes[i := n];
    forall j | 0 <= j < |nodes| ensures NodeInv(j, nodes[j], now) {
      if j != i {
        Frame(j, s.nodes[j], s.calls, now);
      }
    }
  }

  lemma Nowhere(i: nat, calls: Calls)
    ensures Elsewhere(i, calls, calls)
  {
  }

  // The steps that leave calls alone

  lemma ClosesNode(i: nat, n: Node, calls: Calls)
    requires NodeInv(i, n, calls)
    ensures NodeInv(i, n.(closed := true), calls)
    ensures n.stage.Booting? ==> NodeInv(i, n.(stage := Serving), calls)
  {
  }

  lemma DrainBeginsNode(i: nat, n: Node, calls: Calls)
    requires NodeInv(i, n, calls) && n.closed && Idle(n)
    ensures n.stage.Booting? || n.stage.Serving? ==> NodeInv(i, n.(stage := Draining), calls)
    ensures n.stage.Drained? ==> NodeInv(i, n.(stage := Passing(n.cos.Keys)), calls)
  {
  }

  lemma ExitsNode(i: nat, n: Node, calls: Calls)
    requires NodeInv(i, n, calls) && n.stage == Passing({}) && Free(n)
    ensures NodeInv(i, n.(stage := Gone, cos := map[], pending := map[]), calls)
  {
  }

  lemma PostsNode(i: nat, n: Node, calls: Calls, to: nat)
    requires NodeInv(i, n, calls) && Runs(n)
    ensures NodeInv(i, n.(outgoing := Some(Outgoing(to, Msg(REQUEST, i, 0, 0)))), calls)
  {
  }

  // A new status leaves the duties alone.
  lemma StatusKeepsDuties(i: nat, n: Node, calls: Calls, co: nat, status: Status)
    requires DutyInv(i, n.stage, n.cos, n.nextCo, calls) && co in n.cos
    ensures DutyInv(i, n.stage, WithStatus(n, co, status).cos, n.nextCo, calls)
  {
    var cos := WithStatus(n, co, status).cos;
    assert forall c :: Unmet(n.stage, cos, c) <==> Unmet(n.stage, n.cos, c);
  }

  // The rest of WaitInv sees the calls only; what a status change means to it
  lemma StatusKeepsCaller(i: nat, turned: bool, gone: bool, cos: map<nat, Co>, calls: Calls, co: nat, status: Status)
    requires CallerInv(i, turned, gone, cos, calls) && co in cos
    requires status.Registering? || status.Waiting? ==>
      (cos[co].status.Registering? || cos[co].status.Waiting?)
      && status.session == cos[co].status.session && status.req == cos[co].status.req
    requires cos[co].status.Registering? || cos[co].status.Waiting? ==> status.Registering? || status.Waiting?
    ensures CallerInv(i, turned, gone, cos[co := cos[co].(status := status)], calls)
  {
    var now := cos[co := cos[co].(status := status)];
    forall r | r in calls && calls[r].from == i && InFlight(calls[r].place)
      ensures gone || Waits(now, calls[r].co, calls[r].session, r)
    {
      assert gone || Waits(cos, calls[r].co, calls[r].session, r);
    }
  }

  lemma WakesTable(pending: map<nat, nat>, cos: map<nat, Co>, co: nat)
    requires TableInv(pending, cos, None) && co in cos && cos[co].status.Sleeping?
    ensures TableInv(pending, cos[co := cos[co].(status := Running)], Some(co))
  {
  }

  lemma SleepsTable(pending: map<nat, nat>, cos: map<nat, Co>, co: nat)
    requires TableInv(pending, cos, Some(co)) && cos[co].status.Running?
    ensures TableInv(pending, cos[co := cos[co].(status := Sleeping)], None)
  {
  }

  lemma CallsTable(pending: map<nat, nat>, cos: map<nat, Co>, co: nat, status: Status)
    requires TableInv(pending, cos, Some(co))
    requires status.Running? || ((status.Calling? || status.Registering?) && status.session > 0 && status.session !in pending)
    ensures TableInv(pending, cos[co := cos[co].(status := status)], Some(co))
  {
  }

  lemma RegistersTable(pending: map<nat, nat>, cos: map<nat, Co>, co: nat)
    requires TableInv(pending, cos, Some(co)) && cos[co].status.Registering?
    ensures var st := cos[co].status;
      TableInv(pending[st.session := co], cos[co := cos[co].(status := Waiting(st.session, st.req))], None)
  {
  }

  lemma WakesWait(i: nat, n: Node, calls: Calls, co: nat)
    requires WaitNode(i, n, calls) && n.running.None? && co in n.cos && (n.cos[co].status.Sleeping? || n.strayed)
    ensures WaitNode(i, WithStatus(n, co, Running).(running := Some(co)), calls)
  {
    hide CallerInv, TableInv;
    if !n.strayed {
      StatusKeepsCaller(i, n.closed || n.refused, n.stage.Gone?, n.cos, calls, co, Running);
      WakesTable(n.pending, n.cos, co);
    }
  }

  lemma SleepsWait(i: nat, n: Node, calls: Calls)
    requires WaitNode(i, n, calls) && Runs(n)
    ensures WaitNode(i, WithStatus(n, n.running.value, Sleeping).(running := None), calls)
  {
    hide CallerInv, TableInv;
    if !n.strayed {
      StatusKeepsCaller(i, n.closed || n.refused, n.stage.Gone?, n.cos, calls, n.running.value, Sleeping);
      SleepsTable(n.pending, n.cos, n.running.value);
    }
  }

  lemma CallSendsWait(i: nat, n: Node, calls: Calls, to: nat, session: nat)
    requires WaitNode(i, n, calls) && Runs(n) && session > 0 && session !in n.pending
    ensures WaitNode(i, BeginCall(n, i, to, session), calls)
  {
    hide CallerInv, TableInv;
    if !n.strayed {
      StatusKeepsCaller(i, n.closed || n.refused, n.stage.Gone?, n.cos, calls, n.running.value, Calling(session));
      CallsTable(n.pending, n.cos, n.running.value, Calling(session));
    }
  }

  lemma RegistersWait(i: nat, n: Node, calls: Calls)
    requires WaitNode(i, n, calls) && n.running.Some? && n.running.value in n.cos
    requires n.cos[n.running.value].status.Registering?
    ensures WaitNode(i, Register(n), calls)
  {
    hide CallerInv, TableInv;
    var st := n.cos[n.running.value].status;
    if !n.strayed {
      StatusKeepsCaller(i, n.closed || n.refused, n.stage.Gone?, n.cos, calls, n.running.value, Waiting(st.session, st.req));
      RegistersTable(n.pending, n.cos, n.running.value);
    }
  }

  lemma WakesNode(i: nat, n: Node, calls: Calls, co: nat)
    requires NodeInv(i, n, calls) && Idle(n) && co in n.cos && (n.cos[co].status.Sleeping? || n.strayed)
    requires n.stage.Serving? || n.stage.Drained?
    ensures NodeInv(i, WithStatus(n, co, Running).(running := Some(co)), calls)
  {
    hide DutyInv, WaitNode, InboxInv, OwnInv;
    StatusKeepsDuties(i, n, calls, co, Running);
    StatusKeepsOwn(i, n.cos, calls, co, Running);
    WakesWait(i, n, calls, co);
  }

  lemma SleepsNode(i: nat, n: Node, calls: Calls)
    requires NodeInv(i, n, calls) && Runs(n)
    ensures NodeInv(i, WithStatus(n, n.running.value, Sleeping).(running := None), calls)
  {
    hide DutyInv, WaitNode, InboxInv, OwnInv;
    StatusKeepsDuties(i, n, calls, n.running.value, Sleeping);
    StatusKeepsOwn(i, n.cos, calls, n.running.value, Sleeping);
    SleepsWait(i, n, calls);
  }

  lemma CallSendsNode(i: nat, n: Node, calls: Calls, to: nat, session: nat)
    requires NodeInv(i, n, calls) && Runs(n) && 1 <= n.nextSession <= UINT32_MAX
    requires FirstFree(n.nextSession, n.pending, session)
    ensures NodeInv(i, BeginCall(n, i, to, session), calls)
  {
    hide DutyInv, WaitNode, InboxInv, OwnInv;
    StatusKeepsDuties(i, n, calls, n.running.value, Calling(session));
    StatusKeepsOwn(i, n.cos, calls, n.running.value, Calling(session));
    CallSendsWait(i, n, calls, to, session);
  }

  lemma RegistersNode(i: nat, n: Node, calls: Calls)
    requires NodeInv(i, n, calls) && Free(n) && n.running.Some? && n.running.value in n.cos
    requires n.cos[n.running.value].status.Registering?
    ensures NodeInv(i, Register(n), calls)
  {
    hide DutyInv, WaitNode, InboxInv, OwnInv;
    var st := n.cos[n.running.value].status;
    StatusKeepsDuties(i, n, calls, n.running.value, Waiting(st.session, st.req));
    OwnAt(i, n.cos, calls, n.running.value);
    StatusKeepsOwn(i, n.cos, calls, n.running.value, Waiting(st.session, st.req));
    RegistersWait(i, n, calls);
  }

  lemma OwnAt(i: nat, cos: map<nat, Co>, calls: Calls, co: nat)
    requires OwnInv(i, cos, calls) && co in cos && (cos[co].status.Registering? || cos[co].status.Waiting?)
    ensures cos[co].status.req in calls && calls[cos[co].status.req].from == i
  {
  }

  lemma YieldRaisesNode(i: nat, n: Node, calls: Calls)
    requires NodeInv(i, n, calls) && Free(n) && n.running.Some? && n.running.value in n.cos
    requires n.cos[n.running.value].status.Registering?
    ensures NodeInv(i, YieldRaised(n), calls)
  {
    hide DutyInv, InboxInv, OwnInv;
    StatusKeepsDuties(i, n, calls, n.running.value, Running);
    StatusKeepsOwn(i, n.cos, calls, n.running.value, Running);
  }

  // A message leaves the mailbox, and its token for another place.

  function Moved(calls: Calls, r: nat, place: Place): (m: Calls) {
    if r in calls then calls[r := calls[r].(place := place)] else calls
  }

  lemma MovedElsewhere(calls: Calls, r: nat, place: Place, i: nat)
    requires r in calls && LocalTo(calls[r].place, i) && (LocalTo(place, i) || (!InFlight(place) && calls[r].from == i))
    ensures forall j: nat :: j != i ==> Elsewhere(j, calls, Moved(calls, r, place))
  {
  }

  lemma TailKeepsInbox(i: nat, inbox: seq<Msg>, calls: Calls, place: Place)
    requires InboxInv(i, inbox, calls) && inbox != []
    requires !place.Queued? && !place.Replied?
    ensures InboxInv(i, inbox[1..], if inbox[0].session > 0 then Moved(calls, inbox[0].req, place) else calls)
  {
    var m, rest := inbox[0], inbox[1..];
    var now := if m.session > 0 then Moved(calls, m.req, place) else calls;
    forall k | 0 <= k < |rest| && rest[k].session > 0 ensures IsToken(rest[k], i, now) {
      assert rest[k] == inbox[k + 1];
    }
    forall r | r in now && (now[r].place == Queued(i) || now[r].place == Replied(i)) ensures Carries(rest, r) {
      var k :| 0 <= k < |inbox| && inbox[k].session > 0 && inbox[k].req == r;
      assert k > 0 && rest[k - 1] == inbox[k];
    }
  }

  lemma AcceptDuty(i: nat, n: Node, calls: Calls)
    requires DutyInv(i, n.stage, n.cos, n.nextCo, calls) && n.stage.Serving? && n.inbox != []
    requires n.inbox[0].kind == REQUEST && (n.inbox[0].session > 0 ==> IsToken(n.inbox[0], i, calls))
    ensures var r := Receive(n);
      DutyInv(i, r.stage, r.cos, r.nextCo,
              if n.inbox[0].session > 0 then Moved(calls, n.inbox[0].req, Held(i, n.nextCo)) else calls)
  {
  }

  // SendInv, WaitInv and DutyInv see nothing of a token that moves inside node i,
  // or is settled there, but where they look.
  lemma MoveKeepsSend(i: nat, n: Node, calls: Calls, r: nat, place: Place)
    requires SendInv(i, n.outgoing, n.running, n.cos, calls) && n.outgoing.None?
    requires r in calls && !place.Sending?
    ensures SendInv(i, None, n.running, n.cos, Moved(calls, r, place))
  {
  }

  lemma MoveKeepsWait(i: nat, n: Node, calls: Calls, r: nat, place: Place)
    requires WaitNode(i, n, calls) && r in calls && InFlight(calls[r].place) && InFlight(place)
    ensures WaitNode(i, n, Moved(calls, r, place))
  {
  }

  lemma MoveKeepsDuty(i: nat, n: Node, calls: Calls, r: nat, place: Place)
    requires DutyInv(i, n.stage, n.cos, n.nextCo, calls)
    requires r in calls && !calls[r].place.Held? && !place.Held?
    ensures DutyInv(i, n.stage, n.cos, n.nextCo, Moved(calls, r, place))
  {
  }

  lemma AcceptWait(i: nat, n: Node, calls: Calls)
    requires WaitNode(i, n, calls) && n.running.None? && n.inbox != [] && n.inbox[0].kind == REQUEST && n.nextCo !in n.cos
    ensures WaitNode(i, Receive(n), calls)
  {
  }

  // The reply at the head is for a coroutine that waits for that very request, if no yield
  // has raised.
  lemma ReplyFindsCaller(i: nat, n: Node, calls: Calls)
    requires InboxInv(i, n.inbox, calls) && WaitNode(i, n, calls) && !n.strayed && Idle(n) && n.inbox != [] && !n.stage.Gone?
    requires n.inbox[0].kind != REQUEST && n.inbox[0].session > 0
    ensures var m := n.inbox[0];
      && m.session in n.pending && n.pending[m.session] in n.cos
      && n.cos[n.pending[m.session]].status == Waiting(m.session, m.req) && m.req in calls && calls[m.req].place == Replied(i)
      && calls[m.req].from == i
  {
    var m := n.inbox[0];
    assert IsToken(m, i, calls);
    assert Waits(n.cos, calls[m.req].co, m.session, m.req);
  }

  lemma ResumeWait(i: nat, n: Node, calls: Calls, session: nat, r: nat)
    requires WaitNode(i, n, calls) && n.running.None? && session in n.pending
    requires n.pending[session] in n.cos && n.cos[n.pending[session]].status == Waiting(session, r)
    ensures WaitNode(i, Resume(n, session), Moved(calls, r, Consumed))
  {
  }

  // The token of a popped reply is at the service that called.
  lemma ReplyIsHere(i: nat, n: Node, calls: Calls)
    requires InboxInv(i, n.inbox, calls) && n.inbox != [] && n.inbox[0].kind != REQUEST
    ensures var m := n.inbox[0];
      m.session > 0 && m.req in calls && calls[m.req].place == Replied(i) && calls[m.req].from == i
  {
    HeadIsToken(i, n, calls);
  }

  // Whatever coroutine a reply meets, the rest of the service stays as it should be.
  lemma ReplyNode(i: nat, n: Node, calls: Calls, place: Place)
    requires NodeInv(i, n, calls) && n.stage.Serving? && Idle(n) && n.inbox != [] && n.inbox[0].kind != REQUEST
    requires place == Consumed || place == Lost
    requires WaitNode(i, Receive(n), Moved(calls, n.inbox[0].req, place))
    ensures NodeInv(i, Receive(n), Moved(calls, n.inbox[0].req, place))
  {
    hide DutyInv, WaitNode, SendInv, InboxInv, OwnInv;
    ReplyIsHere(i, n, calls);
    var m := n.inbox[0];
    var now := Moved(calls, m.req, place);
    TailKeepsInbox(i, n.inbox, calls, place);
    MoveKeepsDuty(i, n, calls, m.req, place);
    MoveKeepsOwn(i, n.cos, calls, m.req, place);
    if m.session in n.pending && n.pending[m.session] in n.cos {
      StatusKeepsDuties(i, n, now, n.pending[m.session], Running);
      StatusKeepsOwn(i, n.cos, now, n.pending[m.session], Running);
    }
    MoveKeepsSend(i, n, calls, m.req, place);
    FreeKeepsSend(i, n, Receive(n), now);
  }

  lemma MoveKeepsOwn(i: nat, cos: map<nat, Co>, calls: Calls, r: nat, place: Place)
    requires OwnInv(i, cos, calls)
    ensures OwnInv(i, cos, Moved(calls, r, place))
  {
  }

  lemma StatusKeepsOwn(i: nat, cos: map<nat, Co>, calls: Calls, co: nat, status: Status)
    requires OwnInv(i, cos, calls) && co in cos
    requires status.Registering? || status.Waiting? ==> status.req in calls && calls[status.req].from == i
    ensures OwnInv(i, cos[co := cos[co].(status := status)], calls)
  {
  }

  lemma AcceptOwn(i: nat, n: Node, calls: Calls)
    requires OwnInv(i, n.cos, calls) && n.inbox != [] && n.inbox[0].kind == REQUEST
    ensures OwnInv(i, Receive(n).cos, calls)
  {
  }

  lemma PopNode(i: nat, n: Node, calls: Calls)
    requires NodeInv(i, n, calls) && n.stage.Serving? && Idle(n) && n.inbox != []
    ensures var m := n.inbox[0];
      && (m.session == 0 ==> NodeInv(i, Receive(n), calls))
      && (m.session > 0 && m.kind == REQUEST ==> NodeInv(i, Receive(n), Moved(calls, m.req, Held(i, n.nextCo))))
      && (m.session > 0 && m.kind != REQUEST ==> NodeInv(i, Receive(n), Moved(calls, m.req, Consumed)))
      && (m.session > 0 && m.kind != REQUEST && n.strayed ==> NodeInv(i, Receive(n), Moved(calls, m.req, Lost)))
    ensures var m := n.inbox[0];
      && (m.session > 0 ==> m.req in calls && LocalTo(calls[m.req].place, i))
      && (m.session == 0 ==> m.kind == REQUEST)
      && (m.session > 0 && m.kind != REQUEST ==>
            && calls[m.req].place == Replied(i) && calls[m.req].from == i
            && (!n.strayed ==>
                  && m.session in n.pending && n.pending[m.session] in n.cos
                  && n.cos[n.pending[m.session]].status == Waiting(m.session, m.req)))
      && (m.session > 0 && m.kind == REQUEST ==> calls[m.req].place == Queued(i) && calls[m.req].to == i)
  {
    hide DutyInv, WaitInv, SendInv, InboxInv, OwnInv;
    HeadIsToken(i, n, calls);
    var m := n.inbox[0];
    if m.kind == REQUEST {
      TailKeepsInbox(i, n.inbox, calls, Held(i, n.nextCo));
      FreshCo(i, n, calls);
      AcceptDuty(i, n, calls);
      AcceptWait(i, n, calls);
      AcceptOwn(i, n, calls);
      if m.session > 0 {
        MoveKeepsWait(i, Receive(n), calls, m.req, Held(i, n.nextCo));
        MoveKeepsOwn(i, Receive(n).cos, calls, m.req, Held(i, n.nextCo));
        MoveKeepsSend(i, n, calls, m.req, Held(i, n.nextCo));
        FreeKeepsSend(i, n, Receive(n), Moved(calls, m.req, Held(i, n.nextCo)));
      } else {
        FreeKeepsSend(i, n, Receive(n), calls);
      }
    } else {
      ReplyIsHere(i, n, calls);
      if n.strayed {
        ReplyNode(i, n, calls, Lost);
      } else {
        ReplyFindsCaller(i, n, calls);
        ResumeWait(i, n, calls, m.session, m.req);
      }
      ReplyNode(i, n, calls, Consumed);
    }
  }

  lemma HeadIsToken(i: nat, n: Node, calls: Calls)
    requires InboxInv(i, n.inbox, calls) && n.inbox != []
    ensures n.inbox[0].session > 0 ==> IsToken(n.inbox[0], i, calls)
    ensures n.inbox[0].session == 0 ==> n.inbox[0].kind == REQUEST
  {
  }

  lemma FreshCo(i: nat, n: Node, calls: Calls)
    requires DutyInv(i, n.stage, n.cos, n.nextCo, calls)
    ensures n.nextCo !in n.cos
  {
  }

  // With nothing outgoing SendInv is about calls alone.
  lemma FreeKeepsSend(i: nat, n: Node, r: Node, calls: Calls)
    requires SendInv(i, n.outgoing, n.running, n.cos, calls) && n.outgoing.None? && r.outgoing.None?
    ensures SendInv(i, r.outgoing, r.running, r.cos, calls)
  {
  }

  // A reply leaves for the caller.

  lemma ReplyKeepsSend(i: nat, n: Node, r: Node, calls: Calls, duty: Duty, kind: Kind)
    requires SendInv(i, n.outgoing, n.running, n.cos, calls) && n.outgoing.None?
    requires r.outgoing == Reply(i, duty, kind) && kind != REQUEST && duty.session > 0
    requires duty.req in calls && calls[duty.req].from == duty.from && calls[duty.req].session == duty.session
    ensures SendInv(i, r.outgoing, r.running, r.cos, Moved(calls, duty.req, Sending(i)))
  {
  }

  lemma EndDuty(i: nat, n: Node, calls: Calls, co: nat)
    requires DutyInv(i, n.stage, n.cos, n.nextCo, calls) && co in n.cos && !n.stage.Passing?
    ensures var duty := n.cos[co].duty;
      && (Owes(duty) ==> IsDuty(i, co, duty, calls))
      && DutyInv(i, n.stage, n.cos - {co}, n.nextCo, if Owes(duty) then Moved(calls, duty.req, Sending(i)) else calls)
  {
  }

  lemma PassDuty(i: nat, n: Node, calls: Calls, co: nat)
    requires DutyInv(i, n.stage, n.cos, n.nextCo, calls) && n.stage.Passing? && co in n.stage.todo
    ensures co in n.cos
    ensures var duty := n.cos[co].duty;
      && (Owes(duty) ==> IsDuty(i, co, duty, calls))
      && DutyInv(i, Passing(n.stage.todo - {co}), n.cos, n.nextCo,
                 if Owes(duty) then Moved(calls, duty.req, Sending(i)) else calls)
  {
    assert Owes(n.cos[co].duty) ==> Unmet(n.stage, n.cos, co);
  }

  lemma EndWait(i: nat, n: Node, calls: Calls)
    requires WaitNode(i, n, calls) && Runs(n)
    ensures WaitNode(i, n.(cos := n.cos - {n.running.value}, running := None), calls)
  {
  }

  lemma MoveKeepsInbox(i: nat, inbox: seq<Msg>, calls: Calls, r: nat, place: Place)
    requires InboxInv(i, inbox, calls) && r in calls && !calls[r].place.Queued? && !calls[r].place.Replied?
    requires !place.Queued? && !place.Replied?
    ensures InboxInv(i, inbox, Moved(calls, r, place))
  {
  }

  lemma EndNode(i: nat, n: Node, calls: Calls, failed: bool)
    requires NodeInv(i, n, calls) && Runs(n)
    ensures var duty := n.cos[n.running.value].duty;
      && (Owes(duty) ==> IsDuty(i, n.running.value, duty, calls))
      && NodeInv(i, End(n, i, failed), if Owes(duty) then Moved(calls, duty.req, Sending(i)) else calls)
  {
    hide DutyInv, WaitInv, SendInv, InboxInv;
    var co := n.running.value;
    var duty := n.cos[co].duty;
    EndDuty(i, n, calls, co);
    EndWait(i, n, calls);
    if Owes(duty) {
      MoveKeepsWait(i, End(n, i, failed), calls, duty.req, Sending(i));
      MoveKeepsInbox(i, n.inbox, calls, duty.req, Sending(i));
      ReplyKeepsSend(i, n, End(n, i, failed), calls, duty, if failed then ERROR else RESPONSE);
    } else {
      FreeKeepsSend(i, n, End(n, i, failed), calls);
    }
  }

  lemma PassNode(i: nat, n: Node, calls: Calls, co: nat)
    requires NodeInv(i, n, calls) && n.stage.Passing? && Free(n) && co in n.stage.todo
    ensures co in n.cos
    ensures var duty := n.cos[co].duty;
      && (Owes(duty) ==> IsDuty(i, co, duty, calls))
      && NodeInv(i, Pass(n, i, co), if Owes(duty) then Moved(calls, duty.req, Sending(i)) else calls)
  {
    hide DutyInv, WaitInv, SendInv, InboxInv;
    PassDuty(i, n, calls, co);
    var duty := n.cos[co].duty;
    if Owes(duty) {
      MoveKeepsWait(i, n, calls, duty.req, Sending(i));
      MoveKeepsInbox(i, n.inbox, calls, duty.req, Sending(i));
      ReplyKeepsSend(i, n, Pass(n, i, co), calls, duty, STOPPED);
    } else {
      FreeKeepsSend(i, n, Pass(n, i, co), calls);
    }
  }

  lemma LostWait(i: nat, n: Node, calls: Calls, r: nat)
    requires WaitNode(i, n, calls) && (n.closed || n.refused) && r in calls && InFlight(calls[r].place)
    ensures WaitNode(i, n, Moved(calls, r, Lost))
  {
  }

  lemma DrainNode(i: nat, n: Node, calls: Calls)
    requires NodeInv(i, n, calls) && n.stage.Draining? && Free(n)
    ensures n.inbox == [] ==> NodeInv(i, Drain(n, i), calls)
    ensures n.inbox != [] ==>
      var m := n.inbox[0];
      && (m.session > 0 ==> IsToken(m, i, calls)) && (m.session == 0 ==> m.kind == REQUEST)
      && NodeInv(i, Drain(n, i), if m.session == 0 then calls else Moved(calls, m.req, if m.kind == REQUEST then Sending(i) else Lost))
  {
    hide DutyInv, WaitInv, SendInv, InboxInv;
    if n.inbox == [] {
      DrainedDuty(i, n, calls);
    } else {
      HeadIsToken(i, n, calls);
      var m := n.inbox[0];
      var place := if m.kind == REQUEST then Sending(i) else Lost;
      TailKeepsInbox(i, n.inbox, calls, place);
      if m.session == 0 {
        FreeKeepsSend(i, n, Drain(n, i), calls);
      } else {
        MoveKeepsDuty(i, n, calls, m.req, place);
        if m.kind == REQUEST {
          MoveKeepsWait(i, n, calls, m.req, place);
          ReplyKeepsSend(i, n, Drain(n, i), calls, Duty(m.from, m.session, m.req), STOPPED);
        } else {
          LostWait(i, n, calls, m.req);
          MoveKeepsSend(i, n, calls, m.req, Lost);
          FreeKeepsSend(i, n, Drain(n, i), Moved(calls, m.req, Lost));
        }
      }
    }
  }

  lemma DrainedDuty(i: nat, n: Node, calls: Calls)
    requires DutyInv(i, n.stage, n.cos, n.nextCo, calls) && !n.stage.Passing?
    ensures DutyInv(i, Drained, n.cos, n.nextCo, calls)
  {
    assert forall co :: Unmet(Drained, n.cos, co) <==> Unmet(n.stage, n.cos, co);
  }

  // A push: the sender goes on, the message is in the mailbox it went to or nowhere

  lemma SentIs(n: Node, accepted: bool, req: nat)
    requires n.outgoing.Some?
    ensures var r := Sent(n, accepted, req); r == n.(outgoing := None, cos := r.cos)
  {
  }

  lemma DeliveredIs(n: Node, m: Msg, ok: bool)
    ensures Delivered(n, m, ok) == n.(inbox := if ok && !n.closed then n.inbox + [m] else n.inbox,
                                      refused := n.refused || (!n.closed && !ok && m.kind != REQUEST))
  {
  }

  lemma PushIs(s: Sys, i: nat, ok: bool)
    requires i < |s.nodes| && s.nodes[i].outgoing.Some?
    ensures var t, out := ApplyPush(s, i, ok), s.nodes[i].outgoing.value;
      var accepted := ok && out.to < |s.nodes| && !s.nodes[out.to].closed;
      var m := if out.msg.kind == REQUEST then out.msg.(req := s.nextReq) else out.msg;
      var nodes := s.nodes[i := Sent(s.nodes[i], accepted, s.nextReq)];
      && t.strays == s.strays
      && t.nodes == if out.to < |nodes| then nodes[out.to := Delivered(nodes[out.to], m, ok)] else nodes
  {
    hide Sent, Delivered;
  }

  // What a push changes, node by node
  lemma PushedNode(s: Sys, i: nat, ok: bool, j: nat)
    requires i < |s.nodes| && j < |s.nodes| && s.nodes[i].outgoing.Some?
    ensures var t := ApplyPush(s, i, ok);
      var out := s.nodes[i].outgoing.value;
      var was, now := s.nodes[j], t.nodes[j];
      var accepted := ok && out.to < |s.nodes| && !s.nodes[out.to].closed;
      && |t.nodes| == |s.nodes|
      && now == was.(outgoing := now.outgoing, cos := now.cos, inbox := now.inbox, refused := now.refused)
      && t.strays == s.strays
      && now.outgoing == (if j == i then None else was.outgoing)
      && now.cos == (if j == i then Sent(was, accepted, s.nextReq).cos else was.cos)
      && now.inbox == (if j == out.to && accepted then
                         was.inbox + [if out.msg.kind == REQUEST then out.msg.(req := s.nextReq) else out.msg]
                       else was.inbox)
      && now.refused == (was.refused || (j == out.to && !accepted && !was.closed && out.msg.kind != REQUEST))
  {
    hide Sent, Delivered, ApplyPush;
    var out := s.nodes[i].outgoing.value;
    var accepted := ok && out.to < |s.nodes| && !s.nodes[out.to].closed;
    var m := if out.msg.kind == REQUEST then out.msg.(req := s.nextReq) else out.msg;
    PushIs(s, i, ok);
    SentIs(s.nodes[i], accepted, s.nextReq);
    DeliveredIs(if j == i then Sent(s.nodes[i], accepted, s.nextReq) else s.nodes[j], m, ok);
  }

  lemma AppendCarries(i: nat, inbox: seq<Msg>, was: Calls, now: Calls, m: Msg, r: nat)
    requires InboxInv(i, inbox, was) && r in now && (now[r].place == Queued(i) || now[r].place == Replied(i))
    requires m.session == 0 ==> now == was
    requires m.session > 0 ==> m.req in now && now == was[m.req := now[m.req]]
    ensures Carries(inbox + [m], r)
  {
    var all := inbox + [m];
    if m.session > 0 && r == m.req {
      assert all[|inbox|] == m;
    } else {
      var k :| 0 <= k < |inbox| && inbox[k].session > 0 && inbox[k].req == r;
      assert all[k] == inbox[k];
    }
  }

  lemma AppendToken(i: nat, inbox: seq<Msg>, was: Calls, now: Calls, m: Msg, k: nat)
    requires InboxInv(i, inbox, was) && k < |inbox| && inbox[k].session > 0
    requires m.session == 0 ==> now == was
    requires m.session > 0 ==> m.req in now && now == was[m.req := now[m.req]]
    requires m.session > 0 && m.req in was ==> !was[m.req].place.Queued? && !was[m.req].place.Replied?
    ensures IsToken(inbox[k], i, now) && (m.session > 0 ==> inbox[k].req != m.req)
  {
    assert IsToken(inbox[k], i, was);
  }

  lemma AppendKeepsInbox(i: nat, inbox: seq<Msg>, was: Calls, now: Calls, m: Msg)
    requires InboxInv(i, inbox, was)
    requires m.session == 0 ==> m.kind == REQUEST && now == was
    requires m.session > 0 ==> IsToken(m, i, now) && (m.req in was ==> !was[m.req].place.Queued? && !was[m.req].place.Replied?)
    requires m.session > 0 ==> now == was[m.req := now[m.req]]
    ensures InboxInv(i, inbox + [m], now)
  {
    hide Carries;
    assert m.session > 0 ==> m.req in now;
    var all := inbox + [m];
    forall k | 0 <= k < |inbox| && inbox[k].session > 0
      ensures IsToken(inbox[k], i, now) && (m.session > 0 ==> inbox[k].req != m.req)
    {
      AppendToken(i, inbox, was, now, m, k);
    }
    forall r | r in now && (now[r].place == Queued(i) || now[r].place == Replied(i)) ensures Carries(all, r) {
      AppendCarries(i, inbox, was, now, m, r);
    }
    assert forall k :: 0 <= k < |all| ==> all[k] == if k < |inbox| then inbox[k] else m;
  }

  // calls before and after a push: at most the entry of r differs.
  ghost predicate OneEntry(r: nat, was: Calls, now: Calls) {
    && r in now && now == was[r := now[r]]
    && (r in was ==> now[r] == was[r].(place := now[r].place))
  }

  lemma EntryKeepsInbox(j: nat, inbox: seq<Msg>, r: nat, was: Calls, now: Calls)
    requires InboxInv(j, inbox, was) && OneEntry(r, was, now)
    requires r in was ==> was[r].place != Queued(j) && was[r].place != Replied(j)
    requires now[r].place != Queued(j) && now[r].place != Replied(j)
    ensures InboxInv(j, inbox, now)
  {
  }

  lemma EntryKeepsDuty(j: nat, n: Node, r: nat, was: Calls, now: Calls)
    requires DutyInv(j, n.stage, n.cos, n.nextCo, was) && OneEntry(r, was, now)
    requires (r in was ==> !was[r].place.Held?) && !now[r].place.Held?
    ensures DutyInv(j, n.stage, n.cos, n.nextCo, now)
  {
  }

  lemma EntryKeepsSend(j: nat, n: Node, r: nat, was: Calls, now: Calls)
    requires SendInv(j, n.outgoing, n.running, n.cos, was) && OneEntry(r, was, now)
    requires (r in was ==> was[r].place != Sending(j)) && now[r].place != Sending(j)
    ensures SendInv(j, n.outgoing, n.running, n.cos, now)
  {
  }

  lemma EntryKeepsWait(j: nat, n: Node, r: nat, was: Calls, now: Calls)
    requires WaitNode(j, n, was) && OneEntry(r, was, now)
    requires r in was && was[r].from == j ==>
      InFlight(was[r].place) && (InFlight(now[r].place) || (now[r].place == Lost && (n.closed || n.refused)))
    requires r !in was ==> now[r].from != j
    ensures WaitNode(j, n, now)
  {
  }

  lemma RefusedWait(j: nat, n: Node, calls: Calls)
    requires WaitNode(j, n, calls)
    ensures WaitNode(j, n.(refused := true), calls)
  {
  }

  // What the sender is about to push, and what its push makes of calls
  ghost predicate PushCalls(s: Sys, i: nat, ok: bool, now: Calls)
    requires i < |s.nodes| && s.nodes[i].outgoing.Some?
  {
    var out, running := s.nodes[i].outgoing.value, s.nodes[i].running;
    var accepted := ok && out.to < |s.nodes| && !s.nodes[out.to].closed;
    if out.msg.kind != REQUEST then
      && out.msg.session > 0 && out.msg.req in s.calls && s.calls[out.msg.req].place == Sending(i)
      && s.calls[out.msg.req].from == out.to && s.calls[out.msg.req].session == out.msg.session
      && now == Moved(s.calls, out.msg.req, if accepted then Replied(out.to) else Lost)
    else if out.msg.session > 0 && accepted then
      && running.Some? && running.value in s.nodes[i].cos && s.nodes[i].cos[running.value].status == Calling(out.msg.session)
      && out.msg.from == i && s.nextReq !in s.calls
      && now == s.calls[s.nextReq := Call(i, running.value, out.msg.session, out.to, Queued(out.to))]
    else now == s.calls
  }

  lemma PushedCalls(s: Sys, i: nat, ok: bool)
    requires i < |s.nodes| && s.nodes[i].outgoing.Some?
    requires SendInv(i, s.nodes[i].outgoing, s.nodes[i].running, s.nodes[i].cos, s.calls)
    requires CallsInv(s.calls, |s.nodes|, s.nextReq)
    ensures PushCalls(s, i, ok, ApplyPush(s, i, ok).calls)
  {
  }

  lemma PushKeepsInbox(s: Sys, i: nat, ok: bool, j: nat)
    requires i < |s.nodes| && j < |s.nodes| && s.nodes[i].outgoing.Some?
    requires SendInv(i, s.nodes[i].outgoing, s.nodes[i].running, s.nodes[i].cos, s.calls)
    requires PushCalls(s, i, ok, ApplyPush(s, i, ok).calls) && InboxInv(j, s.nodes[j].inbox, s.calls)
    ensures InboxInv(j, ApplyPush(s, i, ok).nodes[j].inbox, ApplyPush(s, i, ok).calls)
  {
    hide InboxInv, ApplyPush;
    PushedNode(s, i, ok, j);
    var out := s.nodes[i].outgoing.value;
    var now := ApplyPush(s, i, ok).calls;
    var accepted := ok && out.to < |s.nodes| && !s.nodes[out.to].closed;
    var m := if out.msg.kind == REQUEST then out.msg.(req := s.nextReq) else out.msg;
    if j == out.to && accepted {
      AppendKeepsInbox(j, s.nodes[j].inbox, s.calls, now, m);
    } else if now != s.calls {
      EntryKeepsInbox(j, s.nodes[j].inbox, m.req, s.calls, now);
    }
  }

  lemma PushKeepsDuty(s: Sys, i: nat, ok: bool, j: nat)
    requires i < |s.nodes| && j < |s.nodes| && s.nodes[i].outgoing.Some?
    requires PushCalls(s, i, ok, ApplyPush(s, i, ok).calls)
    requires DutyInv(j, s.nodes[j].stage, s.nodes[j].cos, s.nodes[j].nextCo, s.calls)
    ensures var n := ApplyPush(s, i, ok).nodes[j];
      DutyInv(j, n.stage, n.cos, n.nextCo, ApplyPush(s, i, ok).calls)
  {
    hide DutyInv, ApplyPush;
    PushedNode(s, i, ok, j);
    var out := s.nodes[i].outgoing.value;
    var now := ApplyPush(s, i, ok).calls;
    if now != s.calls {
      EntryKeepsDuty(j, s.nodes[j], if out.msg.kind == REQUEST then s.nextReq else out.msg.req, s.calls, now);
    }
    var n, running := s.nodes[j], s.nodes[j].running;
    if j == i && running.Some? && running.value in n.cos {
      StatusKeepsDuties(j, n, now, running.value, Running);
      StatusKeepsDuties(j, n, now, running.value, Registering(out.msg.session, s.nextReq));
    }
  }

  lemma PushKeepsSend(s: Sys, i: nat, ok: bool, j: nat)
    requires i < |s.nodes| && j < |s.nodes| && s.nodes[i].outgoing.Some?
    requires PushCalls(s, i, ok, ApplyPush(s, i, ok).calls)
    requires SendInv(j, s.nodes[j].outgoing, s.nodes[j].running, s.nodes[j].cos, s.calls)
    ensures var n := ApplyPush(s, i, ok).nodes[j];
      SendInv(j, n.outgoing, n.running, n.cos, ApplyPush(s, i, ok).calls)
  {
    hide ApplyPush;
    PushedNode(s, i, ok, j);
    var out := s.nodes[i].outgoing.value;
    var now := ApplyPush(s, i, ok).calls;
    if j != i && now != s.calls {
      EntryKeepsSend(j, s.nodes[j], if out.msg.kind == REQUEST then s.nextReq else out.msg.req, s.calls, now);
    }
  }

  lemma NewCaller(i: nat, turned: bool, gone: bool, cos: map<nat, Co>, was: Calls, co: nat, session: nat, r: nat, to: nat)
    requires CallerInv(i, turned, gone, cos, was) && co in cos && cos[co].status == Calling(session) && session > 0 && r !in was
    ensures CallerInv(i, turned, gone, cos[co := cos[co].(status := Registering(session, r))],
                      was[r := Call(i, co, session, to, Queued(to))])
  {
    var now := cos[co := cos[co].(status := Registering(session, r))];
    forall q | q in was && was[q].from == i && InFlight(was[q].place)
      ensures gone || Waits(now, was[q].co, was[q].session, q)
    {
      assert gone || Waits(cos, was[q].co, was[q].session, q);
    }
  }

  lemma SentWait(i: nat, n: Node, was: Calls, now: Calls, accepted: bool, r: nat, to: nat)
    requires WaitNode(i, n, was) && n.outgoing.Some? && n.running.Some? && n.running.value in n.cos
    requires n.outgoing.value.msg.kind == REQUEST && n.outgoing.value.msg.session > 0
    requires n.cos[n.running.value].status == Calling(n.outgoing.value.msg.session)
    requires accepted ==> r !in was && now == was[r := Call(i, n.running.value, n.outgoing.value.msg.session, to, Queued(to))]
    requires !accepted ==> now == was
    ensures WaitNode(i, n.(cos := Sent(n, accepted, r).cos), now)
  {
    hide CallerInv, TableInv;
    var co, session := n.running.value, n.outgoing.value.msg.session;
    if !n.strayed {
      CallingIsFree(n.pending, n.cos, co);
      CallsTable(n.pending, n.cos, co, Running);
      CallsTable(n.pending, n.cos, co, Registering(session, r));
      if accepted {
        NewCaller(i, n.closed || n.refused, n.stage.Gone?, n.cos, was, co, session, r, to);
      } else {
        StatusKeepsCaller(i, n.closed || n.refused, n.stage.Gone?, n.cos, was, co, Running);
      }
    }
  }

  lemma CallingIsFree(pending: map<nat, nat>, cos: map<nat, Co>, co: nat)
    requires TableInv(pending, cos, Some(co)) && cos[co].status.Calling?
    ensures cos[co].status.session !in pending
  {
  }

  lemma PushKeepsWait(s: Sys, i: nat, ok: bool, j: nat)
    requires i < |s.nodes| && j < |s.nodes| && s.nodes[i].outgoing.Some?
    requires SendInv(i, s.nodes[i].outgoing, s.nodes[i].running, s.nodes[i].cos, s.calls)
    requires PushCalls(s, i, ok, ApplyPush(s, i, ok).calls) && WaitNode(j, s.nodes[j], s.calls)
    ensures WaitNode(j, ApplyPush(s, i, ok).nodes[j], ApplyPush(s, i, ok).calls)
  {
    hide WaitInv, ApplyPush;
    PushedNode(s, i, ok, j);
    var out, n := s.nodes[i].outgoing.value, s.nodes[j];
    var now := ApplyPush(s, i, ok).calls;
    var accepted := ok && out.to < |s.nodes| && !s.nodes[out.to].closed;
    if out.msg.kind == REQUEST && out.msg.session > 0 {
      if j == i {
        SentWait(i, n, s.calls, now, accepted, s.nextReq, out.to);
      } else if accepted {
        EntryKeepsWait(j, n, s.nextReq, s.calls, now);
      }
    } else if out.msg.kind != REQUEST {
      RefusedWait(j, n, s.calls);
      EntryKeepsWait(j, ApplyPush(s, i, ok).nodes[j], out.msg.req, s.calls, now);
    }
  }

  lemma PushKeepsOwn(s: Sys, i: nat, ok: bool, j: nat)
    requires i < |s.nodes| && j < |s.nodes| && s.nodes[i].outgoing.Some?
    requires PushCalls(s, i, ok, ApplyPush(s, i, ok).calls) && OwnInv(j, s.nodes[j].cos, s.calls)
    requires SendInv(i, s.nodes[i].outgoing, s.nodes[i].running, s.nodes[i].cos, s.calls)
    ensures OwnInv(j, ApplyPush(s, i, ok).nodes[j].cos, ApplyPush(s, i, ok).calls)
  {
    hide ApplyPush;
    PushedNode(s, i, ok, j);
  }

  lemma PushKeepsStage(s: Sys, i: nat, ok: bool, j: nat)
    requires i < |s.nodes| && j < |s.nodes| && s.nodes[i].outgoing.Some?
    requires StageInv(s.nodes[i]) && StageInv(s.nodes[j])
    ensures StageInv(ApplyPush(s, i, ok).nodes[j])
  {
    hide ApplyPush;
    PushedNode(s, i, ok, j);
  }

  lemma PushKeepsNodes(s: Sys, i: nat, ok: bool)
    requires i < |s.nodes| && s.nodes[i].outgoing.Some? && NodesInv(s.nodes, s.calls)
    requires CallsInv(s.calls, |s.nodes|, s.nextReq)
    ensures NodesInv(ApplyPush(s, i, ok).nodes, ApplyPush(s, i, ok).calls)
    ensures PushCalls(s, i, ok, ApplyPush(s, i, ok).calls)
  {
    hide InboxInv, DutyInv, SendInv, OwnInv, WaitNode, StageInv, ApplyPush, PushCalls, CallsInv;
    assert NodeInv(i, s.nodes[i], s.calls);
    PushedCalls(s, i, ok);
    var t := ApplyPush(s, i, ok);
    PushedNode(s, i, ok, i);
    forall j | 0 <= j < |t.nodes| ensures NodeInv(j, t.nodes[j], t.calls) {
      assert NodeInv(j, s.nodes[j], s.calls);
      PushKeepsInbox(s, i, ok, j);
      PushKeepsDuty(s, i, ok, j);
      PushKeepsSend(s, i, ok, j);
      PushKeepsWait(s, i, ok, j);
      PushKeepsOwn(s, i, ok, j);
      PushKeepsStage(s, i, ok, j);
    }
  }
}
