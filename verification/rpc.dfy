// Calls between services: the Lua side of each service (sessions, coroutines,
// the duty to reply) with the mailboxes between them.
//
// A step is what one service thread does up to its next send, or one send. Lua
// tables belong to one thread, so that what happens to them between two sends is
// seen by nobody else.
module Rpc {
  import opened Wire

  const UINT32_MAX := 0xFFFF_FFFF

  // An ERROR has the error packed in; STOPPED is an ERROR without payload, which call reports
  // as the target's having stopped.
  datatype Kind = REQUEST | RESPONSE | ERROR | STOPPED

  // req numbers the accepted requests; a reply carries the number of the request
  // it answers. No code reads it: what the code goes by is the session.
  datatype Msg = Msg(kind: Kind, from: nat, session: nat, req: nat)

  // session_coroutine_address and session_coroutine_response of one coroutine
  datatype Duty = Duty(from: nat, session: nat, req: nat)

  datatype Status =
    | Running
    | Calling(session: nat)
    | Registering(session: nat, req: nat)
    | Waiting(session: nat, req: nat)
    | Sleeping

  datatype Co = Co(status: Status, duty: Duty)

  // Draining is service_drain_mailbox; Passing is reply_pending, todo the
  // coroutines it has not come to.
  datatype Stage = Booting | Serving | Draining | Drained | Passing(todo: set<nat>) | Gone

  datatype Outgoing = Outgoing(to: nat, msg: Msg)

  // refused: a reply to it was turned away although its mailbox was open
  // strayed: the yield of a call has raised, as it does across a C function, after the call
  // entered the table; from then on a reply may meet a coroutine that is not waiting for it
  datatype Node = Node(
    stage: Stage, closed: bool, refused: bool, inbox: seq<Msg>, outgoing: Option<Outgoing>,
    nextSession: nat, pending: map<nat, nat>, cos: map<nat, Co>, running: Option<nat>, nextCo: nat,
    strayed: bool)

  // Where a request, or the reply to it, is
  datatype Place =
    | Queued(node: nat)
    | Held(node: nat, co: nat)
    | Sending(node: nat)
    | Replied(node: nat)
    | Consumed
    | Lost

  // An accepted request with a session
  datatype Call = Call(from: nat, co: nat, session: nat, to: nat, place: Place)

  // replies  the requests replies were sent for, in order
  // resumes  for each call resumed, its request and the request of the reply
  // strays   the services that have strayed
  datatype Sys = Sys(
    nodes: seq<Node>, calls: map<nat, Call>, nextReq: nat, replies: seq<nat>, resumes: seq<(nat, nat)>, strays: set<nat>)

  const NEW_NODE := Node(Booting, false, false, [], None, 1, map[], map[], None, 0, false)

  const EMPTY := Sys([], map[], 0, [], [], {})

  // allocate_session

  // The session k places after first, 1 following UINT32_MAX
  function Slot(first: nat, k: nat): nat
    requires 1 <= first <= UINT32_MAX && k <= UINT32_MAX
  {
    if first + k <= UINT32_MAX then first + k else first + k - UINT32_MAX
  }

  function NextSlot(session: nat): nat {
    if session == UINT32_MAX then 1 else session + 1
  }

  // session is the first one from first on that no call is pending on.
  ghost predicate FirstFree(first: nat, pending: map<nat, nat>, session: nat)
    requires 1 <= first <= UINT32_MAX
  {
    && session !in pending
    && exists k :: 0 <= k < UINT32_MAX && session == Slot(first, k) && forall j :: 0 <= j < k ==> Slot(first, j) in pending
  }

  ghost predicate AllPending(pending: map<nat, nat>) {
    forall session :: 1 <= session <= UINT32_MAX ==> session in pending
  }

  datatype Step =
    | Spawns
    | Serves(i: nat)
    | Closes(i: nat)
    | Pops(i: nat)
    | Wakes(i: nat, co: nat)
    | CallSends(i: nat, to: nat, session: nat)
    | Registers(i: nat)
    | YieldRaises(i: nat)
    | Posts(i: nat, to: nat)
    | Sleeps(i: nat)
    | Ends(i: nat, failed: bool)
    | Pushes(i: nat, ok: bool)
    | DrainBegins(i: nat)
    | Drains(i: nat)
    | PassBegins(i: nat)
    | Passes(i: nat, co: nat)
    | Exits(i: nat)

  // The thread is not inside a send.
  predicate Free(n: Node) {
    n.outgoing.None?
  }

  predicate Idle(n: Node) {
    Free(n) && n.running.None?
  }

  // Lua code of a coroutine is running.
  predicate Runs(n: Node) {
    Free(n) && n.running.Some? && n.running.value in n.cos && n.cos[n.running.value].status.Running?
  }

  ghost predicate Enabled(s: Sys, step: Step) {
    match step
    case Spawns => true
    case Serves(i) => i < |s.nodes| && s.nodes[i].stage.Booting?
    case Closes(i) => i < |s.nodes|
    case Pops(i) => i < |s.nodes| && s.nodes[i].stage.Serving? && Idle(s.nodes[i]) && s.nodes[i].inbox != []
    case Wakes(i, co) =>
      && i < |s.nodes| && (s.nodes[i].stage.Serving? || s.nodes[i].stage.Drained?) && Idle(s.nodes[i])
      && co in s.nodes[i].cos && (s.nodes[i].cos[co].status.Sleeping? || s.nodes[i].strayed)
    case CallSends(i, to, session) =>
      && i < |s.nodes| && Runs(s.nodes[i]) && 1 <= s.nodes[i].nextSession <= UINT32_MAX
      && FirstFree(s.nodes[i].nextSession, s.nodes[i].pending, session)
    case Registers(i) =>
      && i < |s.nodes| && Free(s.nodes[i]) && s.nodes[i].running.Some? && s.nodes[i].running.value in s.nodes[i].cos
      && s.nodes[i].cos[s.nodes[i].running.value].status.Registering?
    case YieldRaises(i) =>
      && i < |s.nodes| && Free(s.nodes[i]) && s.nodes[i].running.Some? && s.nodes[i].running.value in s.nodes[i].cos
      && s.nodes[i].cos[s.nodes[i].running.value].status.Registering?
    case Posts(i, to) => i < |s.nodes| && Runs(s.nodes[i])
    case Sleeps(i) => i < |s.nodes| && Runs(s.nodes[i])
    case Ends(i, _) => i < |s.nodes| && Runs(s.nodes[i])
    case Pushes(i, _) => i < |s.nodes| && s.nodes[i].outgoing.Some?
    case DrainBegins(i) =>
      && i < |s.nodes| && s.nodes[i].closed && Idle(s.nodes[i])
      && (s.nodes[i].stage.Booting? || s.nodes[i].stage.Serving?)
    case Drains(i) => i < |s.nodes| && s.nodes[i].stage.Draining? && Free(s.nodes[i])
    case PassBegins(i) => i < |s.nodes| && s.nodes[i].stage.Drained? && Idle(s.nodes[i])
    case Passes(i, co) =>
      && i < |s.nodes| && s.nodes[i].stage.Passing? && Free(s.nodes[i]) && co in s.nodes[i].stage.todo
      && co in s.nodes[i].cos
    case Exits(i) => i < |s.nodes| && s.nodes[i].stage == Passing({}) && Free(s.nodes[i])
  }

  // One service's own steps

  function WithStatus(n: Node, co: nat, status: Status): Node
    requires co in n.cos
  {
    n.(cos := n.cos[co := n.cos[co].(status := status)])
  }

  // new_session and resume_session for a request
  function Accept(n: Node, m: Msg): Node {
    n.(cos := n.cos[n.nextCo := Co(Running, Duty(m.from, m.session, m.req))], running := Some(n.nextCo),
       nextCo := n.nextCo + 1)
  }

  // A reply resumes the coroutine entered for its session, if any; one that is over
  // cannot be resumed.
  function Resume(n: Node, session: nat): Node {
    if session !in n.pending then n
    else if n.pending[session] !in n.cos then n.(pending := n.pending - {session})
    else
      var co := n.pending[session];
      WithStatus(n.(pending := n.pending - {session}, running := Some(co)), co, Running)
  }

  function Receive(n: Node): Node
    requires n.inbox != []
  {
    var m, rest := n.inbox[0], n.(inbox := n.inbox[1..]);
    if m.kind == REQUEST then Accept(rest, m) else if m.session > 0 then Resume(rest, m.session) else rest
  }

  function BeginCall(n: Node, i: nat, to: nat, session: nat): Node
    requires n.running.Some? && n.running.value in n.cos
  {
    WithStatus(n, n.running.value, Calling(session))
      .(nextSession := NextSlot(session), outgoing := Some(Outgoing(to, Msg(REQUEST, i, session, 0))))
  }

  function Register(n: Node): Node
    requires n.running.Some? && n.running.value in n.cos && n.cos[n.running.value].status.Registering?
  {
    var co := n.running.value;
    var status := n.cos[co].status;
    WithStatus(n.(pending := n.pending[status.session := co], running := None), co, Waiting(status.session, status.req))
  }

  // The yield raises: the handler sees an error, and the call stays in the table.
  function YieldRaised(n: Node): Node
    requires n.running.Some? && n.running.value in n.cos && n.cos[n.running.value].status.Registering?
  {
    var co := n.running.value;
    WithStatus(n.(pending := n.pending[n.cos[co].status.session := co], strayed := true), co, Running)
  }

  // Owed when a reply is due at all
  predicate Owes(duty: Duty) {
    duty.session > 0
  }

  function Reply(i: nat, duty: Duty, kind: Kind): Option<Outgoing> {
    Some(Outgoing(duty.from, Msg(kind, i, duty.session, duty.req)))
  }

  // A coroutine is over: send_response, or the error branch of resume_session
  function End(n: Node, i: nat, failed: bool): Node
    requires n.running.Some? && n.running.value in n.cos
  {
    var co := n.running.value;
    var duty := n.cos[co].duty;
    n.(cos := n.cos - {co}, running := None,
       outgoing := if Owes(duty) then Reply(i, duty, if failed then ERROR else RESPONSE) else None)
  }

  // One round of service_drain_mailbox
  function Drain(n: Node, i: nat): Node {
    if n.inbox == [] then n.(stage := Drained)
    else
      var m := n.inbox[0];
      n.(inbox := n.inbox[1..],
         outgoing := if m.kind == REQUEST && m.session > 0 then Reply(i, Duty(m.from, m.session, m.req), STOPPED) else None)
  }

  // One round of reply_pending
  function Pass(n: Node, i: nat, co: nat): Node
    requires n.stage.Passing? && co in n.cos
  {
    var duty := n.cos[co].duty;
    n.(stage := Passing(n.stage.todo - {co}), outgoing := if Owes(duty) then Reply(i, duty, STOPPED) else None)
  }

  // What the push leaves the sender with
  function Sent(n: Node, accepted: bool, req: nat): Node
    requires n.outgoing.Some?
  {
    var m := n.outgoing.value.msg;
    var done := n.(outgoing := None);
    if m.kind == REQUEST && m.session > 0 && n.running.Some? && n.running.value in n.cos then
      WithStatus(done, n.running.value, if accepted then Registering(m.session, req) else Running)
    else done
  }

  // What the push does to the mailbox it goes to
  function Delivered(n: Node, m: Msg, ok: bool): Node {
    if ok && !n.closed then n.(inbox := n.inbox + [m])
    else if !n.closed && m.kind != REQUEST then n.(refused := true)
    else n
  }

  function Move(s: Sys, req: nat, place: Place): map<nat, Call> {
    if req in s.calls then s.calls[req := s.calls[req].(place := place)] else s.calls
  }

  function ApplyPop(s: Sys, i: nat): Sys
    requires i < |s.nodes| && s.nodes[i].inbox != []
  {
    var n := s.nodes[i];
    var m, r := n.inbox[0], Receive(n);
    var t := s.(nodes := s.nodes[i := r]);
    if m.session == 0 then t
    else if m.kind == REQUEST then t.(calls := Move(s, m.req, Held(i, n.nextCo)))
    else if r.running.Some? && r.running.value in n.cos && n.cos[r.running.value].status.Waiting? then
      t.(calls := Move(s, m.req, Consumed), resumes := s.resumes + [(n.cos[r.running.value].status.req, m.req)])
    else t.(calls := Move(s, m.req, Lost))
  }

  // A reply leaves: r is the sender's new state.
  function SendReply(s: Sys, i: nat, r: Node): Sys
    requires i < |s.nodes|
  {
    var t := s.(nodes := s.nodes[i := r]);
    if r.outgoing.Some? then
      t.(calls := Move(s, r.outgoing.value.msg.req, Sending(i)), replies := s.replies + [r.outgoing.value.msg.req])
    else t
  }

  function ApplyDrain(s: Sys, i: nat): Sys
    requires i < |s.nodes|
  {
    var n := s.nodes[i];
    if n.inbox != [] && n.inbox[0].session > 0 && n.inbox[0].kind != REQUEST then
      s.(nodes := s.nodes[i := Drain(n, i)], calls := Move(s, n.inbox[0].req, Lost))
    else SendReply(s, i, Drain(n, i))
  }

  function ApplyPush(s: Sys, i: nat, ok: bool): Sys
    requires i < |s.nodes| && s.nodes[i].outgoing.Some?
  {
    var n := s.nodes[i];
    var out := n.outgoing.value;
    var accepted := ok && out.to < |s.nodes| && !s.nodes[out.to].closed;
    var m := if out.msg.kind == REQUEST then out.msg.(req := s.nextReq) else out.msg;
    var nodes := s.nodes[i := Sent(n, accepted, s.nextReq)];
    var t := s.(nodes := if out.to < |nodes| then nodes[out.to := Delivered(nodes[out.to], m, ok)] else nodes);
    if m.session == 0 then t
    else if m.kind != REQUEST then t.(calls := Move(s, m.req, if accepted then Replied(out.to) else Lost))
    else if accepted && n.running.Some? then
      t.(calls := s.calls[s.nextReq := Call(i, n.running.value, m.session, out.to, Queued(out.to))], nextReq := s.nextReq + 1)
    else t
  }

  function Only(s: Sys, i: nat, n: Node): Sys
    requires i < |s.nodes|
  {
    s.(nodes := s.nodes[i := n])
  }

  function Apply(s: Sys, step: Step): Sys
    requires Enabled(s, step)
  {
    match step
    case Spawns => s.(nodes := s.nodes + [NEW_NODE])
    case Serves(i) => Only(s, i, s.nodes[i].(stage := Serving))
    case Closes(i) => Only(s, i, s.nodes[i].(closed := true))
    case Pops(i) => ApplyPop(s, i)
    case Wakes(i, co) => Only(s, i, WithStatus(s.nodes[i], co, Running).(running := Some(co)))
    case CallSends(i, to, session) => Only(s, i, BeginCall(s.nodes[i], i, to, session))
    case Registers(i) => Only(s, i, Register(s.nodes[i]))
    case YieldRaises(i) => Only(s, i, YieldRaised(s.nodes[i])).(strays := s.strays + {i})
    case Posts(i, to) => Only(s, i, s.nodes[i].(outgoing := Some(Outgoing(to, Msg(REQUEST, i, 0, 0)))))
    case Sleeps(i) => Only(s, i, WithStatus(s.nodes[i], s.nodes[i].running.value, Sleeping).(running := None))
    case Ends(i, failed) => SendReply(s, i, End(s.nodes[i], i, failed))
    case Pushes(i, ok) => ApplyPush(s, i, ok)
    case DrainBegins(i) => Only(s, i, s.nodes[i].(stage := Draining))
    case Drains(i) => ApplyDrain(s, i)
    case PassBegins(i) => Only(s, i, s.nodes[i].(stage := Passing(s.nodes[i].cos.Keys)))
    case Passes(i, co) => SendReply(s, i, Pass(s.nodes[i], i, co))
    case Exits(i) => Only(s, i, s.nodes[i].(stage := Gone, cos := map[], pending := map[]))
  }
}
