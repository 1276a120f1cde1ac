// Every run of the services: one token per pending call, one reply per request, one
// resume per call, with the reply to its own request.
module RpcRuns {
  import opened Wire
  import opened Rpc
  import opened RpcSafety

  lemma MovedCalls(calls: Calls, count: nat, nextReq: nat, r: nat, place: Place)
    requires CallsInv(calls, count, nextReq) && r in calls && Within(place, count)
    requires place.Queued? || place.Held? || place.Sending? ==> place.node == calls[r].to
    requires place.Replied? ==> place.node == calls[r].from
    ensures CallsInv(Moved(calls, r, place), count, nextReq)
  {
  }

  // The reply to r is sent.
  lemma MovedHistoryReply(
    calls: Calls, replies: seq<nat>, resumes: seq<(nat, nat)>, strays: set<nat>, r: nat, place: Place)
    requires HistoryInv(calls, replies, resumes, strays) && r in calls && !Answered(calls[r].place)
    requires Answered(place) && place != Consumed
    ensures HistoryInv(Moved(calls, r, place), replies + [r], resumes, strays)
  {
    var now, all := Moved(calls, r, place), replies + [r];
    assert all[|replies|] == r;
    forall q | q in now && Answered(now[q].place) ensures q in all {
      if q != r {
        assert q in replies;
      }
    }
  }

  // Nothing is answered or resumed by the move.
  lemma MovedHistory(
    calls: Calls, replies: seq<nat>, resumes: seq<(nat, nat)>, strays: set<nat>, r: nat, place: Place)
    requires HistoryInv(calls, replies, resumes, strays) && r in calls && calls[r].place != Consumed
    requires Answered(place) == Answered(calls[r].place)
    ensures HistoryInv(Moved(calls, r, place), replies, resumes, strays)
  {
  }

  // A call is resumed, by the reply to r: its own, unless its service has strayed.
  lemma MovedHistoryResume(calls: Calls, replies: seq<nat>, resumes: seq<(nat, nat)>, strays: set<nat>, q: nat, r: nat)
    requires HistoryInv(calls, replies, resumes, strays) && r in calls && calls[r].place.Replied? && q in calls
    requires calls[q].from == calls[r].from && (calls[r].from !in strays ==> q == r)
    ensures HistoryInv(Moved(calls, r, Consumed), replies, resumes + [(q, r)], strays)
  {
  }

  lemma NewHistory(s: Sys, c: Call)
    requires CallsInv(s.calls, |s.nodes|, s.nextReq) && HistoryInv(s.calls, s.replies, s.resumes, s.strays) && c.place.Queued?
    ensures HistoryInv(s.calls[s.nextReq := c], s.replies, s.resumes, s.strays)
  {
  }

  lemma OnlyKeeps(s: Sys, i: nat, n: Node)
    requires Inv(s) && i < |s.nodes| && NodeInv(i, n, s.calls) && n.strayed == s.nodes[i].strayed
    ensures Inv(Only(s, i, n))
  {
    hide NodeInv, CallsInv, HistoryInv, NodesInv;
    forall j | 0 <= j < |s.nodes| && j != i ensures Elsewhere(j, s.calls, s.calls) {
      Nowhere(j, s.calls);
    }
    OneNode(s, i, n, s.calls);
  }

  // A service strays.
  lemma StrayKeeps(s: Sys, i: nat, n: Node)
    requires Inv(s) && i < |s.nodes| && NodeInv(i, n, s.calls)
    ensures Inv(Only(s, i, n).(strays := s.strays + {i}))
  {
    hide NodeInv, CallsInv, NodesInv;
    forall j | 0 <= j < |s.nodes| && j != i ensures Elsewhere(j, s.calls, s.calls) {
      Nowhere(j, s.calls);
    }
    OneNode(s, i, n, s.calls);
  }

  lemma MovedKeeps(s: Sys, i: nat, n: Node, r: nat, place: Place)
    requires NodesInv(s.nodes, s.calls) && i < |s.nodes| && r in s.calls && LocalTo(s.calls[r].place, i)
    requires LocalTo(place, i) || (!InFlight(place) && s.calls[r].from == i)
    requires NodeInv(i, n, Moved(s.calls, r, place))
    ensures NodesInv(s.nodes[i := n], Moved(s.calls, r, place))
  {
    hide NodeInv, NodesInv, Elsewhere;
    MovedElsewhere(s.calls, r, place, i);
    OneNode(s, i, n, Moved(s.calls, r, place));
  }

  lemma NodeAt(s: Sys, i: nat)
    requires NodesInv(s.nodes, s.calls) && i < |s.nodes|
    ensures NodeInv(i, s.nodes[i], s.calls) && 1 <= s.nodes[i].nextSession <= UINT32_MAX
    ensures s.nodes[i].stage.Passing? ==> s.nodes[i].stage.todo <= s.nodes[i].cos.Keys
  {
    assert NodeInv(i, s.nodes[i], s.calls);
  }

  // What popping a reply amounts to: a coroutine resumed, for the request it waits for, or
  // a reply that is lost
  lemma PopResult(s: Sys, i: nat)
    requires i < |s.nodes| && s.nodes[i].inbox != [] && s.nodes[i].running.None?
    ensures var n, t := s.nodes[i], ApplyPop(s, i);
      var m := n.inbox[0];
      && t == s.(nodes := s.nodes[i := Receive(n)], calls := t.calls, resumes := t.resumes)
      && Receive(n).strayed == n.strayed
      && (m.session == 0 ==> t.calls == s.calls && t.resumes == s.resumes)
      && (m.session > 0 && m.kind == REQUEST ==> t.calls == Moved(s.calls, m.req, Held(i, n.nextCo)) && t.resumes == s.resumes)
      && (m.session > 0 && m.kind != REQUEST ==>
            if m.session in n.pending && n.pending[m.session] in n.cos && n.cos[n.pending[m.session]].status.Waiting? then
              t.calls == Moved(s.calls, m.req, Consumed)
              && t.resumes == s.resumes + [(n.cos[n.pending[m.session]].status.req, m.req)]
            else t.calls == Moved(s.calls, m.req, Lost) && t.resumes == s.resumes)
  {
  }

  lemma PopKeeps(s: Sys, i: nat)
    requires Inv(s) && Enabled(s, Pops(i))
    ensures Inv(ApplyPop(s, i))
  {
    hide NodeInv, NodesInv, CallsInv, HistoryInv, ApplyPop, Receive;
    NodeAt(s, i);
    var n := s.nodes[i];
    PopNode(i, n, s.calls);
    PopResult(s, i);
    var m := n.inbox[0];
    if m.session == 0 {
      OnlyKeeps(s, i, Receive(n));
    } else if m.kind == REQUEST {
      var place := Held(i, n.nextCo);
      MovedKeeps(s, i, Receive(n), m.req, place);
      MovedCalls(s.calls, |s.nodes|, s.nextReq, m.req, place);
      MovedHistory(s.calls, s.replies, s.resumes, s.strays, m.req, place);
    } else if m.session in n.pending && n.pending[m.session] in n.cos && n.cos[n.pending[m.session]].status.Waiting? {
      MovedKeeps(s, i, Receive(n), m.req, Consumed);
      MovedCalls(s.calls, |s.nodes|, s.nextReq, m.req, Consumed);
      WaiterOwns(i, n, s.calls, n.pending[m.session]);
      MovedHistoryResume(s.calls, s.replies, s.resumes, s.strays, n.cos[n.pending[m.session]].status.req, m.req);
    } else {
      MovedKeeps(s, i, Receive(n), m.req, Lost);
      MovedCalls(s.calls, |s.nodes|, s.nextReq, m.req, Lost);
      MovedHistory(s.calls, s.replies, s.resumes, s.strays, m.req, Lost);
    }
  }

  lemma WaiterOwns(i: nat, n: Node, calls: Calls, co: nat)
    requires NodeInv(i, n, calls) && co in n.cos && n.cos[co].status.Waiting?
    ensures n.cos[co].status.req in calls && calls[n.cos[co].status.req].from == i
  {
    hide InboxInv, DutyInv, SendInv, WaitNode, StageInv;
  }

  // A service sends the reply to a request it holds or drains.
  lemma SendReplyKeeps(s: Sys, i: nat, r: Node)
    requires Inv(s) && i < |s.nodes|
    requires r.outgoing.Some? ==>
      var q := r.outgoing.value.msg.req;
      && q in s.calls && LocalTo(s.calls[q].place, i) && !Answered(s.calls[q].place) && s.calls[q].to == i
      && NodeInv(i, r, Moved(s.calls, q, Sending(i)))
    requires (r.outgoing.None? ==> NodeInv(i, r, s.calls)) && r.strayed == s.nodes[i].strayed
    ensures Inv(SendReply(s, i, r))
  {
    hide NodeInv, NodesInv, CallsInv, HistoryInv;
    if r.outgoing.Some? {
      var q := r.outgoing.value.msg.req;
      MovedKeeps(s, i, r, q, Sending(i));
      MovedCalls(s.calls, |s.nodes|, s.nextReq, q, Sending(i));
      MovedHistoryReply(s.calls, s.replies, s.resumes, s.strays, q, Sending(i));
    } else {
      OnlyKeeps(s, i, r);
    }
  }

  lemma EndKeeps(s: Sys, i: nat, failed: bool)
    requires Inv(s) && Enabled(s, Ends(i, failed))
    ensures Inv(SendReply(s, i, End(s.nodes[i], i, failed)))
  {
    hide NodeInv, NodesInv, CallsInv, HistoryInv, SendReply;
    NodeAt(s, i);
    EndNode(i, s.nodes[i], s.calls, failed);
    SendReplyKeeps(s, i, End(s.nodes[i], i, failed));
  }

  lemma PassKeeps(s: Sys, i: nat, co: nat)
    requires Inv(s) && Enabled(s, Passes(i, co))
    ensures Inv(SendReply(s, i, Pass(s.nodes[i], i, co)))
  {
    hide NodeInv, NodesInv, CallsInv, HistoryInv, SendReply;
    NodeAt(s, i);
    PassNode(i, s.nodes[i], s.calls, co);
    SendReplyKeeps(s, i, Pass(s.nodes[i], i, co));
  }

  lemma DrainKeeps(s: Sys, i: nat)
    requires Inv(s) && Enabled(s, Drains(i))
    ensures Inv(ApplyDrain(s, i))
  {
    hide NodeInv, NodesInv, CallsInv, HistoryInv, SendReply;
    NodeAt(s, i);
    var n := s.nodes[i];
    DrainNode(i, n, s.calls);
    if n.inbox != [] && n.inbox[0].session > 0 && n.inbox[0].kind != REQUEST {
      var q := n.inbox[0].req;
      MovedKeeps(s, i, Drain(n, i), q, Lost);
      MovedCalls(s.calls, |s.nodes|, s.nextReq, q, Lost);
      MovedHistory(s.calls, s.replies, s.resumes, s.strays, q, Lost);
    } else {
      SendReplyKeeps(s, i, Drain(n, i));
    }
  }

  lemma PushKeepsStrays(s: Sys, i: nat, ok: bool)
    requires StraysInv(s.nodes, s.strays) && i < |s.nodes| && s.nodes[i].outgoing.Some?
    ensures StraysInv(ApplyPush(s, i, ok).nodes, ApplyPush(s, i, ok).strays)
  {
    hide ApplyPush;
    PushedNode(s, i, ok, i);
    forall j | 0 <= j < |s.nodes| ensures ApplyPush(s, i, ok).nodes[j].strayed == s.nodes[j].strayed {
      PushedNode(s, i, ok, j);
    }
  }

  lemma PushKeeps(s: Sys, i: nat, ok: bool)
    requires Inv(s) && Enabled(s, Pushes(i, ok))
    ensures Inv(ApplyPush(s, i, ok))
  {
    hide NodesInv, NodeInv, CallsInv, HistoryInv, StraysInv, ApplyPush;
    PushKeepsStrays(s, i, ok);
    PushKeepsNodes(s, i, ok);
    PushHistory(s, i, ok);
    PushedNode(s, i, ok, i);
    var out, t := s.nodes[i].outgoing.value, ApplyPush(s, i, ok);
    var accepted := ok && out.to < |s.nodes| && !s.nodes[out.to].closed;
    if out.msg.kind != REQUEST {
      var place := if accepted then Replied(out.to) else Lost;
      MovedCalls(s.calls, |s.nodes|, s.nextReq, out.msg.req, place);
      MovedHistory(s.calls, s.replies, s.resumes, s.strays, out.msg.req, place);
    } else if out.msg.session > 0 && accepted {
      var c := Call(i, s.nodes[i].running.value, out.msg.session, out.to, Queued(out.to));
      NewHistory(s, c);
      NewCalls(s, c);
    }
  }

  lemma PushHistory(s: Sys, i: nat, ok: bool)
    requires i < |s.nodes| && s.nodes[i].outgoing.Some? && PushCalls(s, i, ok, ApplyPush(s, i, ok).calls)
    ensures var t, out := ApplyPush(s, i, ok), s.nodes[i].outgoing.value;
      var accepted := ok && out.to < |s.nodes| && !s.nodes[out.to].closed;
      && t.replies == s.replies && t.resumes == s.resumes && t.strays == s.strays
      && t.nextReq == if out.msg.kind == REQUEST && out.msg.session > 0 && accepted then s.nextReq + 1 else s.nextReq
  {
  }

  lemma NewCalls(s: Sys, c: Call)
    requires CallsInv(s.calls, |s.nodes|, s.nextReq)
    requires c.from < |s.nodes| && c.to < |s.nodes| && c.session > 0 && c.place == Queued(c.to)
    ensures CallsInv(s.calls[s.nextReq := c], |s.nodes|, s.nextReq + 1)
  {
  }

  lemma SpawnKeeps(s: Sys)
    requires Inv(s)
    ensures Inv(s.(nodes := s.nodes + [NEW_NODE]))
  {
    var nodes := s.nodes + [NEW_NODE];
    forall j | 0 <= j < |nodes| ensures NodeInv(j, nodes[j], s.calls) {
      if j < |s.nodes| {
        NodeAt(s, j);
      } else {
        NewNodeInv(s, j);
      }
    }
  }

  lemma NewNodeInv(s: Sys, j: nat)
    requires CallsInv(s.calls, |s.nodes|, s.nextReq) && j >= |s.nodes|
    ensures NodeInv(j, NEW_NODE, s.calls)
  {
  }

  lemma LocalStepKeeps(s: Sys, step: Step)
    requires Inv(s) && Enabled(s, step)
    requires !step.Spawns? && !step.Pops? && !step.Ends? && !step.Pushes? && !step.Drains? && !step.Passes?
    ensures Inv(Apply(s, step))
  {
    hide NodeInv, NodesInv, CallsInv, HistoryInv, SendReply, ApplyPop, ApplyPush, ApplyDrain, FirstFree, Inv, Only;
    assert NodesInv(s.nodes, s.calls) by { Parts(s); }
    var i := step.i;
    NodeAt(s, i);
    var n := s.nodes[i];
    match step
    case Serves(_) => ClosesNode(i, n, s.calls); OnlyKeeps(s, i, n.(stage := Serving));
    case Closes(_) => ClosesNode(i, n, s.calls); OnlyKeeps(s, i, n.(closed := true));
    case Wakes(_, co) => WakesNode(i, n, s.calls, co); OnlyKeeps(s, i, WithStatus(n, co, Running).(running := Some(co)));
    case CallSends(_, to, session) =>
      CallSendsNode(i, n, s.calls, to, session);
      OnlyKeeps(s, i, BeginCall(n, i, to, session));
    case Registers(_) => RegistersNode(i, n, s.calls); OnlyKeeps(s, i, Register(n));
    case YieldRaises(_) => YieldRaisesNode(i, n, s.calls); StrayKeeps(s, i, YieldRaised(n));
    case Posts(_, to) => PostsNode(i, n, s.calls, to); OnlyKeeps(s, i, n.(outgoing := Some(Outgoing(to, Msg(REQUEST, i, 0, 0)))));
    case Sleeps(_) => SleepsNode(i, n, s.calls); OnlyKeeps(s, i, WithStatus(n, n.running.value, Sleeping).(running := None));
    case DrainBegins(_) => DrainBeginsNode(i, n, s.calls); OnlyKeeps(s, i, n.(stage := Draining));
    case PassBegins(_) => PassBegins(s, i); OnlyKeeps(s, i, n.(stage := Passing(n.cos.Keys)));
    case Exits(_) => ExitsNode(i, n, s.calls); OnlyKeeps(s, i, n.(stage := Gone, cos := map[], pending := map[]));
  }

  lemma PassBegins(s: Sys, i: nat)
    requires NodesInv(s.nodes, s.calls) && i < |s.nodes| && s.nodes[i].stage.Drained? && Idle(s.nodes[i])
    ensures NodeInv(i, s.nodes[i].(stage := Passing(s.nodes[i].cos.Keys)), s.calls)
  {
    NodeAt(s, i);
    var n := s.nodes[i];
    assert n.closed;
    DrainBeginsNode(i, n, s.calls);
  }

  lemma Parts(s: Sys)
    requires Inv(s)
    ensures NodesInv(s.nodes, s.calls) && CallsInv(s.calls, |s.nodes|, s.nextReq)
    ensures HistoryInv(s.calls, s.replies, s.resumes, s.strays) && StraysInv(s.nodes, s.strays)
  {
    hide NodesInv, CallsInv, HistoryInv, StraysInv;
  }

  lemma StepKeeps(s: Sys, step: Step)
    requires Inv(s) && Enabled(s, step)
    ensures Inv(Apply(s, step))
  {
    hide Inv, SendReply, ApplyPop, ApplyPush, ApplyDrain, Only, End, Pass;
    match step
    case Spawns => SpawnKeeps(s);
    case Pops(i) => PopKeeps(s, i);
    case Ends(i, failed) => EndKeeps(s, i, failed);
    case Pushes(i, ok) => PushKeeps(s, i, ok);
    case Drains(i) => DrainKeeps(s, i);
    case Passes(i, co) => PassKeeps(s, i, co);
    case _ => LocalStepKeeps(s, step);
  }

  ghost predicate Reaches(s: Sys, steps: seq<Step>, r: Sys)
    decreases |steps|
  {
    if steps == [] then s == r else Enabled(s, steps[0]) && Reaches(Apply(s, steps[0]), steps[1..], r)
  }

  lemma {:induction false} RunKeeps(s: Sys, steps: seq<Step>, r: Sys)
    requires Inv(s) && Reaches(s, steps, r)
    ensures Inv(r)
    decreases |steps|
  {
    hide Inv, Enabled, Apply;
    if steps != [] {
      StepKeeps(s, steps[0]);
      RunKeeps(Apply(s, steps[0]), steps[1..], r);
    }
  }

  lemma AnyRun(steps: seq<Step>, s: Sys)
    requires Reaches(EMPTY, steps, s)
    ensures Inv(s)
  {
    hide Reaches;
    RunKeeps(EMPTY, steps, s);
  }

  // What answers request r, or will, as the services' own state has it: a message in a
  // mailbox, a coroutine with the duty to reply, or a reply on its way out.
  datatype Token = InMailbox(node: nat, k: nat) | InCoroutine(node: nat, co: nat) | InSend(node: nat)

  ghost predicate TokenAt(s: Sys, r: nat, tok: Token) {
    && tok.node < |s.nodes|
    && var n := s.nodes[tok.node];
       match tok
       case InMailbox(_, k) => k < |n.inbox| && n.inbox[k].session > 0 && n.inbox[k].req == r
       case InCoroutine(_, co) => Unmet(n.stage, n.cos, co) && n.cos[co].duty.req == r
       case InSend(_) => n.outgoing.Some? && n.outgoing.value.msg.kind != REQUEST && n.outgoing.value.msg.req == r
  }

  // Where a token is, calls says so.
  lemma TokenTellsPlace(s: Sys, r: nat, tok: Token)
    requires Inv(s) && TokenAt(s, r, tok)
    ensures r in s.calls
    ensures match tok
            case InMailbox(i, k) =>
              s.calls[r].place == if s.nodes[i].inbox[k].kind == REQUEST then Queued(i) else Replied(i)
            case InCoroutine(i, co) => s.calls[r].place == Held(i, co)
            case InSend(i) => s.calls[r].place == Sending(i)
  {
    hide CallsInv, HistoryInv, WaitNode, OwnInv, StageInv;
    assert NodeInv(tok.node, s.nodes[tok.node], s.calls);
    if tok.InMailbox? {
      assert IsToken(s.nodes[tok.node].inbox[tok.k], tok.node, s.calls);
    }
  }

  lemma SamePlaceSameToken(s: Sys, r: nat, a: Token, b: Token)
    requires Inv(s) && TokenAt(s, r, a) && TokenAt(s, r, b)
    ensures a == b
  {
    hide CallsInv, HistoryInv, WaitNode, OwnInv, StageInv, DutyInv, SendInv;
    TokenTellsPlace(s, r, a);
    TokenTellsPlace(s, r, b);
    assert NodeInv(a.node, s.nodes[a.node], s.calls);
  }

  lemma PlaceHasToken(s: Sys, r: nat) returns (tok: Token)
    requires Inv(s) && r in s.calls && InFlight(s.calls[r].place)
    ensures TokenAt(s, r, tok)
  {
    hide HistoryInv, WaitNode, OwnInv, StageInv;
    var place := s.calls[r].place;
    assert NodeInv(place.node, s.nodes[place.node], s.calls);
    if place.Held? {
      tok := InCoroutine(place.node, place.co);
    } else if place.Sending? {
      tok := InSend(place.node);
    } else {
      var inbox := s.nodes[place.node].inbox;
      assert Carries(inbox, r);
      var k :| 0 <= k < |inbox| && inbox[k].session > 0 && inbox[k].req == r;
      tok := InMailbox(place.node, k);
    }
  }

  // A session in the table of pending calls of a service that is not stopping, was not
  // refused a reply and has not strayed, has one coroutine waiting for one request, and
  // that request has exactly one token in the whole system.
  lemma PendingHasOneToken(steps: seq<Step>, s: Sys, i: nat, session: nat) returns (tok: Token)
    requires Reaches(EMPTY, steps, s) && i < |s.nodes| && session in s.nodes[i].pending
    requires !s.nodes[i].closed && !s.nodes[i].refused && !s.nodes[i].strayed
    ensures var n := s.nodes[i];
      && n.pending[session] in n.cos && n.cos[n.pending[session]].status.Waiting?
      && var r := n.cos[n.pending[session]].status.req;
         TokenAt(s, r, tok) && forall other :: TokenAt(s, r, other) ==> other == tok
  {
    hide Reaches, Inv, TokenAt;
    AnyRun(steps, s);
    var r := PendingWaits(s, i, session);
    tok := PlaceHasToken(s, r);
    forall other | TokenAt(s, r, other) ensures other == tok {
      SamePlaceSameToken(s, r, other, tok);
    }
  }

  lemma PendingWaits(s: Sys, i: nat, session: nat) returns (r: nat)
    requires Inv(s) && i < |s.nodes| && session in s.nodes[i].pending && !s.nodes[i].strayed
    ensures s.nodes[i].pending[session] in s.nodes[i].cos
    ensures s.nodes[i].cos[s.nodes[i].pending[session]].status == Waiting(session, r)
    ensures r in s.calls && (!s.nodes[i].closed && !s.nodes[i].refused ==> InFlight(s.calls[r].place))
  {
    hide CallsInv, HistoryInv, InboxInv, DutyInv, SendInv, StageInv;
    assert NodeInv(i, s.nodes[i], s.calls);
    r := s.nodes[i].cos[s.nodes[i].pending[session]].status.req;
  }

  // No two replies are sent for one request, and no reply without a request.
  lemma OneReply(steps: seq<Step>, s: Sys)
    requires Reaches(EMPTY, steps, s)
    ensures forall j, k :: 0 <= j < k < |s.replies| ==> s.replies[j] != s.replies[k]
    ensures forall r :: r in s.replies ==> r in s.calls
  {
    hide Reaches, NodesInv, CallsInv;
    AnyRun(steps, s);
  }

  // A request a service accepted is, until its thread is gone, in its mailbox, with a
  // coroutine of its or answered; afterwards it is answered.
  lemma EveryRequestAnswered(steps: seq<Step>, s: Sys, r: nat)
    requires Reaches(EMPTY, steps, s) && r in s.calls
    ensures var c := s.calls[r];
      && c.to < |s.nodes|
      && (r in s.replies || (c.place.Held? && TokenAt(s, r, InCoroutine(c.to, c.place.co)))
          || exists k: nat :: TokenAt(s, r, InMailbox(c.to, k)) && s.nodes[c.to].inbox[k].kind == REQUEST)
      && (s.nodes[c.to].stage.Gone? ==> r in s.replies)
  {
    hide Reaches, Inv, TokenAt;
    AnyRun(steps, s);
    UnansweredIsHere(s, r);
  }

  lemma UnansweredIsHere(s: Sys, r: nat)
    requires Inv(s) && r in s.calls
    ensures var c := s.calls[r];
      && c.to < |s.nodes|
      && (r in s.replies
          || (c.place.Held? && TokenAt(s, r, InCoroutine(c.to, c.place.co)))
          || exists k: nat :: TokenAt(s, r, InMailbox(c.to, k)) && s.nodes[c.to].inbox[k].kind == REQUEST)
      && (s.nodes[c.to].stage.Gone? ==> r in s.replies)
  {
    hide WaitNode, OwnInv, SendInv;
    var c := s.calls[r];
    if r !in s.replies {
      assert c.place.node == c.to;
      assert NodeInv(c.to, s.nodes[c.to], s.calls);
      var tok := PlaceHasToken(s, r);
      TokenTellsPlace(s, r, tok);
    }
  }

  // A call is resumed at most once, and by the reply to its own request, unless the yield
  // of a call has raised in its service.
  lemma OneResume(steps: seq<Step>, s: Sys)
    requires Reaches(EMPTY, steps, s)
    ensures forall k :: 0 <= k < |s.resumes| ==> s.resumes[k].0 in s.calls
    ensures forall k :: 0 <= k < |s.resumes| && s.calls[s.resumes[k].0].from !in s.strays ==> s.resumes[k].0 == s.resumes[k].1
    ensures forall j, k :: 0 <= j < k < |s.resumes| && s.calls[s.resumes[j].0].from !in s.strays ==>
      s.resumes[j].0 != s.resumes[k].0
  {
    hide Reaches, NodesInv, CallsInv;
    AnyRun(steps, s);
  }

  // Without such a yield no service strays.
  lemma {:induction false} StrayedBy(s: Sys, steps: seq<Step>, r: Sys, i: nat)
    requires Inv(s) && Reaches(s, steps, r) && i !in s.strays
    ensures i in r.strays <==> YieldRaises(i) in steps
    decreases |steps|
  {
    hide Inv, Enabled, Apply;
    if steps != [] {
      StepKeeps(s, steps[0]);
      StraysAfter(s, steps[0]);
      var t := Apply(s, steps[0]);
      assert steps == [steps[0]] + steps[1..];
      if i in t.strays {
        StaysStrayed(t, steps[1..], r);
      } else {
        StrayedBy(t, steps[1..], r, i);
      }
    }
  }

  lemma {:induction false} StaysStrayed(s: Sys, steps: seq<Step>, r: Sys)
    requires Inv(s) && Reaches(s, steps, r)
    ensures s.strays <= r.strays
    decreases |steps|
  {
    hide Inv, Enabled, Apply;
    if steps != [] {
      StepKeeps(s, steps[0]);
      StraysAfter(s, steps[0]);
      StaysStrayed(Apply(s, steps[0]), steps[1..], r);
    }
  }

  lemma StraysAfter(s: Sys, step: Step)
    requires Enabled(s, step)
    ensures Apply(s, step).strays == if step.YieldRaises? then s.strays + {step.i} else s.strays
  {
  }

  // A reply that is dispatched always finds the coroutine that waits for it, even though a
  // call enters the table only after its request was sent, unless a yield has raised.
  lemma RepliesFindTheirCall(steps: seq<Step>, s: Sys, i: nat)
    requires Reaches(EMPTY, steps, s) && Enabled(s, Pops(i))
    requires s.nodes[i].inbox[0].kind != REQUEST && YieldRaises(i) !in steps
    ensures var n := s.nodes[i];
      var m := n.inbox[0];
      && m.session in n.pending && n.pending[m.session] in n.cos
      && n.cos[n.pending[m.session]].status == Waiting(m.session, m.req)
  {
    hide Reaches, Inv;
    AnyRun(steps, s);
    EmptyInv();
    StrayedBy(EMPTY, steps, s, i);
    Parts(s);
    NodeAt(s, i);
    PopNode(i, s.nodes[i], s.calls);
    HeadIsToken(i, s.nodes[i], s.calls);
  }

  lemma EmptyInv()
    ensures Inv(EMPTY) && EMPTY.strays == {}
  {
  }

  // What a raised yield comes to, and nothing else does: once its coroutine is over, the
  // reply resumes nobody and is lost, and only then is the session free again.
  lemma StrayReplyIsLost(steps: seq<Step>, s: Sys, i: nat)
    requires Reaches(EMPTY, steps, s) && Enabled(s, Pops(i)) && s.nodes[i].inbox[0].kind != REQUEST
    requires var n := s.nodes[i];
      n.inbox[0].session in n.pending && n.pending[n.inbox[0].session] !in n.cos
    ensures var n, t := s.nodes[i], ApplyPop(s, i);
      var m := n.inbox[0];
      && YieldRaises(i) in steps && t.resumes == s.resumes && t.nodes[i].running.None?
      && m.session !in t.nodes[i].pending && m.req in s.calls && t.calls == Moved(s.calls, m.req, Lost)
  {
    hide Reaches, Inv;
    AnyRun(steps, s);
    EmptyInv();
    StrayedBy(EMPTY, steps, s, i);
    Parts(s);
    NodeAt(s, i);
    PopNode(i, s.nodes[i], s.calls);
  }
}
