// The Lua state of one service, as tables that its functions update, against the
// steps of Rpc.
module Agent {
  import opened Wire
  import opened Rpc

  lemma SlotsGoRound(first: nat, k: nat)
    requires 1 <= first <= UINT32_MAX && k < UINT32_MAX
    ensures NextSlot(Slot(first, k)) == Slot(first, k + 1)
    ensures Slot(first, k + 1) == first <==> k + 1 == UINT32_MAX
  {
  }

  // Going round once passes every session.
  lemma SlotsCover(first: nat, session: nat) returns (k: nat)
    requires 1 <= first <= UINT32_MAX && 1 <= session <= UINT32_MAX
    ensures k < UINT32_MAX && Slot(first, k) == session
  {
    k := if session >= first then session - first else session + UINT32_MAX - first;
  }

  // There is a first free session exactly if not every session is pending, and just one.
  lemma {:induction false} FreeUnlessAllPending(first: nat, pending: map<nat, nat>)
    requires 1 <= first <= UINT32_MAX
    ensures AllPending(pending) <==> !exists session :: FirstFree(first, pending, session)
    ensures AllPending(pending) <==> forall session :: 1 <= session <= 0xFFFF_FFFF ==> session in pending
    ensures forall session :: FirstFree(first, pending, session) ==> 1 <= session <= 0xFFFF_FFFF && session !in pending
    ensures forall x, y :: FirstFree(first, pending, x) && FirstFree(first, pending, y) ==> x == y
  {
    if !AllPending(pending) {
      var session :| 1 <= session <= UINT32_MAX && session !in pending;
      var k := SlotsCover(first, session);
      var k0 := Least(first, pending, k);
      assert FirstFree(first, pending, Slot(first, k0));
    }
    forall x, y | FirstFree(first, pending, x) && FirstFree(first, pending, y) ensures x == y {
      var j :| 0 <= j < UINT32_MAX && x == Slot(first, j) && forall l :: 0 <= l < j ==> Slot(first, l) in pending;
      var k :| 0 <= k < UINT32_MAX && y == Slot(first, k) && forall l :: 0 <= l < k ==> Slot(first, l) in pending;
    }
  }

  lemma {:induction false} Least(first: nat, pending: map<nat, nat>, k: nat) returns (k0: nat)
    requires 1 <= first <= UINT32_MAX && k < UINT32_MAX && Slot(first, k) !in pending
    ensures k0 <= k && Slot(first, k0) !in pending && forall j :: 0 <= j < k0 ==> Slot(first, j) in pending
  {
    if j :| 0 <= j < k && Slot(first, j) !in pending {
      k0 := Least(first, pending, j);
    } else {
      k0 := k;
    }
  }

  function PassReply(i: nat, duty: Duty): seq<Outgoing> {
    if Owes(duty) then [Reply(i, duty, STOPPED).value] else []
  }

  // The replies of reply_pending, for coroutines in some order
  function PassReplies(i: nat, cos: map<nat, Co>, order: seq<nat>): (out: seq<Outgoing>)
    requires forall k :: 0 <= k < |order| ==> order[k] in cos
  {
    if order == [] then []
    else PassReplies(i, cos, order[..|order| - 1]) + PassReply(i, cos[order[|order| - 1]].duty)
  }

  lemma PassNone(i: nat, cos: map<nat, Co>)
    ensures PassReplies(i, cos, []) == []
  {
  }

  lemma PassOneMore(i: nat, cos: map<nat, Co>, order: seq<nat>, co: nat)
    requires co in cos && forall k :: 0 <= k < |order| ==> order[k] in cos
    ensures PassReplies(i, cos, order + [co]) == PassReplies(i, cos, order) + PassReply(i, cos[co].duty)
  {
    assert (order + [co])[..|order|] == order;
  }

  // The tables of one service taken together
  ghost function CosOf(
    status: map<nat, Status>, address: map<nat, nat>, response: map<nat, nat>, request: map<nat, nat>): (cos: map<nat, Co>)
    requires response.Keys == address.Keys == status.Keys == request.Keys
    ensures cos.Keys == status.Keys
  {
    map co | co in status :: Co(status[co], Duty(address[co], response[co], request[co]))
  }

  lemma CosAt(
    status: map<nat, Status>, address: map<nat, nat>, response: map<nat, nat>, request: map<nat, nat>, co: nat)
    requires response.Keys == address.Keys == status.Keys == request.Keys && co in status
    ensures CosOf(status, address, response, request)[co] == Co(status[co], Duty(address[co], response[co], request[co]))
  {
  }

  lemma CosAdd(
    status: map<nat, Status>, address: map<nat, nat>, response: map<nat, nat>, request: map<nat, nat>, co: nat, x: Co)
    requires response.Keys == address.Keys == status.Keys == request.Keys
    ensures CosOf(status[co := x.status], address[co := x.duty.from], response[co := x.duty.session], request[co := x.duty.req])
      == CosOf(status, address, response, request)[co := x]
  {
  }

  lemma CosStatus(
    status: map<nat, Status>, address: map<nat, nat>, response: map<nat, nat>, request: map<nat, nat>, co: nat, x: Status)
    requires response.Keys == address.Keys == status.Keys == request.Keys && co in status
    ensures var cos := CosOf(status, address, response, request);
      CosOf(status[co := x], address, response, request) == cos[co := cos[co].(status := x)]
    ensures status[co := x].Keys == status.Keys
  {
  }

  lemma CosRemove(
    status: map<nat, Status>, address: map<nat, nat>, response: map<nat, nat>, request: map<nat, nat>, co: nat)
    requires response.Keys == address.Keys == status.Keys == request.Keys
    ensures CosOf(status - {co}, address - {co}, response - {co}, request - {co})
      == CosOf(status, address, response, request) - {co}
  {
  }

  class LuaState {
    const id: nat
    var nextSessionId: nat
    // session_coroutine_suspend_lookup
    var suspendLookup: map<nat, nat>
    // session_coroutine_response and session_coroutine_address
    var response: map<nat, nat>
    var address: map<nat, nat>
    var runningThread: Option<nat>
    var created: nat
    // What was handed to _send_message, and which request a coroutine serves, with the
    // numbers requests have in Rpc
    ghost var sent: seq<Outgoing>
    ghost var request: map<nat, nat>
    // What Lua keeps in the coroutines themselves
    ghost var status: map<nat, Status>

    ghost predicate Valid()
      reads this
    {
      && 1 <= nextSessionId <= UINT32_MAX
      && response.Keys == address.Keys == status.Keys == request.Keys
      && (runningThread.Some? ==> runningThread.value in status)
    }

    ghost function Cos(): map<nat, Co>
      reads this
      requires Valid()
    {
      CosOf(status, address, response, request)
    }

    // As a node of Rpc, but for the mailbox and the stage, which are not Lua's
    ghost function View(n: Node): Node
      reads this
      requires Valid()
    {
      n.(nextSession := nextSessionId, pending := suspendLookup, cos := Cos(), running := runningThread, nextCo := created)
    }

    constructor (id: nat)
      ensures Valid() && this.id == id && View(NEW_NODE) == NEW_NODE && sent == []
    {
      this.id := id;
      nextSessionId, suspendLookup, response, address, runningThread := 1, map[], map[], map[], None;
      sent, created, status, request := [], 0, map[], map[];
    }

    // allocate_session: None is RPC_SESSION_EXHAUSTED.
    method AllocateSession() returns (session: Option<nat>)
      requires Valid()
      modifies this`nextSessionId
      ensures Valid()
      ensures session.Some? ==> FirstFree(old(nextSessionId), suspendLookup, session.value)
      ensures session.Some? ==>
        1 <= session.value <= 0xFFFF_FFFF && session.value !in suspendLookup
        && nextSessionId == if session.value == 0xFFFF_FFFF then 1 else session.value + 1
      ensures session.None? <==> AllPending(suspendLookup)
      ensures session.None? ==> nextSessionId == old(nextSessionId)
    {
      var first := nextSessionId;
      ghost var k := 0;
      while true
        invariant 0 <= k < UINT32_MAX && nextSessionId == Slot(first, k) && Valid()
        invariant forall j :: 0 <= j < k ==> Slot(first, j) in suspendLookup
        decreases UINT32_MAX - k
      {
        var candidate := nextSessionId;
        SlotsGoRound(first, k);
        nextSessionId := if candidate == UINT32_MAX then 1 else candidate + 1;
        if candidate !in suspendLookup {
          assert FirstFree(first, suspendLookup, candidate);
          return Some(candidate);
        }
        if nextSessionId == first {
          forall x | 1 <= x <= UINT32_MAX ensures x in suspendLookup {
            var j := SlotsCover(first, x);
            assert j == k || j < k;
          }
          return None;
        }
        k := k + 1;
      }
    }

    // service._send_message, whose result nobody but call looks at
    method SendMessage(to: nat, kind: Kind, session: nat, ghost req: nat)
      modifies this`sent
      ensures sent == old(sent) + [Outgoing(to, Msg(kind, id, session, req))]
    {
      sent := sent + [Outgoing(to, Msg(kind, id, session, req))];
    }

    // new_session
    method NewSession(m: Msg) returns (co: nat)
      requires Valid() && created !in status
      modifies this`address, this`response, this`status, this`request, this`created
      ensures Valid() && co == old(created) && created == co + 1
      ensures Cos() == old(Cos())[co := Co(Running, Duty(m.from, m.session, m.req))]
    {
      hide CosOf;
      CosAdd(status, address, response, request, created, Co(Running, Duty(m.from, m.session, m.req)));
      co := created;
      created := created + 1;
      address := address[co := m.from];
      response := response[co := m.session];
      status, request := status[co := Running], request[co := m.req];
    }

    // A REQUEST in the dispatch loop, up to the handler's own code
    method AcceptRequest(m: Msg, ghost n: Node)
      requires Valid() && runningThread.None? && created !in status
      modifies this`address, this`response, this`status, this`request, this`created, this`runningThread
      ensures Valid() && View(n) == Accept(old(View(n)), m)
    {
      hide CosOf;
      var co := NewSession(m);
      runningThread := Some(co);
    }

    // service.call up to its send
    method BeginCall(to: nat, ghost n: Node) returns (session: Option<nat>)
      requires Valid() && runningThread.Some? && status[runningThread.value].Running?
      modifies this`nextSessionId, this`sent, this`status
      ensures Valid() && (session.None? <==> AllPending(suspendLookup))
      ensures session.Some? ==> FirstFree(old(nextSessionId), suspendLookup, session.value)
      ensures session.Some? ==> sent == old(sent) + [Outgoing(to, Msg(REQUEST, id, session.value, 0))]
      ensures session.Some? ==>
        View(n.(outgoing := Some(sent[|sent| - 1]))) == Rpc.BeginCall(old(View(n)), id, to, session.value)
      ensures session.None? ==> sent == old(sent) && View(n) == old(View(n))
    {
      hide CosOf, FirstFree, AllPending;
      session := AllocateSession();
      if session.Some? {
        SendMessage(to, REQUEST, session.value, 0);
        CosStatus(status, address, response, request, runningThread.value, Calling(session.value));
        status := status[runningThread.value := Calling(session.value)];
      }
    }

    // service.call after an accepted send, up to its yield
    method Suspend(session: nat, ghost req: nat, ghost n: Node)
      requires Valid() && runningThread.Some? && status[runningThread.value] == Registering(session, req)
      modifies this`suspendLookup, this`status, this`runningThread
      ensures Valid()
      ensures View(n) == Register(old(View(n)))
    {
      hide CosOf;
      CosStatus(status, address, response, request, runningThread.value, Waiting(session, req));
      CosAt(status, address, response, request, runningThread.value);
      suspendLookup := suspendLookup[session := runningThread.value];
      status := status[runningThread.value := Waiting(session, req)];
      runningThread := None;
    }

    // The same where the yield raises: the call is in the table, and the handler goes on
    // with an error.
    method FailToSuspend(session: nat, ghost req: nat, ghost n: Node)
      requires Valid() && runningThread.Some? && status[runningThread.value] == Registering(session, req)
      modifies this`suspendLookup, this`status
      ensures Valid()
      ensures View(n.(strayed := true)) == YieldRaised(old(View(n)))
    {
      hide CosOf;
      CosStatus(status, address, response, request, runningThread.value, Running);
      CosAt(status, address, response, request, runningThread.value);
      suspendLookup := suspendLookup[session := runningThread.value];
      status := status[runningThread.value := Running];
    }

    // A RESPONSE or ERROR with a session, in the dispatch loop: a coroutine that is over
    // cannot be resumed, but its entry is gone.
    method DeliverReply(session: nat, ghost n: Node) returns (resumed: bool)
      requires Valid() && runningThread.None?
      modifies this`suspendLookup, this`status, this`runningThread
      ensures Valid() && (resumed <==> session in old(suspendLookup) && old(suspendLookup)[session] in old(status))
      ensures View(n) == Resume(old(View(n)), session)
    {
      hide CosOf;
      resumed := false;
      if session in suspendLookup {
        var co := suspendLookup[session];
        suspendLookup := suspendLookup - {session};
        resumed := Alive(co);
        if resumed {
          runningThread := Some(co);
          CosStatus(status, address, response, request, co, Running);
          status := status[co := Running];
        }
      }
    }

    // Whether coroutine.resume can resume it
    method Alive(co: nat) returns (alive: bool)
      requires Valid()
      ensures alive <==> co in status
    {
      alive := co in address;
    }

    // send_response, inside the coroutine. packs: service.pack takes what the handler
    // returned; otherwise it raises, before anything is sent or cleared.
    method SendResponse(packs: bool) returns (raised: bool)
      requires runningThread.Some? && runningThread.value in response && runningThread.value in address
      requires runningThread.value in request
      modifies this`sent, this`address, this`response
      ensures var co := runningThread.value;
        var owes := old(response)[co] > 0;
        && (raised <==> owes && !packs)
        && address == (if raised then old(address) else old(address) - {co})
        && response == (if raised then old(response) else old(response) - {co})
        && sent == old(sent) +
             if owes && packs then [Outgoing(old(address)[co], Msg(RESPONSE, id, old(response)[co], request[co]))] else []
    {
      var co := runningThread.value;
      var session := response[co];
      if session > 0 {
        if !packs {
          return true;
        }
        SendMessage(address[co], RESPONSE, session, request[co]);
      }
      address, response := address - {co}, response - {co};
      return false;
    }

    // The error branch of resume_session
    method FailSession(co: nat)
      requires co in address && co in response && co in request
      modifies this`sent, this`address, this`response
      ensures address == old(address) - {co} && response == old(response) - {co}
      ensures sent == old(sent) +
        if old(response)[co] > 0 then [Outgoing(old(address)[co], Msg(ERROR, id, old(response)[co], request[co]))] else []
    {
      var from, session := address[co], response[co];
      address, response := address - {co}, response - {co};
      if session > 0 {
        SendMessage(from, ERROR, session, request[co]);
      }
    }

    // How a handler's end meets its duty: send_response, or resume_session's error branch,
    // or one after the other
    method MeetDuty(co: nat, raises: bool, packs: bool) returns (failed: bool)
      requires runningThread == Some(co) && co in address && co in response && co in request
      modifies this`sent, this`address, this`response, this`runningThread
      ensures runningThread.None? && address == old(address) - {co} && response == old(response) - {co}
      ensures var session := old(response)[co];
        && (failed <==> raises || (!packs && session > 0))
        && sent == old(sent) + if session > 0 then
             [Outgoing(old(address)[co], Msg(if failed then ERROR else RESPONSE, id, session, request[co]))] else []
    {
      failed := raises;
      if !raises {
        failed := SendResponse(packs);
      }
      runningThread := None;
      if failed {
        FailSession(co);
      }
    }

    // The rest of a coroutine's life: its handler returns or raises, and resume_session
    // sees the end of it.
    method RunToEnd(raises: bool, packs: bool) returns (failed: bool)
      requires Valid() && runningThread.Some?
      modifies this`sent, this`address, this`response, this`status, this`request, this`runningThread
      ensures Valid() && runningThread.None? && Cos() == old(Cos()) - {old(runningThread).value}
      ensures var duty := old(Cos())[old(runningThread).value].duty;
        && (failed <==> raises || (!packs && Owes(duty)))
        && sent == old(sent) +
             if Owes(duty) then [Reply(id, duty, if failed then ERROR else RESPONSE).value] else []
    {
      hide CosOf;
      CosRemove(status, address, response, request, runningThread.value);
      CosAt(status, address, response, request, runningThread.value);
      var co := runningThread.value;
      failed := MeetDuty(co, raises, packs);
      request, status := request - {co}, status - {co};
    }

    // One reply if one is owed, however the handler ended, and the duty is gone.
    method EndHandler(raises: bool, packs: bool, ghost n: Node) returns (failed: bool)
      requires Valid() && runningThread.Some?
      modifies this`sent, this`address, this`response, this`status, this`request, this`runningThread
      ensures Valid() && (failed <==> raises || (!packs && old(response)[old(runningThread).value] > 0))
      ensures var r := End(old(View(n)), id, failed);
        View(n).(outgoing := r.outgoing) == r && sent == old(sent) + if r.outgoing.Some? then [r.outgoing.value] else []
    {
      hide CosOf;
      CosAt(status, address, response, request, runningThread.value);
      failed := RunToEnd(raises, packs);
    }

    // One round of reply_pending
    method ReplyOne(co: nat)
      requires Valid() && co in response
      modifies this`sent
      ensures Valid() && sent == old(sent) + PassReply(id, Cos()[co].duty)
    {
      hide CosOf;
      CosAt(status, address, response, request, co);
      if response[co] > 0 {
        SendMessage(address[co], STOPPED, response[co], request[co]);
      }
    }

    // reply_pending: each coroutine that owes a reply sends one, in the table's order.
    method ReplyPending() returns (ghost order: seq<nat>)
      requires Valid()
      modifies this`sent
      ensures Valid() && (forall co :: co in order <==> co in Cos())
      ensures forall j, k :: 0 <= j < k < |order| ==> order[j] != order[k]
      ensures sent == old(sent) + PassReplies(id, Cos(), order)
    {
      hide CosOf, PassReplies, PassReply;
      var todo := response.Keys;
      ghost var cos := Cos();
      order := [];
      PassNone(id, cos);
      while todo != {}
        invariant todo <= response.Keys && Valid() && Cos() == cos
        invariant forall co :: co in order <==> co in response && co !in todo
        invariant forall j, k :: 0 <= j < k < |order| ==> order[j] != order[k]
        invariant sent == old(sent) + PassReplies(id, cos, order)
        decreases |todo|
      {
        var co :| co in todo;
        todo := todo - {co};
        PassOneMore(id, cos, order, co);
        ReplyOne(co);
        order := order + [co];
      }
    }
  }
}
