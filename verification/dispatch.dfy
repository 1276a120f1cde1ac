// One wakeup of a service thread: the dispatcher's loop over its mailbox, at most 256
// messages, and what the async callback does when the batch was full.
module Dispatch {
  import opened Wire
  import opened Mailbox
  import Service

  // What the loop meets before and at one service_recv: what other threads did to the
  // mailbox, whether the state still reads RUNNING, and whether the handler that the
  // message wakes calls service.quit.
  datatype Turn<T> = Turn(others: seq<Other<T>>, running: bool, quits: bool)

  // Why a round was over
  datatype End = Full | Empty | NotRunning | Quit

  function TurnAt<T>(turns: seq<Turn<T>>, k: nat): Turn<T> {
    if k < |turns| then turns[k] else Turn([], true, false)
  }

  // The loop from its k-th message on: the mailbox it leaves, what it took, why it ended
  function Round<T>(b: Box<T>, turns: seq<Turn<T>>, k: nat): (r: (Box<T>, seq<T>, End))
    requires b.Valid() && k <= Service.DISPATCH_BATCH_SIZE
    ensures r.0.Valid()
    decreases Service.DISPATCH_BATCH_SIZE - k
  {
    if k == Service.DISPATCH_BATCH_SIZE then (b, [], Full)
    else
      var turn := TurnAt(turns, k);
      var seen := OtherSteps(b, turn.others);
      if !turn.running then (seen, [], NotRunning)
      else
        var (left, out) := Pop(seen);
        if out.None? then (left, [], Empty)
        else if turn.quits then (left, [out.value], Quit)
        else
          var (r, more, end) := Round(left, turns, k + 1);
          (r, [out.value] + more, end)
  }

  // A round that took fewer than 256 messages, and was not cut short by a stop, left the
  // mailbox empty and unscheduled, so that the next push asks for a wakeup.
  lemma {:induction false} RoundTakes<T>(b: Box<T>, turns: seq<Turn<T>>, k: nat)
    requires b.Valid() && k <= Service.DISPATCH_BATCH_SIZE
    ensures var (r, taken, end) := Round(b, turns, k);
      && k + |taken| <= Service.DISPATCH_BATCH_SIZE
      && (end == Full <==> k + |taken| == Service.DISPATCH_BATCH_SIZE && end != Quit)
      && (end == Empty ==> r.queue == [] && !r.scheduled)
    decreases Service.DISPATCH_BATCH_SIZE - k
  {
    if k < Service.DISPATCH_BATCH_SIZE {
      var turn := TurnAt(turns, k);
      var seen := OtherSteps(b, turn.others);
      if turn.running && Pop(seen).1.Some? && !turn.quits {
        RoundTakes(Pop(seen).0, turns, k + 1);
      }
    }
  }

  lemma PopTakesHead<T>(b: Box<T>)
    requires b.Valid()
    ensures var (left, out) := Pop(b);
      if out.None? then left.queue == b.queue == [] else b.queue == [out.value] + left.queue
  {
  }

  // With nobody else at the mailbox a round takes its messages in order from the front.
  lemma {:induction false} RoundTakesThePrefix<T>(b: Box<T>, turns: seq<Turn<T>>, k: nat)
    requires b.Valid() && k <= Service.DISPATCH_BATCH_SIZE
    requires forall i :: 0 <= i < |turns| ==> turns[i].others == []
    ensures var (r, taken, end) := Round(b, turns, k);
      b.queue == taken + r.queue
    decreases Service.DISPATCH_BATCH_SIZE - k
  {
    hide Pop, OtherStep;
    if k < Service.DISPATCH_BATCH_SIZE {
      var turn := TurnAt(turns, k);
      assert OtherSteps(b, turn.others) == b;
      PopTakesHead(b);
      var (left, out) := Pop(b);
      if turn.running && out.Some? && !turn.quits {
        RoundTakesThePrefix(left, turns, k + 1);
        var (r, more, end) := Round(left, turns, k + 1);
        assert [out.value] + (more + r.queue) == ([out.value] + more) + r.queue;
      }
    }
  }

  // One turn of the loop
  function OneTurn<T>(b: Box<T>, turn: Turn<T>): (r: (Box<T>, Option<T>))
    requires b.Valid()
    ensures r.0.Valid()
  {
    var seen := OtherSteps(b, turn.others);
    if turn.running then Pop(seen) else (seen, None)
  }

  // service_recv, after whatever the other threads did first
  method Receive<T(0)>(box: MailboxRing<T>, turn: Turn<T>) returns (out: Option<T>)
    requires box.Valid()
    modifies box, box.items
    ensures box.Valid() && (box.items == old(box.items) || fresh(box.items))
    ensures (box.View(), out) == OneTurn(old(box.View()), turn)
  {
    hide Unrolled, Pop, OtherStep, MailboxRing.Valid, MailboxRing.View;
    box.RunOthers(turn.others);
    if !turn.running {
      return None;
    }
    out := box.TryPop();
  }

  // The whole round from start, when the loop has taken these and the mailbox is b
  ghost predicate SoFar<T>(start: Box<T>, turns: seq<Turn<T>>, b: Box<T>, taken: seq<T>, end: End) {
    && start.Valid() && b.Valid() && |taken| <= Service.DISPATCH_BATCH_SIZE
    && var whole := Round(start, turns, 0);
       if end != Full then whole == (b, taken, end)
       else
         var rest := Round(b, turns, |taken|);
         whole == (rest.0, taken + rest.1, rest.2)
  }

  lemma SoFarNothing<T>(start: Box<T>, turns: seq<Turn<T>>)
    requires start.Valid()
    ensures SoFar(start, turns, start, [], Full)
  {
    assert [] + Round(start, turns, 0).1 == Round(start, turns, 0).1;
  }

  lemma SoFarAll<T>(start: Box<T>, turns: seq<Turn<T>>, b: Box<T>, taken: seq<T>, end: End)
    requires SoFar(start, turns, b, taken, end) && (end != Full || |taken| == Service.DISPATCH_BATCH_SIZE)
    ensures start.Valid() && Round(start, turns, 0) == (b, taken, end)
  {
    assert taken + [] == taken;
  }

  lemma RoundStep<T>(b: Box<T>, turns: seq<Turn<T>>, k: nat)
    requires b.Valid() && k < Service.DISPATCH_BATCH_SIZE
    ensures var turn := TurnAt(turns, k);
      var (left, out) := OneTurn(b, turn);
      Round(b, turns, k) ==
        if out.None? then (left, [], if turn.running then Empty else NotRunning)
        else if turn.quits then (left, [out.value], Quit)
        else var rest := Round(left, turns, k + 1); (rest.0, [out.value] + rest.1, rest.2)
  {
  }

  lemma SoFarOneMore<T>(start: Box<T>, turns: seq<Turn<T>>, b: Box<T>, taken: seq<T>)
    requires SoFar(start, turns, b, taken, Full) && |taken| < Service.DISPATCH_BATCH_SIZE
    ensures var turn := TurnAt(turns, |taken|);
      var (left, out) := OneTurn(b, turn);
      if out.None? then SoFar(start, turns, left, taken, if turn.running then Empty else NotRunning)
      else SoFar(start, turns, left, taken + [out.value], if turn.quits then Quit else Full)
  {
    hide OneTurn, Round;
    RoundStep(b, turns, |taken|);
    assert taken + [] == taken;
    var (left, out) := OneTurn(b, TurnAt(turns, |taken|));
    if out.Some? {
      var more := Round(left, turns, |taken| + 1).1;
      assert (taken + [out.value]) + more == taken + ([out.value] + more);
    }
  }

  // The main loop of service._on_msg
  method DispatchLoop<T(0)>(box: MailboxRing<T>, turns: seq<Turn<T>>) returns (taken: seq<T>, end: End)
    requires box.Valid()
    modifies box, box.items
    ensures box.Valid() && (box.items == old(box.items) || fresh(box.items))
    ensures (box.View(), taken, end) == Round(old(box.View()), turns, 0)
  {
    hide Unrolled, OneTurn, MailboxRing.Valid, MailboxRing.View, Round, SoFar;
    ghost var start := box.View();
    SoFarNothing(start, turns);
    taken, end := [], Full;
    while end == Full && |taken| < Service.DISPATCH_BATCH_SIZE
      invariant box.Valid() && (box.items == old(box.items) || fresh(box.items))
      invariant |taken| <= Service.DISPATCH_BATCH_SIZE && SoFar(start, turns, box.View(), taken, end)
      decreases end == Full, Service.DISPATCH_BATCH_SIZE - |taken|
    {
      SoFarOneMore(start, turns, box.View(), taken);
      var turn := TurnAt(turns, |taken|);
      var out := Receive(box, turn);
      if out.None? {
        end := if turn.running then Empty else NotRunning;
      } else {
        taken := taken + [out.value];
        end := if turn.quits then Quit else Full;
      }
    }
    SoFarAll(start, turns, box.View(), taken, end);
  }

  // service_async_cb around service._on_msg. last is what the others do after the loop;
  // again says that the callback sends the next wakeup itself.
  method AsyncRound<T(0)>(box: MailboxRing<T>, turns: seq<Turn<T>>, last: seq<Other<T>>)
    returns (taken: seq<T>, end: End, again: bool)
    requires box.Valid()
    modifies box, box.items
    ensures box.Valid() && (box.items == old(box.items) || fresh(box.items))
    ensures var (r, t, e) := Round(old(box.View()), turns, 0);
      && taken == t && end == e
      && box.View() == (if e == Full then FinishBatch(OtherSteps(r, last)).0 else r)
      && again == (e == Full && FinishBatch(OtherSteps(r, last)).1)
    ensures |taken| <= Service.DISPATCH_BATCH_SIZE && (again ==> |taken| == Service.DISPATCH_BATCH_SIZE)
    ensures again ==> !box.closed && box.View().queue != []
    ensures !again && (end == Full || end == Empty) ==> !box.scheduled && (box.closed || box.View().queue == [])
  {
    hide Unrolled, Pop, OtherStep, Round;
    RoundTakes(box.View(), turns, 0);
    taken, end := DispatchLoop(box, turns);
    again := false;
    if end == Full {
      box.RunOthers(last);
      again := box.FinishBatchLocked();
    }
  }
}
