// What a call is told: over every run, whatever a service sends in answer to a request is
// what became of that request, and it is what the coroutine that called is resumed with.
module RpcOutcomes {
  import opened Wire
  import opened Rpc
  import opened RpcSafety
  import opened RpcRuns

  // In state s this step answers a request, with m to its caller: a handler that returned with
  // a RESPONSE, one that raised with an ERROR; a request still in the mailbox when the service
  // stops, or with a coroutine that never came to an end, with an ERROR without payload.
  ghost predicate Answers(s: Sys, step: Step, to: nat, m: Msg) {
    && m.session > 0
    && match step
       case Ends(i, failed) =>
         && i < |s.nodes| && s.nodes[i].running.Some? && s.nodes[i].running.value in s.nodes[i].cos
         && s.nodes[i].cos[s.nodes[i].running.value].duty == Duty(to, m.session, m.req)
         && m == Msg(if failed then ERROR else RESPONSE, i, m.session, m.req)
       case Drains(i) =>
         && i < |s.nodes| && s.nodes[i].closed && s.nodes[i].inbox != []
         && s.nodes[i].inbox[0] == Msg(REQUEST, to, m.session, m.req)
         && m == Msg(STOPPED, i, m.session, m.req)
       case Passes(i, co) =>
         && i < |s.nodes| && s.nodes[i].closed && co in s.nodes[i].cos
         && s.nodes[i].cos[co].duty == Duty(to, m.session, m.req)
         && m == Msg(STOPPED, i, m.session, m.req)
       case _ => false
  }

  // Each request gets its answer by the step that settles it.
  lemma EachIsAnswered(s: Sys, step: Step, to: nat, m: Msg)
    requires Enabled(s, step) && Answers(s, step, to, m)
    ensures var t := Apply(s, step);
      && t.nodes[step.i].outgoing == Some(Outgoing(to, m)) && t.replies == s.replies + [m.req]
      && forall j :: 0 <= j < |s.nodes| && j != step.i ==> t.nodes[j] == s.nodes[j]
  {
  }

  // m came from the k-th step of the run.
  ghost predicate CameAt(steps: seq<Step>, k: nat, mid: Sys, to: nat, m: Msg) {
    k < |steps| && Reaches(EMPTY, steps[..k], mid) && Enabled(mid, steps[k]) && Answers(mid, steps[k], to, m)
  }

  ghost predicate Came(steps: seq<Step>, to: nat, m: Msg) {
    exists k: nat, mid: Sys :: CameAt(steps, k, mid, to, m)
  }

  ghost predicate SentCame(steps: seq<Step>, n: Node) {
    n.outgoing.Some? && n.outgoing.value.msg.kind != REQUEST ==> Came(steps, n.outgoing.value.to, n.outgoing.value.msg)
  }

  ghost predicate QueuedCame(steps: seq<Step>, i: nat, n: Node) {
    forall k :: 0 <= k < |n.inbox| && n.inbox[k].kind != REQUEST ==> Came(steps, i, n.inbox[k])
  }

  // All replies on their way were sent in the run.
  ghost predicate AllCame(steps: seq<Step>, s: Sys) {
    forall i :: 0 <= i < |s.nodes| ==> SentCame(steps, s.nodes[i]) && QueuedCame(steps, i, s.nodes[i])
  }

  lemma CameMore(steps: seq<Step>, step: Step, to: nat, m: Msg)
    requires Came(steps, to, m)
    ensures Came(steps + [step], to, m)
  {
    hide Reaches, Answers, Enabled;
    var k: nat, mid: Sys :| CameAt(steps, k, mid, to, m);
    assert (steps + [step])[..k] == steps[..k];
    assert CameAt(steps + [step], k, mid, to, m);
  }

  lemma CameNow(steps: seq<Step>, s: Sys, step: Step, to: nat, m: Msg)
    requires Reaches(EMPTY, steps, s) && Enabled(s, step) && Answers(s, step, to, m)
    ensures Came(steps + [step], to, m)
  {
    hide Reaches, Answers, Enabled;
    assert (steps + [step])[..|steps|] == steps;
    assert CameAt(steps + [step], |steps|, s, to, m);
  }

  // A node that has no reply it had not before
  ghost predicate NoNews(was: Node, now: Node) {
    && (now.outgoing == was.outgoing || now.outgoing.None? || now.outgoing.value.msg.kind == REQUEST)
    && forall k :: 0 <= k < |now.inbox| ==> now.inbox[k] in was.inbox
  }

  lemma NoNewsCame(steps: seq<Step>, step: Step, i: nat, was: Node, now: Node)
    requires SentCame(steps, was) && QueuedCame(steps, i, was) && NoNews(was, now)
    ensures SentCame(steps + [step], now) && QueuedCame(steps + [step], i, now)
  {
    hide Came;
    if now.outgoing.Some? && now.outgoing.value.msg.kind != REQUEST {
      CameMore(steps, step, now.outgoing.value.to, now.outgoing.value.msg);
    }
    forall k | 0 <= k < |now.inbox| && now.inbox[k].kind != REQUEST ensures Came(steps + [step], i, now.inbox[k]) {
      CameMore(steps, step, i, now.inbox[k]);
    }
  }

  // The steps that send no reply

  lemma ReceiveQuiet(n: Node)
    requires n.inbox != []
    ensures NoNews(n, Receive(n))
  {
  }

  lemma PopQuiet(s: Sys, i: nat, j: nat)
    requires i < |s.nodes| && j < |s.nodes| && s.nodes[i].inbox != []
    ensures |ApplyPop(s, i).nodes| == |s.nodes| && NoNews(s.nodes[j], ApplyPop(s, i).nodes[j])
  {
    hide Receive, Move;
    ReceiveQuiet(s.nodes[i]);
  }

  lemma QuietStep(s: Sys, step: Step, j: nat)
    requires Enabled(s, step) && j < |s.nodes| && !step.Ends? && !step.Drains? && !step.Passes? && !step.Pushes?
    ensures j < |Apply(s, step).nodes| && NoNews(s.nodes[j], Apply(s, step).nodes[j])
  {
    hide FirstFree, ApplyPop, NoNews;
    if step.Pops? {
      PopQuiet(s, step.i, j);
    } else {
      SameQuiet(s.nodes[j]);
      if !step.Spawns? {
        LocalQuiet(s, step);
        assert j != step.i ==> Apply(s, step).nodes[j] == s.nodes[j];
      }
    }
  }

  lemma SameQuiet(n: Node)
    ensures NoNews(n, n)
  {
  }

  lemma LocalQuiet(s: Sys, step: Step)
    requires Enabled(s, step) && !step.Ends? && !step.Drains? && !step.Passes? && !step.Pushes? && !step.Pops? && !step.Spawns?
    ensures step.i < |s.nodes| == |Apply(s, step).nodes| && NoNews(s.nodes[step.i], Apply(s, step).nodes[step.i])
  {
    hide FirstFree;
  }

  // The steps that may send one

  // Node j then has no news, or is the one of the step and sends its answer.
  ghost predicate Tells(s: Sys, step: Step, j: nat, was: Node, now: Node) {
    || NoNews(was, now)
    || (!step.Spawns? && j == step.i && now.outgoing.Some? && NoNews(was, now.(outgoing := None))
        && Answers(s, step, now.outgoing.value.to, now.outgoing.value.msg))
  }

  lemma EndsTells(s: Sys, i: nat, failed: bool)
    requires Enabled(s, Ends(i, failed))
    ensures Tells(s, Ends(i, failed), i, s.nodes[i], End(s.nodes[i], i, failed))
  {
  }

  lemma DrainsTells(s: Sys, i: nat)
    requires Enabled(s, Drains(i)) && StageInv(s.nodes[i])
    ensures Tells(s, Drains(i), i, s.nodes[i], Drain(s.nodes[i], i))
  {
  }

  lemma PassesTells(s: Sys, i: nat, co: nat)
    requires Enabled(s, Passes(i, co)) && StageInv(s.nodes[i])
    ensures Tells(s, Passes(i, co), i, s.nodes[i], Pass(s.nodes[i], i, co))
  {
  }

  lemma ReplyStep(s: Sys, step: Step, j: nat)
    requires Enabled(s, step) && j < |s.nodes| && (step.Ends? || step.Drains? || step.Passes?)
    requires StageInv(s.nodes[step.i])
    ensures j < |Apply(s, step).nodes| && Tells(s, step, j, s.nodes[j], Apply(s, step).nodes[j])
  {
    hide Tells, NoNews, Answers, StageInv, Move, FirstFree, Drain, Pass, End;
    SameQuiet(s.nodes[j]);
    QuietTells(s, step, j);
    match step
    case Ends(i, failed) => EndsTells(s, i, failed);
    case Drains(i) => DrainsTells(s, i);
    case Passes(i, co) => PassesTells(s, i, co);
  }

  lemma QuietTells(s: Sys, step: Step, j: nat)
    requires j < |s.nodes|
    requires step.Ends? || step.Drains? || step.Passes?
    ensures Tells(s, step, j, s.nodes[j], s.nodes[j])
  {
    hide Answers;
  }

  // Node j has no news, or is the one the message out was pushed to.
  ghost predicate Gets(was: Node, now: Node, out: Outgoing, j: nat) {
    || NoNews(was, now)
    || (j == out.to && |now.inbox| == |was.inbox| + 1
        && var m := now.inbox[|was.inbox|];
           && now.inbox == was.inbox + [m] && NoNews(was, now.(inbox := was.inbox))
           && if out.msg.kind == REQUEST then m.kind == REQUEST else m == out.msg)
  }

  lemma PushStep(s: Sys, i: nat, ok: bool, j: nat)
    requires i < |s.nodes| && j < |s.nodes| && s.nodes[i].outgoing.Some?
    ensures j < |ApplyPush(s, i, ok).nodes|
    ensures Gets(s.nodes[j], ApplyPush(s, i, ok).nodes[j], s.nodes[i].outgoing.value, j)
  {
    hide ApplyPush, Sent;
    PushedNode(s, i, ok, j);
  }

  lemma NodeCame(steps: seq<Step>, s: Sys, step: Step, j: nat)
    requires Reaches(EMPTY, steps, s) && Inv(s) && AllCame(steps, s) && Enabled(s, step) && j < |s.nodes|
    ensures j < |Apply(s, step).nodes|
    ensures SentCame(steps + [step], Apply(s, step).nodes[j]) && QueuedCame(steps + [step], j, Apply(s, step).nodes[j])
  {
    hide Reaches, Inv, NodesInv, NodeInv, Enabled, Apply, ApplyPush, Answers, Came, NoNews, SentCame, QueuedCame;
    var n, t := s.nodes[j], Apply(s, step);
    assert SentCame(steps, n) && QueuedCame(steps, j, n);
    if step.Ends? || step.Drains? || step.Passes? {
      StageAt(s, step);
      ReplyStep(s, step, j);
      if !NoNews(n, t.nodes[j]) {
        var out := t.nodes[j].outgoing.value;
        CameNow(steps, s, step, out.to, out.msg);
        NoNewsCame(steps, step, j, n, t.nodes[j].(outgoing := None));
        SentAnew(steps + [step], j, t.nodes[j]);
      } else {
        NoNewsCame(steps, step, j, n, t.nodes[j]);
      }
    } else if step.Pushes? {
      PushedCame(steps, s, step.i, step.ok, j);
    } else {
      QuietStep(s, step, j);
      NoNewsCame(steps, step, j, n, t.nodes[j]);
    }
  }

  lemma StageAt(s: Sys, step: Step)
    requires Inv(s) && Enabled(s, step) && (step.Ends? || step.Drains? || step.Passes?)
    ensures step.i < |s.nodes| && StageInv(s.nodes[step.i])
  {
    hide InboxInv, DutyInv, SendInv, OwnInv, WaitNode, CallsInv, HistoryInv;
    assert NodeInv(step.i, s.nodes[step.i], s.calls);
  }

  lemma SentAnew(steps: seq<Step>, j: nat, n: Node)
    requires n.outgoing.Some? && Came(steps, n.outgoing.value.to, n.outgoing.value.msg)
    requires QueuedCame(steps, j, n.(outgoing := None))
    ensures SentCame(steps, n) && QueuedCame(steps, j, n)
  {
    hide Came;
  }

  lemma PushedCame(steps: seq<Step>, s: Sys, i: nat, ok: bool, j: nat)
    requires AllCame(steps, s) && Enabled(s, Pushes(i, ok)) && j < |s.nodes|
    ensures var t := Apply(s, Pushes(i, ok));
      && j < |t.nodes| && SentCame(steps + [Pushes(i, ok)], t.nodes[j]) && QueuedCame(steps + [Pushes(i, ok)], j, t.nodes[j])
  {
    hide ApplyPush, Came, NoNews;
    var n, out, t := s.nodes[j], s.nodes[i].outgoing.value, ApplyPush(s, i, ok);
    var all := steps + [Pushes(i, ok)];
    assert SentCame(steps, n) && QueuedCame(steps, j, n) && SentCame(steps, s.nodes[i]);
    PushStep(s, i, ok, j);
    if NoNews(n, t.nodes[j]) {
      NoNewsCame(steps, Pushes(i, ok), j, n, t.nodes[j]);
    } else {
      NoNewsCame(steps, Pushes(i, ok), j, n, t.nodes[j].(inbox := n.inbox));
      if out.msg.kind != REQUEST {
        CameMore(steps, Pushes(i, ok), out.to, out.msg);
      }
    }
  }

  lemma StepCame(steps: seq<Step>, s: Sys, step: Step)
    requires Reaches(EMPTY, steps, s) && Inv(s) && AllCame(steps, s) && Enabled(s, step)
    ensures AllCame(steps + [step], Apply(s, step))
  {
    hide Reaches, Inv, Enabled, Apply, SentCame, QueuedCame, Came;
    var t := Apply(s, step);
    forall j | 0 <= j < |t.nodes| ensures SentCame(steps + [step], t.nodes[j]) && QueuedCame(steps + [step], j, t.nodes[j]) {
      NodeCount(s, step);
      if j < |s.nodes| {
        NodeCame(steps, s, step, j);
      } else {
        NewCame(steps + [step], j);
      }
    }
  }

  lemma NodeCount(s: Sys, step: Step)
    requires Enabled(s, step)
    ensures |Apply(s, step).nodes| == |s.nodes| || (step.Spawns? && Apply(s, step).nodes == s.nodes + [NEW_NODE])
  {
    hide FirstFree;
  }

  lemma NewCame(steps: seq<Step>, j: nat)
    ensures SentCame(steps, NEW_NODE) && QueuedCame(steps, j, NEW_NODE)
  {
  }

  lemma {:induction false} RunsOn(s: Sys, steps: seq<Step>, t: Sys, step: Step)
    requires Reaches(s, steps, t) && Enabled(t, step)
    ensures Reaches(s, steps + [step], Apply(t, step))
    decreases |steps|
  {
    hide Enabled, Apply;
    if steps == [] {
      assert (steps + [step])[1..] == [];
    } else {
      RunsOn(Apply(s, steps[0]), steps[1..], t, step);
      assert (steps + [step])[1..] == steps[1..] + [step];
    }
  }

  lemma {:induction false} RunCame(past: seq<Step>, s: Sys, steps: seq<Step>, r: Sys)
    requires Reaches(EMPTY, past, s) && Inv(s) && AllCame(past, s) && Reaches(s, steps, r)
    ensures AllCame(past + steps, r)
    decreases |steps|
  {
    hide Inv, AllCame, Enabled, Apply;
    if steps == [] {
      assert past + steps == past;
    } else {
      StepCame(past, s, steps[0]);
      StepKeeps(s, steps[0]);
      RunsOn(EMPTY, past, s, steps[0]);
      RunCame(past + [steps[0]], Apply(s, steps[0]), steps[1..], r);
      assert past + steps == past + [steps[0]] + steps[1..];
    }
  }

  // Every reply in the system, on its way out or in a mailbox, is the answer some step of the
  // run gave to the request it is a reply to.
  lemma RepliesCome(steps: seq<Step>, s: Sys)
    requires Reaches(EMPTY, steps, s)
    ensures AllCame(steps, s)
  {
    hide Inv;
    EmptyInv();
    assert AllCame([], EMPTY);
    RunCame([], EMPTY, steps, s);
    assert [] + steps == steps;
  }

  // What call returns. The reply that resumes it is for its own request. A RESPONSE means that
  // the handler of that request, in the service called, ran to its end and returned; an ERROR
  // that it raised; an ERROR without payload that the service had closed and the request was
  // either still in its mailbox or with a coroutine of its that had not come to an end.
  lemma CallIsToldTheTruth(steps: seq<Step>, s: Sys, i: nat) returns (k: nat, mid: Sys)
    requires Reaches(EMPTY, steps, s) && Enabled(s, Pops(i))
    requires s.nodes[i].inbox[0].kind != REQUEST && YieldRaises(i) !in steps
    ensures var n := s.nodes[i];
      var m := n.inbox[0];
      && m.session in n.pending && n.pending[m.session] in n.cos
      && n.cos[n.pending[m.session]].status == Waiting(m.session, m.req)
      && Apply(s, Pops(i)).resumes == s.resumes + [(m.req, m.req)]
    ensures k < |steps| && Reaches(EMPTY, steps[..k], mid)
    ensures var m := s.nodes[i].inbox[0];
      && m.from < |mid.nodes|
      && var target := mid.nodes[m.from];
         match m.kind
         case REQUEST => false
         case RESPONSE => steps[k] == Ends(m.from, false) && RunsFor(target, Duty(i, m.session, m.req))
         case ERROR => steps[k] == Ends(m.from, true) && RunsFor(target, Duty(i, m.session, m.req))
         case STOPPED =>
           && target.closed
           && ((steps[k] == Drains(m.from) && target.inbox != [] && target.inbox[0] == Msg(REQUEST, i, m.session, m.req))
               || (steps[k].Passes? && steps[k].i == m.from && steps[k].co in target.cos
                   && target.cos[steps[k].co].duty == Duty(i, m.session, m.req)))
  {
    hide Reaches, Inv, Apply;
    RepliesFindTheirCall(steps, s, i);
    RepliesCome(steps, s);
    var m := s.nodes[i].inbox[0];
    assert QueuedCame(steps, i, s.nodes[i]);
    assert Came(steps, i, m);
    k, mid :| CameAt(steps, k, mid, i, m);
    PopResumes(s, i);
  }

  // The coroutine that runs in n has this duty.
  predicate RunsFor(n: Node, duty: Duty) {
    n.running.Some? && n.running.value in n.cos && n.cos[n.running.value].duty == duty
  }

  lemma PopResumes(s: Sys, i: nat)
    requires i < |s.nodes| && s.nodes[i].inbox != [] && s.nodes[i].running.None? && Enabled(s, Pops(i))
    requires var n := s.nodes[i];
      var m := n.inbox[0];
      && m.kind != REQUEST && m.session > 0 && m.session in n.pending && n.pending[m.session] in n.cos
      && n.cos[n.pending[m.session]].status == Waiting(m.session, m.req)
    ensures Apply(s, Pops(i)).resumes == s.resumes + [(s.nodes[i].inbox[0].req, s.nodes[i].inbox[0].req)]
  {
    PopResult(s, i);
  }

  // A request that is dispatched, one that wants no reply included, starts one new coroutine,
  // which runs and owes what the request asks for.
  lemma RequestStarts(steps: seq<Step>, s: Sys, i: nat)
    requires Reaches(EMPTY, steps, s) && Enabled(s, Pops(i)) && s.nodes[i].inbox[0].kind == REQUEST
    ensures var n, t := s.nodes[i], Apply(s, Pops(i)).nodes[i];
      var m := n.inbox[0];
      && t.inbox == n.inbox[1..] && t.running.Some? && t.running.value !in n.cos
      && t.cos == n.cos[t.running.value := Co(Running, Duty(m.from, m.session, m.req))]
      && t.outgoing == n.outgoing && t.pending == n.pending
  {
    hide Reaches, InboxInv, SendInv, OwnInv, WaitNode, StageInv, CallsInv, HistoryInv;
    AnyRun(steps, s);
    NodeAt(s, i);
  }
}
