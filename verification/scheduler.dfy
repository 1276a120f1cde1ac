// The scheduler's heap of task objects, each of which knows its own position, against
// TaskHeap.
module Scheduler {
  import opened Wire
  import opened TaskHeap
  import opened TaskDrain

  class Task {
    const job: Job
    var deadlineMs: real
    var sequence: nat
    // From 1; 0 is nil.
    var heapIndex: nat

    constructor (job: Job, deadlineMs: real, sequence: nat)
      ensures this.job == job && this.deadlineMs == deadlineMs && this.sequence == sequence && heapIndex == 0
    {
      this.job, this.deadlineMs, this.sequence, heapIndex := job, deadlineMs, sequence, 0;
    }

    ghost function Entry(): Entry<Job>
      reads this`deadlineMs, this`sequence
    {
      TaskHeap.Entry(deadlineMs, sequence, job)
    }
  }

  ghost function Entries(heap: seq<Task>): (r: seq<Entry<Job>>)
    reads heap
    ensures |r| == |heap| && forall i :: 0 <= i < |heap| ==> r[i] == heap[i].Entry()
  {
    if heap == [] then [] else Entries(heap[..|heap| - 1]) + [heap[|heap| - 1].Entry()]
  }

  predicate TaskBefore(left: Task, right: Task)
    reads left, right
    ensures TaskBefore(left, right) <==> Before(left.Entry(), right.Entry())
  {
    || left.deadlineMs < right.deadlineMs
    || (left.deadlineMs == right.deadlineMs && left.sequence < right.sequence)
  }

  class TaskQueue {
    var heap: seq<Task>
    // The tasks that may be in the heap
    ghost var tasks: set<Task>

    // Each task knows where it is; none is there twice.
    ghost predicate Indexed()
      reads this, tasks
    {
      forall i :: 0 <= i < |heap| ==> heap[i] in tasks && heap[i].heapIndex == i + 1
    }

    ghost function View(): (r: seq<Entry<Job>>)
      reads this, heap
      ensures |r| == |heap| && forall i :: 0 <= i < |heap| ==> r[i] == heap[i].Entry()
    {
      Entries(heap)
    }

    ghost predicate Valid()
      reads this, tasks, heap
    {
      Indexed() && Ordered(View())
    }

    lemma HeapInTasks()
      requires Indexed()
      ensures forall t :: t in heap ==> t in tasks
    {
    }

    constructor ()
      ensures Valid() && heap == [] && tasks == {}
    {
      heap, tasks := [], {};
    }

    method SwapTasks(left: nat, right: nat)
      requires 1 <= left <= |heap| && 1 <= right <= |heap| && Indexed()
      modifies this`heap, tasks`heapIndex
      ensures Indexed() && View() == Swap(old(View()), left - 1, right - 1)
    {
      heap := heap[left - 1 := heap[right - 1]][right - 1 := heap[left - 1]];
      heap[left - 1].heapIndex := left;
      heap[right - 1].heapIndex := right;
      assert View() == Swap(old(View()), left - 1, right - 1);
    }

    method SiftUp(start: nat)
      requires 1 <= start <= |heap| && Indexed()
      modifies this`heap, tasks`heapIndex
      ensures Indexed() && View() == TaskHeap.SiftUp(old(View()), start - 1)
    {
      hide Swap, Before, View;
      var index := start;
      while index > 1
        invariant 1 <= index <= |heap| == old(|heap|) && Indexed()
        invariant TaskHeap.SiftUp(View(), index - 1) == TaskHeap.SiftUp(old(View()), start - 1)
      {
        var parent := index / 2;
        assert parent - 1 == Parent(index - 1);
        if !TaskBefore(heap[index - 1], heap[parent - 1]) {
          break;
        }
        SwapTasks(index, parent);
        index := parent;
      }
    }

    // The smallest of index and its children in the heap
    method PickSmallest(index: nat) returns (smallest: nat)
      requires 1 <= index <= |heap|
      ensures smallest >= 1 && smallest - 1 == Smallest(View(), index - 1)
    {
      hide Before, View;
      var left := index * 2;
      var right := left + 1;
      smallest := index;
      if left <= |heap| && TaskBefore(heap[left - 1], heap[smallest - 1]) {
        smallest := left;
      }
      if right <= |heap| && TaskBefore(heap[right - 1], heap[smallest - 1]) {
        smallest := right;
      }
    }

    method SiftDown(start: nat)
      requires 1 <= start <= |heap| && Indexed()
      modifies this`heap, tasks`heapIndex
      ensures Indexed() && View() == TaskHeap.SiftDown(old(View()), start - 1)
    {
      hide Swap, Before, View, Smallest;
      var index := start;
      while true
        invariant 1 <= index <= |heap| == old(|heap|) && Indexed()
        invariant TaskHeap.SiftDown(View(), index - 1) == TaskHeap.SiftDown(old(View()), start - 1)
        decreases |heap| - index
      {
        var smallest := PickSmallest(index);
        if smallest == index {
          break;
        }
        SwapTasks(index, smallest);
        index := smallest;
      }
    }

    // heap_push up to its sift_up
    method Append(task: Task)
      requires Indexed() && task !in heap
      modifies this`heap, this`tasks, task`heapIndex
      ensures Indexed() && |heap| == old(|heap|) + 1 && tasks == old(tasks) + {task}
      ensures View() == old(View()) + [task.Entry()]
    {
      hide View;
      ghost var was := View();
      heap, tasks := heap + [task], tasks + {task};
      task.heapIndex := |heap|;
      assert Entries(heap) == was + [task.Entry()];
      Viewed();
    }

    method Push(task: Task)
      requires Valid() && task !in heap
      modifies this`heap, this`tasks, tasks`heapIndex, task`heapIndex
      ensures Valid() && tasks == old(tasks) + {task}
      ensures View() == TaskHeap.Push(old(View()), task.Entry())
    {
      hide Before, Swap, Ordered, Indexed, View;
      PushOrders(View(), task.Entry());
      Append(task);
      SiftUp(|heap|);
    }

    // The last task leaves.
    method DropLast()
      requires |heap| > 0 && Indexed()
      modifies this`heap, this`tasks, tasks`heapIndex
      ensures Indexed() && heap == old(heap)[..old(|heap|) - 1] && old(heap[|heap| - 1]).heapIndex == 0
      ensures tasks == old(tasks) - {old(heap[|heap| - 1])}
      ensures View() == old(View())[..old(|heap|) - 1]
    {
      hide View;
      ghost var was := View();
      var last := heap[|heap| - 1];
      last.heapIndex := 0;
      heap, tasks := heap[..|heap| - 1], tasks - {last};
      assert Entries(heap) == was[..|heap|];
      Viewed();
    }

    // The last task takes the place of another one, which leaves.
    method MoveLast(index: nat)
      requires 1 <= index < |heap| && Indexed()
      modifies this`heap, this`tasks, tasks`heapIndex
      ensures Indexed() && |heap| == old(|heap|) - 1 && old(heap[index - 1]).heapIndex == 0
      ensures tasks == old(tasks) - {old(heap[index - 1])}
      ensures View() == Shrunk(old(View()), index - 1)
    {
      hide View;
      ghost var was := View();
      var gone, last := heap[index - 1], heap[|heap| - 1];
      assert gone.heapIndex == index && last.heapIndex == |heap| && gone != last;
      gone.heapIndex := 0;
      heap, tasks := heap[..|heap| - 1][index - 1 := last], tasks - {gone};
      last.heapIndex := index;
      assert gone.heapIndex == 0;
      assert forall i :: 0 <= i < |heap| ==> heap[i].Entry() == Shrunk(was, index - 1)[i];
      assert Entries(heap) == Shrunk(was, index - 1);
      Viewed();
    }

    // What heap_pop and heap_remove share
    method TakeOut(index: nat)
      requires 1 <= index <= |heap| && Indexed()
      modifies this`heap, this`tasks, tasks`heapIndex
      ensures Indexed() && |heap| == old(|heap|) - 1 && old(heap[index - 1]).heapIndex == 0
      ensures tasks == old(tasks) - {old(heap[index - 1])}
      ensures View() == Shrunk(old(View()), index - 1)
    {
      hide View;
      if index == |heap| {
        DropLast();
      } else {
        MoveLast(index);
      }
    }

    lemma Viewed()
      ensures View() == Entries(heap)
    {
    }

    // heap_pop: None is nil.
    method Pop() returns (root: Option<Task>)
      requires Valid()
      modifies this`heap, this`tasks, tasks`heapIndex
      ensures Valid() && (root.None? <==> old(heap) == []) && (root.None? ==> heap == [])
      ensures root.Some? ==> root.value == old(heap[0]) && root.value.heapIndex == 0 && tasks == old(tasks) - {root.value}
      ensures root.Some? ==> root.value.Entry() == old(View()[0]) && View() == Rest(old(View()))
    {
      hide Before, Swap, Ordered, Smallest, View, Rest, Shrunk, TaskHeap.SiftDown;
      var size := |heap|;
      if size == 0 {
        return None;
      }
      RestOrders(View());
      RestIsShrunk(View());
      root := Some(heap[0]);
      TakeOut(1);
      if size > 1 {
        SiftDown(1);
      }
    }

    // heap_remove
    method Remove(task: Task) returns (removed: bool)
      requires Valid()
      modifies this`heap, this`tasks, tasks`heapIndex
      ensures Valid() && (removed <==> task in old(heap))
      ensures !removed ==> heap == old(heap) && View() == old(View())
      ensures removed ==>
        var i := old(task.heapIndex) - 1;
        0 <= i < old(|heap|) && old(View())[i] == task.Entry() && task.heapIndex == 0 && View() == Without(old(View()), i)
      ensures tasks <= old(tasks)
    {
      hide Before, Swap, Ordered, Smallest, View, Without, Shrunk, TaskHeap.SiftDown, TaskHeap.SiftUp;
      var index, size := task.heapIndex, |heap|;
      if index < 1 || index > size || heap[index - 1] != task {
        return false;
      }
      WithoutOrders(View(), index - 1);
      WithoutIsShrunk(View(), index - 1);
      TakeOut(index);
      if index == size {
        return true;
      }
      assert index > 1 ==> index / 2 - 1 == Parent(index - 1);
      if index > 1 && TaskBefore(heap[index - 1], heap[index / 2 - 1]) {
        SiftUp(index);
      } else {
        SiftDown(index);
      }
      return true;
    }
  }

  // How the calls that arming the timer makes turn out: None and false raise.
  datatype Calls = Calls(context: bool, timer: bool, now: Option<real>, stop: bool, start: bool)

  const MAX_RECHECK_MS := 60000

  // math.ceil of a remaining time, kept in 0..MAX_RECHECK_MS
  function Delay(remaining: real): (d: int)
    ensures 0 <= d <= 60000
    ensures d as real >= remaining || d == 60000
    ensures remaining > 0.0 && d > 0 ==> (d - 1) as real < remaining
    ensures remaining <= 0.0 ==> d == 0
  {
    if remaining < 0.0 then 0
    else
      var floor := remaining.Floor;
      var ceil := if floor as real == remaining then floor else floor + 1;
      if ceil > MAX_RECHECK_MS then MAX_RECHECK_MS else ceil
  }

  class TaskScheduler {
    const queue: TaskQueue
    var sequence: nat
    var timerArmed: bool
    var timerDelay: int
    var draining: bool

    ghost predicate Valid()
      reads this, queue, queue.tasks, queue.heap
    {
      queue.Valid() && forall t :: t in queue.tasks ==> t.sequence <= sequence
    }

    // The task pushed last is found by its number.
    lemma Newest(task: Task, was: seq<Entry<Job>>)
      requires Valid() && task in queue.tasks && Ordered(was) && queue.View() == Push(was, task.Entry())
      requires forall t :: t in queue.tasks && t != task ==> t.sequence < task.sequence
      ensures task in queue.heap
      ensures multiset(queue.View()) == multiset(was) + multiset{task.Entry()}
    {
      PushOrders(was, task.Entry());
      assert task.Entry() in multiset(queue.View());
      var k :| 0 <= k < |queue.heap| && queue.View()[k] == task.Entry();
    }

    constructor ()
      ensures Valid() && fresh(queue) && queue.heap == [] && queue.tasks == {} && !timerArmed && !draining && sequence == 0
    {
      queue := new TaskQueue();
      sequence, timerArmed, timerDelay, draining := 0, false, 0, false;
    }

    method StopTimer(stop: bool) returns (ok: bool)
      modifies this`timerArmed
      ensures ok == (!old(timerArmed) || stop) && timerArmed == (old(timerArmed) && !stop)
    {
      if !timerArmed {
        return true;
      }
      if !stop {
        return false;
      }
      timerArmed := false;
      return true;
    }

    // arm_timer. If it does not raise, the timer is armed exactly if there are tasks, and
    // goes off when the first is due or at the next recheck; if it raises, the timer is
    // as it was or, once stopped, off.
    method ArmTimer(calls: Calls) returns (ok: bool)
      requires Valid()
      modifies this`timerArmed, this`timerDelay
      ensures ok ==> (timerArmed <==> queue.heap != [])
      ensures ok && timerArmed ==> calls.now.Some? && timerDelay == Delay(queue.heap[0].deadlineMs - calls.now.value)
      ensures queue.heap == [] ==> (ok <==> !old(timerArmed) || calls.stop)
      ensures queue.heap != [] ==>
        (ok <==> calls.context && calls.timer && calls.now.Some? && calls.start && (old(timerArmed) ==> calls.stop))
      ensures !ok ==> timerArmed == (old(timerArmed) && !(calls.context && calls.timer && calls.now.Some? && calls.stop && queue.heap != []))
    {
      if |queue.heap| == 0 {
        ok := StopTimer(calls.stop);
        return;
      }
      if !calls.context || !calls.timer || calls.now.None? {
        return false;
      }
      var delay := Delay(queue.heap[0].deadlineMs - calls.now.value);
      if timerArmed {
        var stopped := StopTimer(calls.stop);
        if !stopped {
          return false;
        }
      }
      if !calls.start {
        return false;
      }
      timerArmed, timerDelay := true, delay;
      return true;
    }

    // enqueue up to its heap_push; None if it raises before.
    method QueueTask(deadline: real, job: Job, calls: Calls) returns (task: Option<Task>)
      requires Valid()
      modifies this`sequence, queue, queue.tasks`heapIndex
      ensures Valid() && (task.Some? <==> calls.context && calls.timer)
      ensures task.None? ==> queue.View() == old(queue.View()) && queue.heap == old(queue.heap) && queue.tasks == old(queue.tasks)
      ensures task.Some? ==>
        && fresh(task.value) && queue.tasks == old(queue.tasks) + {task.value} && sequence == old(sequence) + 1
        && task.value.Entry() == Entry(deadline, sequence, job)
        && queue.View() == Push(old(queue.View()), Entry(deadline, sequence, job))
    {
      hide Ordered, Before, TaskHeap.Push, TaskQueue.View, TaskQueue.Indexed;
      if !calls.context {
        return None;
      }
      sequence := sequence + 1;
      var new_ := new Task(job, deadline, sequence);
      if !calls.timer {
        return None;
      }
      queue.Push(new_);
      return Some(new_);
    }

    // enqueue. One that raises leaves the tasks that were queued, and only those; but if
    // it got as far as stopping the timer, it leaves them without one.
    method Enqueue(deadline: real, job: Job, calls: Calls, stopAgain: bool) returns (ok: bool)
      requires Valid()
      modifies this`sequence, this`timerArmed, this`timerDelay, queue, queue.tasks`heapIndex
      ensures Valid() && fresh(queue.tasks - old(queue.tasks))
      ensures ok ==> queue.View() == Push(old(queue.View()), Entry(deadline, sequence, job)) && sequence == old(sequence) + 1
      ensures !ok ==> multiset(queue.View()) == multiset(old(queue.View()))
      ensures !draining && ok ==> timerArmed
      ensures draining ==> (ok <==> calls.context && calls.timer) && timerArmed == old(timerArmed)
      ensures !draining && !ok ==>
        timerArmed == (old(timerArmed) && !(calls.context && calls.timer && calls.now.Some? && calls.stop)
          && (queue.heap != [] || !stopAgain || !(calls.context && calls.timer)))
    {
      hide Ordered, Before, TaskHeap.Push, TaskQueue.View, Delay, TaskQueue.Indexed;
      OrderedNow();
      ghost var was := queue.View();
      var task := QueueTask(deadline, job, calls);
      if task.None? {
        return false;
      }
      ok := true;
      if !draining {
        NotEmpty(was, task.value.Entry());
        ok := ArmTimer(calls);
        if !ok {
          Rollback(task.value, was, stopAgain);
        }
      }
    }

    lemma OrderedNow()
      requires Valid()
      ensures Ordered(queue.View())
    {
    }

    lemma NotEmpty(was: seq<Entry<Job>>, e: Entry<Job>)
      requires queue.View() == Push(was, e)
      ensures queue.heap != []
    {
    }

    // The branch of enqueue that takes the new task out again
    method Rollback(task: Task, ghost was: seq<Entry<Job>>, stopAgain: bool)
      requires Valid() && task in queue.tasks && Ordered(was) && queue.View() == Push(was, task.Entry())
      requires forall t :: t in queue.tasks && t != task ==> t.sequence < task.sequence
      modifies this`timerArmed, queue, queue.tasks`heapIndex
      ensures Valid() && queue.tasks <= old(queue.tasks) && multiset(queue.View()) == multiset(was)
      ensures timerArmed == (old(timerArmed) && (queue.heap != [] || !stopAgain))
    {
      hide Ordered, Before, TaskHeap.Push, TaskHeap.Without, TaskQueue.View, TaskQueue.Indexed;
      Newest(task, was);
      ghost var pushed, at := queue.View(), task.heapIndex;
      var removed := queue.Remove(task);
      WithoutOrders(pushed, at - 1);
      if |queue.heap| == 0 {
        var _ := StopTimer(stopAgain);
      }
    }

    // The calls of scheduler:at and scheduler:daily that one action makes
    method RunAction(adds: seq<Add>)
      requires Valid() && draining
      modifies this`sequence, this`timerArmed, this`timerDelay, queue, queue.tasks`heapIndex
      ensures Valid() && fresh(queue.tasks - old(queue.tasks)) && timerArmed == old(timerArmed)
      ensures (queue.View(), sequence) == AddAll(old(queue.View()), old(sequence), adds)
    {
      hide Ordered, Before, TaskHeap.Push, TaskQueue.View, TaskQueue.Indexed, TaskQueue.Valid;
      var i := 0;
      while i < |adds|
        invariant 0 <= i <= |adds| && Valid() && fresh(queue.tasks - old(queue.tasks)) && timerArmed == old(timerArmed)
        invariant AddAll(queue.View(), sequence, adds[i..]) == AddAll(old(queue.View()), old(sequence), adds)
      {
        assert adds[i..][0] == adds[i] && adds[i..][1..] == adds[i + 1..];
        var _ := Enqueue(adds[i].deadline, adds[i].job, Calls(true, true, None, true, true), true);
        i := i + 1;
      }
    }

    // The body of the drain loop once the task is popped. now is None if a call raised.
    method RunTask(task: Task, turn: Turn) returns (now: Option<real>)
      requires Valid() && draining && task !in queue.tasks
      modifies this`sequence, this`timerArmed, this`timerDelay, queue, queue.tasks`heapIndex, task
      ensures Valid() && fresh(queue.tasks - old(queue.tasks) - {task}) && timerArmed == old(timerArmed)
      ensures (queue.View(), sequence) ==
        var (added, s) := AddAll(old(queue.View()), old(sequence), turn.adds);
        if task.job.daily && turn.next.Some? then (Push(added, Entry(turn.next.value, s + 1, task.job)), s + 1) else (added, s)
      ensures now == if Raises(task.job, turn) then None else turn.now
    {
      hide Ordered, Before, TaskHeap.Push, TaskQueue.View, TaskQueue.Indexed, AddAll;
      RunAction(turn.adds);
      queue.HeapInTasks();
      if task.job.daily {
        if turn.next.None? {
          return None;
        }
        task.deadlineMs := turn.next.value;
        sequence := sequence + 1;
        task.sequence := sequence;
        queue.Push(task);
      }
      return turn.now;
    }

    // The drain loop of on_timer. why is Failed if a call raised out of it.
    method DrainDue(first: real, turns: seq<Turn>) returns (ghost ran: seq<Ran>, ghost why: Why)
      requires Valid() && draining
      modifies this`sequence, this`timerArmed, this`timerDelay, queue, queue.tasks
      ensures Valid() && fresh(queue.tasks - old(queue.tasks)) && timerArmed == old(timerArmed)
      ensures var r := Drain(old(queue.View()), old(sequence), first, turns, 0);
        queue.View() == r.queue && sequence == r.sequence && ran == r.ran && why == r.why
    {
      hide Ordered, Before, TaskHeap.Push, TaskQueue.View, TaskQueue.Indexed, AddAll, Drain, SoFar, Rest, Valid, AfterTurn;
      ghost var start := Drain(queue.View(), sequence, first, turns, 0);
      SoFarNothing(queue.View(), sequence, first, turns);
      var now, processed := first, 0;
      ran := [];
      while |queue.heap| > 0 && queue.heap[0].deadlineMs <= now && processed < MAX_TASKS_PER_TICK
        invariant Valid() && draining && fresh(queue.tasks - old(queue.tasks)) && timerArmed == old(timerArmed)
        invariant processed == |ran| <= MAX_TASKS_PER_TICK
        invariant SoFar(start, queue.View(), sequence, now, turns, ran)
        decreases MAX_TASKS_PER_TICK - processed
      {
        SoFarOneMore(start, queue.View(), sequence, now, turns, ran);
        ran := ran + [Ran(queue.View()[0], now, queue.View())];
        var turn := TurnAt(turns, processed);
        processed := processed + 1;
        var read := RunFirst(turn);
        if read.None? {
          why := Failed;
          return;
        }
        now := read.value;
      }
      why := start.why;
      SoFarAll(start, queue.View(), sequence, now, turns, ran);
    }

    // One round of that loop
    method RunFirst(turn: Turn) returns (now: Option<real>)
      requires Valid() && draining && queue.heap != []
      modifies this`sequence, this`timerArmed, this`timerDelay, queue, queue.tasks
      ensures Valid() && fresh(queue.tasks - old(queue.tasks)) && timerArmed == old(timerArmed)
      ensures (queue.View(), sequence) == AfterTurn(old(queue.View()), old(sequence), turn)
      ensures now == if Raises(old(queue.View())[0].job, turn) then None else turn.now
    {
      hide Ordered, Before, TaskHeap.Push, TaskQueue.View, TaskQueue.Indexed, AddAll, Rest, Raises;
      queue.HeapInTasks();
      var task := queue.Pop();
      now := RunTask(task.value, turn);
    }

    // on_timer: first is the clock reading before the loop, None if that raises. A firing
    // in the middle of a drain is turned away.
    method OnTimer(first: Option<real>, turns: seq<Turn>, calls: Calls) returns (ghost ran: seq<Ran>, ghost why: Why)
      requires Valid()
      modifies this`sequence, this`timerArmed, this`timerDelay, this`draining, queue, queue.tasks
      ensures Valid() && draining == old(draining) && fresh(queue.tasks - old(queue.tasks))
      ensures old(draining) ==> unchanged(this) && unchanged(queue) && unchanged(old(queue.tasks)) && ran == []
      ensures !draining && first.Some? ==>
        var r := Drain(old(queue.View()), old(sequence), first.value, turns, 0);
        queue.View() == r.queue && sequence == r.sequence && ran == r.ran && why == r.why
      ensures !draining && first.None? ==> queue.View() == old(queue.View()) && sequence == old(sequence) && ran == []
      ensures !draining ==>
        && (timerArmed <==> queue.heap != [] && calls.context && calls.timer && calls.now.Some? && calls.start)
        && (timerArmed ==> timerDelay == Delay(queue.heap[0].deadlineMs - calls.now.value))
    {
      hide Ordered, Before, TaskHeap.Push, TaskQueue.View, TaskQueue.Indexed, AddAll, Drain, Delay;
      ran, why := [], Failed;
      if draining {
        return;
      }
      timerArmed := false;
      draining := true;
      if first.Some? {
        ran, why := DrainDue(first.value, turns);
      }
      draining := false;
      var ok := ArmTimer(calls);
    }
  }
}
