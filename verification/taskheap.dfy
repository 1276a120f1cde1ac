// The scheduler's queue as a value: a binary heap of entries ordered by deadline, and
// by registration among equal deadlines. Positions count from 0 here and from 1 in Lua.
module TaskHeap {

  datatype Entry<T> = Entry(deadline: real, sequence: nat, job: T)

  // task_before
  predicate Before<T>(a: Entry<T>, b: Entry<T>) {
    a.deadline < b.deadline || (a.deadline == b.deadline && a.sequence < b.sequence)
  }

  function Parent(i: nat): (p: nat)
    requires i > 0
    ensures p < i && (i == 2 * p + 1 || i == 2 * p + 2)
  {
    (i - 1) / 2
  }

  ghost predicate Ordered<T>(h: seq<Entry<T>>) {
    forall j :: 0 < j < |h| ==> !Before(h[j], h[Parent(j)])
  }

  // Ordered, but for the entry at i, which may be too small for its place
  ghost predicate OrderedAbove<T>(h: seq<Entry<T>>, i: nat) {
    && (forall j :: 0 < j < |h| && j != i ==> !Before(h[j], h[Parent(j)]))
    && (forall j :: 0 < j < |h| && 0 < i && Parent(j) == i ==> !Before(h[j], h[Parent(i)]))
  }

  // Ordered, but for the entry at i, which may be too large for its place
  ghost predicate OrderedBelow<T>(h: seq<Entry<T>>, i: nat) {
    && (forall j :: 0 < j < |h| && Parent(j) != i ==> !Before(h[j], h[Parent(j)]))
    && (forall j :: 0 < j < |h| && 0 < i && Parent(j) == i ==> !Before(h[j], h[Parent(i)]))
  }

  function Swap<T>(h: seq<Entry<T>>, i: nat, j: nat): (r: seq<Entry<T>>)
    requires i < |h| && j < |h|
    ensures |r| == |h|
  {
    h[i := h[j]][j := h[i]]
  }

  function SiftUp<T>(h: seq<Entry<T>>, i: nat): (r: seq<Entry<T>>)
    requires i < |h|
    ensures |r| == |h|
    decreases i
  {
    if i > 0 && Before(h[i], h[Parent(i)]) then SiftUp(Swap(h, i, Parent(i)), Parent(i)) else h
  }

  // The smallest of the entry at i and its children
  function Smallest<T>(h: seq<Entry<T>>, i: nat): (s: nat)
    requires i < |h|
    ensures s < |h| && (s == i || (s > i && Parent(s) == i && Before(h[s], h[i])))
    ensures forall j :: 0 < j < |h| && Parent(j) == i ==> !Before(h[j], h[s])
  {
    var left, right := 2 * i + 1, 2 * i + 2;
    var s := if left < |h| && Before(h[left], h[i]) then left else i;
    if right < |h| && Before(h[right], h[s]) then right else s
  }

  function SiftDown<T>(h: seq<Entry<T>>, i: nat): (r: seq<Entry<T>>)
    requires i < |h|
    ensures |r| == |h|
    decreases |h| - i
  {
    var s := Smallest(h, i);
    if s == i then h else SiftDown(Swap(h, i, s), s)
  }

  function Push<T>(h: seq<Entry<T>>, e: Entry<T>): (r: seq<Entry<T>>)
    ensures |r| == |h| + 1
  {
    SiftUp(h + [e], |h|)
  }

  // heap_pop on a queue that is not empty: what stays, after the first is taken
  function Rest<T>(h: seq<Entry<T>>): (r: seq<Entry<T>>)
    requires h != []
    ensures |r| == |h| - 1
  {
    if |h| == 1 then [] else SiftDown(h[..|h| - 1][0 := h[|h| - 1]], 0)
  }

  // heap_remove of the entry at i
  function Without<T>(h: seq<Entry<T>>, i: nat): (r: seq<Entry<T>>)
    requires i < |h|
    ensures |r| == |h| - 1
  {
    var n := |h| - 1;
    if i == n then h[..n]
    else
      var moved := h[..n][i := h[n]];
      if i > 0 && Before(moved[i], moved[Parent(i)]) then SiftUp(moved, i) else SiftDown(moved, i)
  }

  // Rest and Without by way of the queue with its last entry moved
  function Shrunk<T>(h: seq<Entry<T>>, i: nat): (r: seq<Entry<T>>)
    requires i < |h|
    ensures |r| == |h| - 1
  {
    var n := |h| - 1;
    if i == n then h[..n] else h[..n][i := h[n]]
  }

  lemma RestIsShrunk<T>(h: seq<Entry<T>>)
    requires h != []
    ensures Rest(h) == if |h| == 1 then Shrunk(h, 0) else SiftDown(Shrunk(h, 0), 0)
  {
  }

  lemma WithoutIsShrunk<T>(h: seq<Entry<T>>, i: nat)
    requires i < |h|
    ensures var moved := Shrunk(h, i);
      Without(h, i) == if i == |h| - 1 then moved
                       else if i > 0 && Before(moved[i], moved[Parent(i)]) then SiftUp(moved, i)
                       else SiftDown(moved, i)
  {
  }

  lemma SwapKeeps<T>(h: seq<Entry<T>>, i: nat, j: nat)
    requires i < |h| && j < |h|
    ensures multiset(Swap(h, i, j)) == multiset(h)
  {
  }

  lemma SwapUp<T>(h: seq<Entry<T>>, i: nat)
    requires 0 < i < |h| && OrderedAbove(h, i) && Before(h[i], h[Parent(i)])
    ensures OrderedAbove(Swap(h, i, Parent(i)), Parent(i))
  {
    var p := Parent(i);
    var r := Swap(h, i, p);
    forall j | 0 < j < |r| && j != p ensures !Before(r[j], r[Parent(j)]) {
      SwappedUp(h, i, j);
    }
    forall j | 0 < j < |r| && 0 < p && Parent(j) == p ensures !Before(r[j], r[Parent(p)]) {
      assert r[Parent(p)] == h[Parent(p)] && !Before(h[p], h[Parent(p)]);
      assert j != i ==> r[j] == h[j] && !Before(h[j], h[p]);
    }
  }

  lemma SwappedUp<T>(h: seq<Entry<T>>, i: nat, j: nat)
    requires 0 < i < |h| && OrderedAbove(h, i) && Before(h[i], h[Parent(i)]) && 0 < j < |h| && j != Parent(i)
    ensures var r := Swap(h, i, Parent(i)); !Before(r[j], r[Parent(j)])
  {
    var p := Parent(i);
    var r := Swap(h, i, p);
    assert r[i] == h[p] && r[p] == h[i];
    if j != i {
      assert r[j] == h[j] && !Before(h[j], h[Parent(j)]);
      assert Parent(j) != p && Parent(j) != i ==> r[Parent(j)] == h[Parent(j)];
      assert Parent(j) == i ==> !Before(h[j], h[p]);
    }
  }

  lemma {:induction false} SiftUpOrders<T>(h: seq<Entry<T>>, i: nat)
    requires i < |h| && OrderedAbove(h, i)
    ensures Ordered(SiftUp(h, i)) && multiset(SiftUp(h, i)) == multiset(h)
    decreases i
  {
    hide OrderedAbove, Swap;
    if i > 0 && Before(h[i], h[Parent(i)]) {
      SwapUp(h, i);
      SwapKeeps(h, i, Parent(i));
      SiftUpOrders(Swap(h, i, Parent(i)), Parent(i));
    } else {
      InPlaceUp(h, i);
    }
  }

  lemma InPlaceUp<T>(h: seq<Entry<T>>, i: nat)
    requires i < |h| && OrderedAbove(h, i) && (i > 0 ==> !Before(h[i], h[Parent(i)]))
    ensures Ordered(h)
  {
  }

  lemma SwapDown<T>(h: seq<Entry<T>>, i: nat)
    requires i < |h| && OrderedBelow(h, i) && Smallest(h, i) != i
    ensures OrderedBelow(Swap(h, i, Smallest(h, i)), Smallest(h, i))
  {
    var s := Smallest(h, i);
    var r := Swap(h, i, s);
    forall j | 0 < j < |r| && Parent(j) != s ensures !Before(r[j], r[Parent(j)]) {
    }
    forall j | 0 < j < |r| && Parent(j) == s ensures !Before(r[j], r[Parent(s)]) {
      assert r[Parent(s)] == h[s] && r[j] == h[j];
    }
  }

  lemma InPlaceDown<T>(h: seq<Entry<T>>, i: nat)
    requires i < |h| && OrderedBelow(h, i) && Smallest(h, i) == i
    ensures Ordered(h)
  {
  }

  lemma {:induction false} SiftDownOrders<T>(h: seq<Entry<T>>, i: nat)
    requires i < |h| && OrderedBelow(h, i)
    ensures Ordered(SiftDown(h, i)) && multiset(SiftDown(h, i)) == multiset(h)
    decreases |h| - i
  {
    hide OrderedBelow, Swap, Ordered;
    var s := Smallest(h, i);
    if s != i {
      SwapDown(h, i);
      SwapKeeps(h, i, s);
      SiftDownOrders(Swap(h, i, s), s);
    } else {
      InPlaceDown(h, i);
    }
  }

  // The first entry is least.
  lemma {:induction false} FirstIsLeast<T>(h: seq<Entry<T>>, k: nat)
    requires Ordered(h) && k < |h|
    ensures !Before(h[k], h[0])
    decreases k
  {
    if k > 0 {
      FirstIsLeast(h, Parent(k));
    }
  }

  lemma PushOrders<T>(h: seq<Entry<T>>, e: Entry<T>)
    requires Ordered(h)
    ensures Ordered(Push(h, e)) && multiset(Push(h, e)) == multiset(h) + multiset{e}
  {
    assert OrderedAbove(h + [e], |h|);
    SiftUpOrders(h + [e], |h|);
  }

  // The last entry takes the place of another one.
  lemma LastInPlace<T>(h: seq<Entry<T>>, i: nat)
    requires i < |h| - 1
    ensures multiset(h[..|h| - 1][i := h[|h| - 1]]) == multiset(h) - multiset{h[i]}
  {
    var n := |h| - 1;
    assert h == h[..n] + [h[n]];
  }

  lemma RestOrders<T>(h: seq<Entry<T>>)
    requires Ordered(h) && h != []
    ensures Ordered(Rest(h)) && multiset(Rest(h)) == multiset(h) - multiset{h[0]}
    ensures forall e :: e in h ==> !Before(e, h[0])
    ensures forall e :: e in h ==>
      h[0].deadline < e.deadline || (h[0].deadline == e.deadline && h[0].sequence <= e.sequence)
  {
    forall e | e in h ensures !Before(e, h[0]) {
      var k :| 0 <= k < |h| && h[k] == e;
      FirstIsLeast(h, k);
    }
    if |h| == 1 {
      assert h == [h[0]];
    } else {
      LastInPlace(h, 0);
      LastBelow(h, 0);
      SiftDownOrders(h[..|h| - 1][0 := h[|h| - 1]], 0);
    }
  }

  lemma LastBelow<T>(h: seq<Entry<T>>, i: nat)
    requires Ordered(h) && i < |h| - 1
    ensures var moved := h[..|h| - 1][i := h[|h| - 1]];
      (i > 0 && Before(moved[i], moved[Parent(i)])) || OrderedBelow(moved, i)
  {
  }

  lemma LastAbove<T>(h: seq<Entry<T>>, i: nat)
    requires Ordered(h) && 0 < i < |h| - 1
    ensures var moved := h[..|h| - 1][i := h[|h| - 1]];
      Before(moved[i], moved[Parent(i)]) ==> OrderedAbove(moved, i)
  {
  }

  lemma WithoutOrders<T>(h: seq<Entry<T>>, i: nat)
    requires Ordered(h) && i < |h|
    ensures Ordered(Without(h, i)) && multiset(Without(h, i)) == multiset(h) - multiset{h[i]}
  {
    var n := |h| - 1;
    if i == n {
      assert h == h[..n] + [h[n]];
    } else {
      var moved := h[..n][i := h[n]];
      LastInPlace(h, i);
      LastBelow(h, i);
      if i > 0 && Before(moved[i], moved[Parent(i)]) {
        LastAbove(h, i);
        SiftUpOrders(moved, i);
      } else {
        SiftDownOrders(moved, i);
      }
    }
  }

  // Taking everything out

  function PopAll<T>(h: seq<Entry<T>>): seq<Entry<T>>
    decreases |h|
  {
    if h == [] then [] else [h[0]] + PopAll(Rest(h))
  }

  // By deadline, and the lower number first where deadlines are equal
  ghost predicate Sorted<T>(s: seq<Entry<T>>) {
    forall i, j :: 0 <= i < j < |s| ==>
      s[i].deadline < s[j].deadline || (s[i].deadline == s[j].deadline && s[i].sequence <= s[j].sequence)
  }

  lemma SortedCons<T>(x: Entry<T>, s: seq<Entry<T>>)
    requires Sorted(s)
    requires forall e :: e in s ==> x.deadline < e.deadline || (x.deadline == e.deadline && x.sequence <= e.sequence)
    ensures Sorted([x] + s) && multiset([x] + s) == multiset(s) + multiset{x}
  {
  }

  // Tasks leave by deadline, and equal deadlines in the order of registration; each
  // leaves once.
  lemma {:induction false} PopAllSorts<T>(h: seq<Entry<T>>)
    requires Ordered(h)
    ensures Sorted(PopAll(h)) && multiset(PopAll(h)) == multiset(h)
    decreases |h|
  {
    hide Ordered, Rest, Before, Sorted;
    if h == [] {
      NothingSorted<T>();
    } else {
      RestOrders(h);
      PopAllSorts(Rest(h));
      SameElements(h, PopAll(Rest(h)));
      SortedCons(h[0], PopAll(Rest(h)));
    }
  }

  lemma NothingSorted<T>()
    ensures Sorted<T>([])
  {
  }

  lemma SameElements<T>(h: seq<Entry<T>>, rest: seq<Entry<T>>)
    requires h != [] && multiset(rest) == multiset(h) - multiset{h[0]}
    ensures forall e :: e in rest ==> e in h
    ensures multiset(rest) + multiset{h[0]} == multiset(h)
  {
    forall e | e in rest ensures e in h {
      assert e in multiset(rest);
    }
  }
}
