// Graphs in which no reference goes astray, whatever the order their tables are traversed
// in: table-valued keys do no harm as long as no cycle leads through them.
module Keys {
  import opened Wire
  import opened Graph
  import opened Encoder
  import opened Drifting
  import opened RoundTrip

  ghost predicate HasTableKey(t: LuaTable) {
    exists k :: k in t.entries && k.TableRef?
  }

  // A table that no cycle may lead through: it has a table for a key, or is part of one.
  ghost predicate Keyed(h: Heap, inner: set<nat>, o: nat) {
    o in inner || (o in h && HasTableKey(h[o]))
  }

  // inner holds what can be reached from table-valued keys, and rank falls along every
  // entry of a keyed table and rises along none.
  ghost predicate Layered(h: Heap, inner: set<nat>, rank: nat -> nat) {
    && (forall o, k :: o in h && k in h[o].entries && k.TableRef? ==> k.id in inner && rank(k.id) < rank(o))
    && (forall o, k :: o in h && k in h[o].entries && h[o].entries[k].TableRef? ==>
          var v := h[o].entries[k].id;
          && (o in inner ==> v in inner)
          && if Keyed(h, inner, o) then rank(v) < rank(o) else rank(v) <= rank(o))
  }

  // The tables named by v stay at w or below, and within inner inside keys.
  ghost predicate Below(inner: set<nat>, rank: nat -> nat, v: Value, w: int, lag: nat) {
    v.TableRef? ==> rank(v.id) <= w && (lag > 0 ==> v.id in inner)
  }

  // Every open table that something at w or below can still refer to is found.
  ghost predicate Sound(h: Heap, inner: set<nat>, rank: nat -> nat, st: Enc, a: Drift, w: int) {
    && |st.anc| == |a.clean| == MAX_DEPTH
    && forall i :: 0 <= i < st.depth && i < MAX_DEPTH ==>
         if Keyed(h, inner, st.anc[i]) then rank(st.anc[i]) > w
         else rank(st.anc[i]) >= w && a.clean[i] && i + a.lag < st.depth
  }

  ghost function Bound(h: Heap, inner: set<nat>, rank: nat -> nat, o: nat): int {
    if Keyed(h, inner, o) then rank(o) - 1 else rank(o)
  }

  lemma SoundBelow(h: Heap, inner: set<nat>, rank: nat -> nat, st: Enc, a: Drift, w: int, low: int)
    requires Sound(h, inner, rank, st, a, w) && low <= w
    ensures Sound(h, inner, rank, st, a, low)
  {
  }

  lemma SoundStays(h: Heap, inner: set<nat>, rank: nat -> nat, st: Enc, a: Drift, w: int, r: Enc, b: Drift)
    requires Sound(h, inner, rank, st, a, w) && Extends(st, r) && |r.anc| == |st.anc| && Drifts(st, a, b, 0)
    ensures Sound(h, inner, rank, r, b, w)
    ensures Sound(h, inner, rank, st, a.(lag := a.lag + 1), w) ==> Sound(h, inner, rank, r, b.(lag := b.lag + 1), w)
  {
  }

  lemma SoundKeyStays(h: Heap, inner: set<nat>, rank: nat -> nat, st: Enc, a: Drift, w: int, r: Enc, b: Drift)
    requires Sound(h, inner, rank, st, a.(lag := a.lag + 1), w) && Extends(st, r) && |r.anc| == |st.anc|
    requires Drifts(st, a.(lag := a.lag + 1), b, 0)
    ensures Sound(h, inner, rank, r, b.(lag := a.lag), w) && Sound(h, inner, rank, r, b, w)
  {
  }

  // A table is entered.
  lemma SoundInside(h: Heap, inner: set<nat>, rank: nat -> nat, st: Enc, a: Drift, o: nat)
    requires Sound(h, inner, rank, st, a, rank(o)) && Sane(st, a) && (a.lag > 0 ==> o in inner)
    ensures var b, w := EnterDrift(st, a), Bound(h, inner, rank, o);
      && Sound(h, inner, rank, Enter(st, o), b, w)
      && (Keyed(h, inner, o) ==> Sound(h, inner, rank, Enter(st, o), b.(lag := b.lag + 1), w))
  {
  }

  // What a table holds is below it.
  lemma ContentsBelow(h: Heap, inner: set<nat>, rank: nat -> nat, o: nat, lag: nat)
    requires HeapOk(h) && Layered(h, inner, rank) && o in h && (lag > 0 ==> o in inner)
    ensures var t, w := h[o], Bound(h, inner, rank, o);
      && (forall v :: v in ArrayItems(t) ==> Below(inner, rank, v, w, lag))
      && (forall k :: k in t.entries ==>
            Below(inner, rank, k, w, lag + 1) && Below(inner, rank, t.entries[k], w, lag) && (k.TableRef? ==> Keyed(h, inner, o)))
  {
    var t, w := h[o], Bound(h, inner, rank, o);
    forall k | k in t.entries
      ensures Below(inner, rank, k, w, lag + 1) && Below(inner, rank, t.entries[k], w, lag)
      ensures k.TableRef? ==> Keyed(h, inner, o)
    {
      if k.TableRef? {
        assert HasTableKey(t);
      }
    }
  }

  lemma {:induction false} OneStays(h: Heap, inner: set<nat>, rank: nat -> nat, st: Enc, a: Drift, v: Value, w: int)
    requires HeapOk(h) && st.Valid(h) && ValueOk(h, v) && Sane(st, a) && Layered(h, inner, rank)
    requires Sound(h, inner, rank, st, a, w) && Below(inner, rank, v, w, a.lag)
    ensures DriftOne(h, st, a, v).astray == a.astray
    decreases Unmet(h, st), 1, 0
  {
    hide DriftTable, HeapOk, Distinct, Layered, Keyed, EnterDrift;
    if v.TableRef? && RefAncestor(st, v.id).None? && IndexOf(st.objs, v.id).None? {
      EnterKeeps(h, st, v.id);
      SoundBelow(h, inner, rank, st, a, w, rank(v.id));
      EnterStill(st, a);
      TableStays(h, inner, rank, st, a, v.id);
    }
  }

  lemma EnterStill(st: Enc, a: Drift)
    requires Sane(st, a)
    ensures EnterDrift(st, a).astray == a.astray
    ensures forall o :: Sane(Enter(st, o), EnterDrift(st, a)) && Enter(st, o).objs == st.objs
    ensures forall o :: a.lag < Enter(st, o).depth == st.depth + 1
  {
  }

  lemma {:induction false} TableStays(h: Heap, inner: set<nat>, rank: nat -> nat, st: Enc, a: Drift, o: nat)
    requires HeapOk(h) && st.Valid(h) && o in h && o !in st.objs && Sane(st, a) && Layered(h, inner, rank)
    requires Sound(h, inner, rank, st, a, rank(o)) && (a.lag > 0 ==> o in inner)
    requires Enter(st, o).Valid(h) && Sane(Enter(st, o), EnterDrift(st, a))
    ensures DriftTable(h, Enter(st, o), EnterDrift(st, a), o).astray == EnterDrift(st, a).astray
    decreases Unmet(h, st), 0, 0
  {
    hide *;
    EnterStill(st, a);
    DriftTableSteps(h, st, a, o);
    EnterKeeps(h, st, o);
    OpeningMeets(h, Enter(st, o), o);
    SoundInside(h, inner, rank, st, a, o);
    ContentsBelow(h, inner, rank, o, a.lag);
    var t, b, w := h[o], EnterDrift(st, a), Bound(h, inner, rank, o);
    var st1 := OpenTable(h, Enter(st, o), o, t.objlen);
    SameSound(h, inner, rank, Enter(st, o), st1, b, w);
    SameSound(h, inner, rank, Enter(st, o), st1, b.(lag := b.lag + 1), w);
    SeqStays(h, inner, rank, st1, b, ArrayItems(t), w);
    var st2, c := PackSeq(h, st1, ArrayItems(t)), DriftSeq(h, st1, b, ArrayItems(t));
    PackSeqKeeps(h, st1, ArrayItems(t));
    PackSeqDepth(h, st1, ArrayItems(t));
    SoundStays(h, inner, rank, st1, b, w, st2, c);
    HashStays(h, inner, rank, st2, c, t, t.order, w, Keyed(h, inner, o));
  }

  lemma SameSound(h: Heap, inner: set<nat>, rank: nat -> nat, st: Enc, r: Enc, a: Drift, w: int)
    requires r.depth == st.depth && r.anc == st.anc
    ensures Sound(h, inner, rank, st, a, w) ==> Sound(h, inner, rank, r, a, w)
  {
  }

  lemma {:induction false} SeqStays(h: Heap, inner: set<nat>, rank: nat -> nat, st: Enc, a: Drift, vs: seq<Value>, w: int)
    requires HeapOk(h) && st.Valid(h) && ValuesOk(h, vs) && Sane(st, a) && Layered(h, inner, rank)
    requires Sound(h, inner, rank, st, a, w) && forall v :: v in vs ==> Below(inner, rank, v, w, a.lag)
    ensures DriftSeq(h, st, a, vs).astray == a.astray
    decreases Unmet(h, st), 2, |vs|
  {
    hide Sound, Drifts, Layered, Below, HeapOk, Distinct, Extends;
    if vs != [] {
      var st1, b := PackOne(h, st, vs[0]), DriftOne(h, st, a, vs[0]);
      PackDepth(h, st, vs[0]);
      OneStays(h, inner, rank, st, a, vs[0], w);
      OneDrifts(h, st, a, vs[0]);
      SoundStays(h, inner, rank, st, a, w, st1, b);
      SeqStays(h, inner, rank, st1, b, vs[1..], w);
    }
  }

  lemma {:induction false} HashStays(
    h: Heap, inner: set<nat>, rank: nat -> nat, st: Enc, a: Drift, t: LuaTable, order: seq<Value>, w: int, keyed: bool)
    requires HeapOk(h) && st.Valid(h) && TableOk(h, t) && Sane(st, a) && a.lag < st.depth && Layered(h, inner, rank)
    requires forall k :: k in order ==> k in t.entries
    requires Sound(h, inner, rank, st, a, w) && (keyed ==> Sound(h, inner, rank, st, a.(lag := a.lag + 1), w))
    requires forall k :: k in t.entries ==>
      Below(inner, rank, k, w, a.lag + 1) && Below(inner, rank, t.entries[k], w, a.lag) && (k.TableRef? ==> keyed)
    ensures DriftHash(h, st, a, t, order).astray == a.astray
    decreases Unmet(h, st), 2, |order|
  {
    hide Sound, Drifts, Layered, Below, HeapOk, Distinct, Extends, PackOne, DriftOne, DriftKey, DriftHash, InArray;
    if order == [] {
      NothingDrifts(h, st, a, t);
    } else if InArray(order[0], t.objlen) {
      SkippedDrift(h, st, a, t, order);
      HashStays(h, inner, rank, st, a, t, order[1..], w, keyed);
    } else {
      var k, v := order[0], t.entries[order[0]];
      var st1, b := PackOne(h, st, k), DriftKey(h, st, a, k);
      PackDepth(h, st, k);
      DriftEntrySteps(h, st, a, t, order);
      KeyStays(h, inner, rank, st, a, k, w, keyed);
      PackDepth(h, st1, v);
      OneStays(h, inner, rank, st1, b, v, w);
      var st2, c := PackOne(h, st1, v), DriftOne(h, st1, b, v);
      SoundStays(h, inner, rank, st1, b, w, st2, c);
      HashStays(h, inner, rank, st2, c, t, order[1..], w, keyed);
    }
  }

  lemma NothingDrifts(h: Heap, st: Enc, a: Drift, t: LuaTable)
    requires HeapOk(h) && st.Valid(h) && TableOk(h, t) && Sane(st, a) && a.lag < st.depth
    ensures DriftHash(h, st, a, t, []) == a
  {
  }

  lemma {:induction false} KeyStays(
    h: Heap, inner: set<nat>, rank: nat -> nat, st: Enc, a: Drift, k: Value, w: int, keyed: bool)
    requires HeapOk(h) && st.Valid(h) && ValueOk(h, k) && Sane(st, a) && a.lag < st.depth && Layered(h, inner, rank)
    requires Sound(h, inner, rank, st, a, w) && (keyed ==> Sound(h, inner, rank, st, a.(lag := a.lag + 1), w))
    requires Below(inner, rank, k, w, a.lag + 1) && (k.TableRef? ==> keyed)
    ensures var st1, b := PackOne(h, st, k), DriftKey(h, st, a, k);
      && b.astray == a.astray && Sound(h, inner, rank, st1, b, w)
      && (keyed ==> Sound(h, inner, rank, st1, b.(lag := b.lag + 1), w))
    decreases Unmet(h, st), 1, 1
  {
    hide Sound, Drifts, Layered, HeapOk, Distinct, Extends, Enc.Valid;
    var st1, deeper := PackOne(h, st, k), a.(lag := a.lag + 1);
    PackOneKeeps(h, st, k);
    if keyed {
      OneStays(h, inner, rank, st, deeper, k, w);
      OneDrifts(h, st, deeper, k);
      SoundKeyStays(h, inner, rank, st, a, w, st1, DriftOne(h, st, deeper, k));
    } else {
      OneDrifts(h, st, a, k);
      SoundStays(h, inner, rank, st, a, w, st1, DriftOne(h, st, a, k));
    }
  }

  // In a layered graph nothing goes astray.
  lemma LayeredIsFound(h: Heap, args: seq<Value>, inner: set<nat>, rank: nat -> nat)
    requires HeapOk(h) && ValuesOk(h, args) && Layered(h, inner, rank)
    ensures !GoesAstray(h, args)
  {
    var w := Highest(args, rank);
    SeqStays(h, inner, rank, START, STILL, args, w);
  }

  lemma {:induction false} Highest(args: seq<Value>, rank: nat -> nat) returns (w: nat)
    ensures forall v :: v in args && v.TableRef? ==> rank(v.id) <= w
  {
    w := 0;
    if args != [] {
      w := Highest(args[1..], rank);
      if args[0].TableRef? && w < rank(args[0].id) {
        w := rank(args[0].id);
      }
    }
  }

  // Without table-valued keys, cycles and sharing are free.
  lemma ScalarKeysAreFound(h: Heap, args: seq<Value>)
    requires HeapOk(h) && ValuesOk(h, args) && ScalarKeys(h)
    ensures !GoesAstray(h, args)
  {
    LayeredIsFound(h, args, {}, _ => 0);
  }

  ghost predicate Acyclic(h: Heap, rank: nat -> nat) {
    forall o, k :: o in h && k in h[o].entries ==>
      (k.TableRef? ==> rank(k.id) < rank(o)) && (h[o].entries[k].TableRef? ==> rank(h[o].entries[k].id) < rank(o))
  }

  lemma EntryOk(h: Heap, o: nat, k: Value)
    requires HeapOk(h) && o in h && k in h[o].entries
    ensures ValueOk(h, k) && ValueOk(h, h[o].entries[k])
  {
    assert TableOk(h, h[o]);
  }

  lemma AcyclicIsLayered(h: Heap, rank: nat -> nat)
    requires HeapOk(h) && Acyclic(h, rank)
    ensures Layered(h, h.Keys, rank)
  {
    hide HeapOk;
    forall o, k | o in h && k in h[o].entries
      ensures (k.TableRef? ==> k.id in h.Keys) && (h[o].entries[k].TableRef? ==> h[o].entries[k].id in h.Keys)
    {
      EntryOk(h, o, k);
    }
  }

  // Without cycles, tables may be keys anywhere, shared or not.
  lemma AcyclicIsFound(h: Heap, args: seq<Value>, rank: nat -> nat)
    requires HeapOk(h) && ValuesOk(h, args) && Acyclic(h, rank)
    ensures !GoesAstray(h, args)
  {
    AcyclicIsLayered(h, rank);
    LayeredIsFound(h, args, h.Keys, rank);
  }
}
