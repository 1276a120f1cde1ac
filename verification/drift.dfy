// Where table-valued keys send ancestor references. The encoder packs a key one level
// deeper than the decoder reads it. From this it follows, seen from the encoder alone:
// inside a key every ancestor is off by one for each key around it; and once a table has
// had a table expanded as its key, the slot it had is another's.
module Drifting {
  import opened Wire
  import opened Graph
  import opened Encoder

  // lag     how many keys are being packed around this point
  // clean   the ancestor slots that still name the same table on both sides
  // astray  an ancestor reference has been emitted that the decoder resolves otherwise
  datatype Drift = Drift(lag: nat, clean: seq<bool>, astray: bool)

  const STILL := Drift(0, NONE_CLEAN, false)

  const NONE_CLEAN: seq<bool> := [
    false, false, false, false, false, false, false, false, false, false, false, false, false, false, false, false,
    false, false, false, false, false, false, false, false, false, false, false, false, false, false, false]

  ghost predicate Sane(st: Enc, a: Drift) {
    |a.clean| == MAX_DEPTH && a.lag <= st.depth
  }

  // What packing more does to the slots: those the decoder has in use stay as they are,
  // but for that of the innermost table if a key of it is packed (own is 1 then).
  ghost predicate Drifts(st: Enc, a: Drift, r: Drift, own: nat) {
    && r.lag == a.lag && |a.clean| == |r.clean| == MAX_DEPTH && (a.astray ==> r.astray)
    && a.lag <= st.depth
    && (forall i :: 0 <= i < MAX_DEPTH && i + own < st.depth - a.lag ==> r.clean[i] == a.clean[i])
    && (forall i :: 0 <= i < MAX_DEPTH && i < st.depth && r.clean[i] ==> a.clean[i])
  }

  function Set(clean: seq<bool>, i: nat, b: bool): (r: seq<bool>)
    ensures |r| == |clean|
  {
    if i < |clean| then clean[i := b] else clean
  }

  // A table is entered: the decoder writes the slot lag levels below, so that only a table
  // outside of all keys is in its own.
  function EnterDrift(st: Enc, a: Drift): Drift
    requires a.lag <= st.depth
  {
    a.(clean := Set(Set(a.clean, st.depth - a.lag, false), st.depth, a.lag == 0))
  }

  // The reference to slot i finds its table if the slot is clean and is one the decoder
  // has in use.
  predicate Lands(st: Enc, a: Drift, i: nat) {
    i < |a.clean| && a.clean[i] && i + a.lag < st.depth
  }

  function DriftOne(h: Heap, st: Enc, a: Drift, v: Value): (r: Drift)
    requires HeapOk(h) && st.Valid(h) && ValueOk(h, v) && Sane(st, a)
    ensures r.lag == a.lag && |r.clean| == MAX_DEPTH
    decreases Unmet(h, st), 1, 0
  {
    match v
    case TableRef(o) =>
      (match RefAncestor(st, o)
       case Some(i) => a.(astray := a.astray || !Lands(st, a, i))
       case None =>
         match IndexOf(st.objs, o)
         case Some(k) => a
         case None =>
           EnterKeeps(h, st, o);
           DriftTable(h, Enter(st, o), EnterDrift(st, a), o))
    case _ => a
  }

  function DriftTable(h: Heap, st: Enc, a: Drift, o: nat): (r: Drift)
    requires HeapOk(h) && st.Valid(h) && o in h && o !in st.objs && Sane(st, a) && a.lag < st.depth
    ensures r.lag == a.lag && |r.clean| == MAX_DEPTH
    decreases Unmet(h, st), 0, 0
  {
    ItemsOk(h, h[o]);
    OpeningMeets(h, st, o);
    var st1 := OpenTable(h, st, o, h[o].objlen);
    var st2 := PackSeq(h, st1, ArrayItems(h[o]));
    UnmetShrinks(h, st1, st2);
    DriftHash(h, st2, DriftSeq(h, st1, a, ArrayItems(h[o])), h[o], h[o].order)
  }

  function DriftSeq(h: Heap, st: Enc, a: Drift, vs: seq<Value>): (r: Drift)
    requires HeapOk(h) && st.Valid(h) && ValuesOk(h, vs) && Sane(st, a)
    ensures r.lag == a.lag && |r.clean| == MAX_DEPTH
    decreases Unmet(h, st), 2, |vs|
  {
    if vs == [] then a
    else
      var st1 := PackOne(h, st, vs[0]);
      UnmetShrinks(h, st, st1);
      DriftSeq(h, st1, DriftOne(h, st, a, vs[0]), vs[1..])
  }

  // A key is packed with one more key around it.
  function DriftKey(h: Heap, st: Enc, a: Drift, k: Value): (r: Drift)
    requires HeapOk(h) && st.Valid(h) && ValueOk(h, k) && Sane(st, a) && a.lag < st.depth
    ensures r.lag == a.lag && |r.clean| == MAX_DEPTH
    decreases Unmet(h, st), 1, 1
  {
    DriftOne(h, st, a.(lag := a.lag + 1), k).(lag := a.lag)
  }

  function DriftHash(h: Heap, st: Enc, a: Drift, t: LuaTable, order: seq<Value>): (r: Drift)
    requires HeapOk(h) && st.Valid(h) && TableOk(h, t) && Sane(st, a) && a.lag < st.depth
    requires forall k :: k in order ==> k in t.entries
    ensures r.lag == a.lag && |r.clean| == MAX_DEPTH
    decreases Unmet(h, st), 2, |order|
  {
    if order == [] then a
    else if InArray(order[0], t.objlen) then DriftHash(h, st, a, t, order[1..])
    else
      var k := order[0];
      var st1 := PackOne(h, st, k);
      UnmetShrinks(h, st, st1);
      var st2 := PackOne(h, st1, t.entries[k]);
      UnmetShrinks(h, st1, st2);
      DriftHash(h, st2, DriftOne(h, st1, DriftKey(h, st, a, k), t.entries[k]), t, order[1..])
  }

  // What the recursion above does to a drift

  lemma EnterDrifts(st: Enc, a: Drift, o: nat, r: Drift)
    requires Sane(st, a) && Drifts(Enter(st, o), EnterDrift(st, a), r, 1)
    ensures Drifts(st, a, r, 0)
  {
  }

  lemma DriftsChain(st: Enc, a: Drift, st1: Enc, b: Drift, c: Drift, own: nat)
    requires Drifts(st, a, b, own) && Drifts(st1, b, c, own) && st1.depth == st.depth
    ensures Drifts(st, a, c, own)
  {
  }

  lemma DriftsLess(st: Enc, a: Drift, r: Drift)
    requires Drifts(st, a, r, 0)
    ensures Drifts(st, a, r, 1)
  {
  }

  lemma KeyDrifts(st: Enc, a: Drift, r: Drift)
    requires Drifts(st, a.(lag := a.lag + 1), r, 0)
    ensures Drifts(st, a, r.(lag := a.lag), 1)
  {
  }

  lemma DriftsStill(st: Enc, a: Drift, own: nat)
    requires Sane(st, a)
    ensures Drifts(st, a, a, own)
  {
  }

  lemma PackDepth(h: Heap, st: Enc, v: Value)
    requires HeapOk(h) && st.Valid(h) && ValueOk(h, v)
    ensures PackOne(h, st, v).depth == st.depth && Unmet(h, PackOne(h, st, v)) <= Unmet(h, st)
  {
    UnmetShrinks(h, st, PackOne(h, st, v));
  }

  lemma PackSeqDepth(h: Heap, st: Enc, vs: seq<Value>)
    requires HeapOk(h) && st.Valid(h) && ValuesOk(h, vs)
    ensures PackSeq(h, st, vs).depth == st.depth && Unmet(h, PackSeq(h, st, vs)) <= Unmet(h, st)
  {
    UnmetShrinks(h, st, PackSeq(h, st, vs));
  }

  lemma {:induction false} OneDrifts(h: Heap, st: Enc, a: Drift, v: Value)
    requires HeapOk(h) && st.Valid(h) && ValueOk(h, v) && Sane(st, a)
    ensures Drifts(st, a, DriftOne(h, st, a, v), 0)
    decreases Unmet(h, st), 1, 0
  {
    hide Drifts, HeapOk, DriftTable, RefAncestor;
    DriftsStill(st, a, 0);
    if v.TableRef? && RefAncestor(st, v.id).Some? {
      AstrayDrifts(st, a, RefAncestor(st, v.id).value);
    } else if v.TableRef? && IndexOf(st.objs, v.id).None? {
      EnterKeeps(h, st, v.id);
      TableDrifts(h, Enter(st, v.id), EnterDrift(st, a), v.id);
      EnterDrifts(st, a, v.id, DriftTable(h, Enter(st, v.id), EnterDrift(st, a), v.id));
    }
  }

  lemma AstrayDrifts(st: Enc, a: Drift, i: nat)
    requires Sane(st, a)
    ensures Drifts(st, a, a.(astray := a.astray || !Lands(st, a, i)), 0)
  {
  }

  lemma {:induction false} TableDrifts(h: Heap, st: Enc, a: Drift, o: nat)
    requires HeapOk(h) && st.Valid(h) && o in h && o !in st.objs && Sane(st, a) && a.lag < st.depth
    ensures Drifts(st, a, DriftTable(h, st, a, o), 1)
    decreases Unmet(h, st), 0, 0
  {
    hide Drifts, Extends;
    ItemsOk(h, h[o]);
    OpeningMeets(h, st, o);
    var st1 := OpenTable(h, st, o, h[o].objlen);
    var st2 := PackSeq(h, st1, ArrayItems(h[o]));
    PackSeqDepth(h, st1, ArrayItems(h[o]));
    var b := DriftSeq(h, st1, a, ArrayItems(h[o]));
    SeqDrifts(h, st1, a, ArrayItems(h[o]));
    SameDepthDrifts(st1, st, a, b, 0);
    DriftsLess(st, a, b);
    HashDrifts(h, st2, b, h[o], h[o].order);
    DriftsChain(st, a, st2, b, DriftHash(h, st2, b, h[o], h[o].order), 1);
  }

  lemma SameDepthDrifts(st1: Enc, st: Enc, a: Drift, b: Drift, own: nat)
    requires st1.depth == st.depth && Drifts(st1, a, b, own)
    ensures Drifts(st, a, b, own)
  {
  }

  lemma {:induction false} SeqDrifts(h: Heap, st: Enc, a: Drift, vs: seq<Value>)
    requires HeapOk(h) && st.Valid(h) && ValuesOk(h, vs) && Sane(st, a)
    ensures Drifts(st, a, DriftSeq(h, st, a, vs), 0)
    decreases Unmet(h, st), 2, |vs|
  {
    hide Drifts, Extends, HeapOk, Enc.Valid;
    if vs == [] {
      DriftsStill(st, a, 0);
    } else {
      var st1 := PackOne(h, st, vs[0]);
      PackDepth(h, st, vs[0]);
      OneDrifts(h, st, a, vs[0]);
      SeqDrifts(h, st1, DriftOne(h, st, a, vs[0]), vs[1..]);
      DriftsChain(st, a, st1, DriftOne(h, st, a, vs[0]), DriftSeq(h, st, a, vs), 0);
    }
  }

  lemma {:induction false} HashDrifts(h: Heap, st: Enc, a: Drift, t: LuaTable, order: seq<Value>)
    requires HeapOk(h) && st.Valid(h) && TableOk(h, t) && Sane(st, a) && a.lag < st.depth
    requires forall k :: k in order ==> k in t.entries
    ensures Drifts(st, a, DriftHash(h, st, a, t, order), 1)
    decreases Unmet(h, st), 2, |order|
  {
    hide Drifts, Extends, HeapOk, Enc.Valid;
    if order == [] {
      DriftsStill(st, a, 1);
    } else if InArray(order[0], t.objlen) {
      HashDrifts(h, st, a, t, order[1..]);
    } else {
      var k := order[0];
      var st1 := PackOne(h, st, k);
      PackDepth(h, st, k);
      var st2 := PackOne(h, st1, t.entries[k]);
      PackDepth(h, st1, t.entries[k]);
      var b := DriftKey(h, st, a, k);
      OneDrifts(h, st, a.(lag := a.lag + 1), k);
      KeyDrifts(st, a, DriftOne(h, st, a.(lag := a.lag + 1), k));
      var c := DriftOne(h, st1, b, t.entries[k]);
      OneDrifts(h, st1, b, t.entries[k]);
      DriftsLess(st1, b, c);
      DriftsChain(st, a, st1, b, c, 1);
      HashDrifts(h, st2, c, t, order[1..]);
      DriftsChain(st, a, st2, c, DriftHash(h, st2, c, t, order[1..]), 1);
    }
  }

  // Packing these arguments sends a reference astray.
  predicate GoesAstray(h: Heap, args: seq<Value>)
    requires HeapOk(h) && ValuesOk(h, args)
  {
    DriftSeq(h, START, STILL, args).astray
  }
}
