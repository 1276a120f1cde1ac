// Graphs whose table keys can be told from other tables, by an argument or by a name they
// carry: for them the order of packing is the only pairing of tables that can make a copy,
// so that what goes astray is lost for good.
//
// A copy has all entries of the graph, and a message has no more than they weigh. So none was
// dropped and no two fell together; reading stayed in step to the end, and but for references
// that went astray everything was read for what it is. Every table is then found again: where
// it hangs under a scalar key, as an argument, or by its name.
module Named {
  import opened Wire
  import opened Graph
  import opened Encoder
  import opened Decoder
  import opened Drifting
  import opened RoundTrip
  import opened Misdirection
  import opened Weights
  import Keys
  import Messages

  // Nothing stored is lost or replaced.
  ghost predicate Grew(ta: seq<Contents>, tb: seq<Contents>) {
    |ta| <= |tb| && forall p, c :: 0 <= p < |ta| && c in ta[p] ==> c in tb[p] && tb[p][c] == ta[p][c]
  }

  // Scalars under scalar keys are as they were.
  ghost predicate Kept(t: LuaTable, m: Contents, ks: set<Value>) {
    forall k :: k in ks && k in t.entries && !k.TableRef? && !t.entries[k].TableRef? ==> k in m && m[k] == t.entries[k]
  }

  ghost predicate Whole(h: Heap, objs: seq<nat>, tables: seq<Contents>, k: nat) {
    k < |objs| && k < |tables| && objs[k] in h && Kept(h[objs[k]], tables[k], h[objs[k]].entries.Keys)
  }

  // Table k hangs in table p under a scalar key, in the graph and in what is decoded.
  ghost predicate HangsOn(h: Heap, objs: seq<nat>, tables: seq<Contents>, k: nat, p: nat, c: Value) {
    && p < k < |objs| && p < |tables| && objs[p] in h && !c.TableRef?
    && c in h[objs[p]].entries && h[objs[p]].entries[c] == TableRef(objs[k])
    && c in tables[p] && tables[p][c] == TableRef(k)
  }

  ghost predicate Placed(h: Heap, objs: seq<nat>, anchors: set<nat>, tables: seq<Contents>, k: nat) {
    k < |objs| && (objs[k] in anchors || exists p, c :: HangsOn(h, objs, tables, k, p, c))
  }

  // Tables from |ta| on are whole; from first on they are placed.
  ghost predicate Fits(h: Heap, objs: seq<nat>, anchors: set<nat>, ta: seq<Contents>, tb: seq<Contents>, first: nat) {
    && Grew(ta, tb)
    && (forall k :: |ta| <= k < |tb| ==> Whole(h, objs, tb, k))
    && (forall k :: first <= k < |tb| ==> Placed(h, objs, anchors, tb, k))
  }

  // Whatever an entry with a table key holds is an anchor.
  ghost predicate Anchored(h: Heap, objs: seq<nat>, anchors: set<nat>) {
    forall o, k :: o in objs && o in h && k in h[o].entries && k.TableRef? ==>
      k.id in anchors && (h[o].entries[k].TableRef? ==> h[o].entries[k].id in anchors)
  }

  lemma PlacedStays(h: Heap, objs: seq<nat>, anchors: set<nat>, ta: seq<Contents>, tb: seq<Contents>, k: nat)
    requires Grew(ta, tb) && Placed(h, objs, anchors, ta, k)
    ensures Placed(h, objs, anchors, tb, k)
  {
    if objs[k] !in anchors {
      var p, c :| HangsOn(h, objs, ta, k, p, c);
      assert HangsOn(h, objs, tb, k, p, c);
    }
  }

  lemma FitsStill(h: Heap, objs: seq<nat>, anchors: set<nat>, ta: seq<Contents>, first: nat)
    requires |ta| <= first
    ensures Fits(h, objs, anchors, ta, ta, first)
  {
  }

  lemma WholeStays(h: Heap, objs: seq<nat>, ta: seq<Contents>, tb: seq<Contents>, k: nat)
    requires Grew(ta, tb) && Whole(h, objs, ta, k)
    ensures Whole(h, objs, tb, k)
  {
  }

  lemma FitsChain(h: Heap, objs: seq<nat>, anchors: set<nat>, ta: seq<Contents>, tb: seq<Contents>, tc: seq<Contents>)
    requires Fits(h, objs, anchors, ta, tb, |ta|) && Fits(h, objs, anchors, tb, tc, |tb|)
    ensures Fits(h, objs, anchors, ta, tc, |ta|)
  {
    hide Placed, Whole;
    forall k | |ta| <= k < |tc|
      ensures Whole(h, objs, tc, k) && Placed(h, objs, anchors, tc, k)
    {
      if k < |tb| {
        PlacedStays(h, objs, anchors, tb, tc, k);
        WholeStays(h, objs, tb, tc, k);
      }
    }
  }

  lemma PlaceFirst(h: Heap, objs: seq<nat>, anchors: set<nat>, ta: seq<Contents>, tb: seq<Contents>)
    requires Fits(h, objs, anchors, ta, tb, |ta| + 1)
    requires |tb| > |ta| ==> Placed(h, objs, anchors, tb, |ta|)
    ensures Fits(h, objs, anchors, ta, tb, |ta|)
  {
  }

  // A store under a new key
  lemma StoreFits(
    h: Heap, objs: seq<nat>, anchors: set<nat>, ta: seq<Contents>, tb: seq<Contents>, first: nat, id: nat, c: Value, w: Value)
    requires Fits(h, objs, anchors, ta, tb, first) && id < |ta| && c !in tb[id]
    ensures Grew(tb, tb[id := RawSet(tb[id], c, w)])
    ensures Fits(h, objs, anchors, ta, tb[id := RawSet(tb[id], c, w)], first)
  {
    hide Placed, Whole;
    var tc := tb[id := RawSet(tb[id], c, w)];
    assert Grew(tb, tc);
    forall k | |ta| <= k < |tc| ensures Whole(h, objs, tc, k) {
      WholeStays(h, objs, tb, tc, k);
    }
    forall k | first <= k < |tc| ensures Placed(h, objs, anchors, tc, k) {
      PlacedStays(h, objs, anchors, tb, tc, k);
    }
  }

  lemma KeptMore(t: LuaTable, m: Contents, ks: set<Value>, k: Value, c: Value, w: Value)
    requires Kept(t, m, ks) && c !in m
    requires k in t.entries && !k.TableRef? && !t.entries[k].TableRef? ==> c == k && w == t.entries[k] && w != Nil
    ensures Kept(t, RawSet(m, c, w), ks + {k})
  {
  }

  // What a value is read as, in step
  ghost predicate Reads(
    h: Heap, objs: seq<nat>, anchors: set<nat>, st: Enc, r: Enc, lag: nat, d: Dec, v: Value, w: Value, d2: Dec, m: set<nat>)
  {
    && InStep(r, lag, d2, m) && ReadAs(objs, st, d, v, w) && (w == Nil <==> v == Nil)
    && Fits(h, objs, anchors, d.tables, d2.tables, |d.tables| + 1)
    && (|d2.tables| > |d.tables| ==>
          v.TableRef? && w == TableRef(|d.tables|) && |d.tables| < |objs| && objs[|d.tables|] == v.id)
  }

  lemma LeafReads(
    h: Heap, objs: seq<nat>, anchors: set<nat>, st: Enc, r: Enc, lag: nat, d: Dec, v: Value, w: Value, p: nat, m: set<nat>)
    requires InStep(r, lag, d.(pos := p), m) && ReadAs(objs, st, d, v, w) && (w == Nil <==> v == Nil)
    ensures Reads(h, objs, anchors, st, r, lag, d, v, w, d.(pos := p), m)
  {
  }

  lemma AncestorTag(h: Heap, st: Enc, i: nat, f: seq<byte>, m: set<nat>)
    requires st.Valid(h) && i < EXTEND_NUMBER && Agrees(Emit(st, [Tag(TYPE_REF, i)]), f, m)
    ensures |st.out| < |f| && f[|st.out|] % 8 == TYPE_REF
  {
    EmittedAt(st, [Tag(TYPE_REF, i)], f, m);
    FirstOf(f, |st.out|, [Tag(TYPE_REF, i)]);
  }

  // A reference read as nil wastes what it weighs.
  lemma NilWastes(f: seq<byte>, d: Dec)
    requires d.pos < |f| && |d.anc| == MAX_DEPTH && f[d.pos] % 8 == TYPE_REF && UnpackOne(f, d).Ok?
    requires UnpackOne(f, d).value.0 == Nil
    ensures SlackOne(f, d) > 0
  {
    hide UnpackOne, SlackOne;
    SlackLeaf(f, d);
  }

  lemma {:induction false} TightOne(
    h: Heap, objs: seq<nat>, anchors: set<nat>, st: Enc, lag: nat, v: Value, f: seq<byte>, m: set<nat>, d: Dec)
    requires HeapOk(h) && st.Valid(h) && ValueOk(h, v) && InStep(st, lag, d, m) && Distinct(objs)
    requires Anchored(h, objs, anchors)
    requires Agrees(PackOne(h, st, v), f, m) && PackOne(h, st, v).objs <= objs
    requires d.pos <= |f| && |d.anc| == MAX_DEPTH && UnpackOne(f, d).Ok?
    ensures var (w, d2) := UnpackOne(f, d).value;
      SlackOne(f, d) > 0 || Reads(h, objs, anchors, st, PackOne(h, st, v), lag, d, v, w, d2, m)
    decreases Unmet(h, st), 1, 0
  {
    hide *;
    StepLengths(st, lag, d, m);
    if v.TableRef? {
      PackOneCases(h, st, v);
      if RefAncestor(st, v.id).Some? {
        RefAncestorBound(st, v.id);
        WeakAncestor(h, objs, st, lag, v.id, f, m, d);
        AncestorTag(h, st, RefAncestor(st, v.id).value, f, m);
        if UnpackOne(f, d).value.0 == Nil {
          NilWastes(f, d);
        } else {
          LeafReads(h, objs, anchors, st, PackOne(h, st, v), lag, d, v, UnpackOne(f, d).value.0, d.pos + 1, m);
        }
      } else if IndexOf(st.objs, v.id).Some? {
        var k := IndexOf(st.objs, v.id).value;
        SimRefObject(h, st, k, f, m, lag, d);
        FollowsStep(h, d, RefObject(h, st, k), lag, d.(pos := |RefObject(h, st, k).out|), m, NO_TABLE);
        IndexedIs(st.objs, v.id);
        CorrGrows(RefObject(h, st, k).objs, objs, v, TableRef(k));
        ReadRight(objs, st, d, v, TableRef(k));
        LeafReads(h, objs, anchors, st, PackOne(h, st, v), lag, d, v, TableRef(k), |RefObject(h, st, k).out|, m);
      } else {
        EnterObjs(st, v.id);
        PackedTable(h, st, v.id);
        TightTable(h, objs, anchors, st, lag, v.id, f, m, d);
        ReadNewTable(objs, st, d, v.id, m, lag);
        ThisTable(h, objs, st, v.id);
        if SlackOne(f, d) <= 0 {
          TableReads(h, objs, anchors, st, PackOne(h, st, v), lag, d, v.id, UnpackOne(f, d).value.1, m);
        }
      }
    } else {
      SimOneScalar(h, st, v, f, m, lag, d);
      FollowsStep(h, d, PackOne(h, st, v), lag, d.(pos := |PackOne(h, st, v).out|), m, NO_TABLE);
      ScalarCorr(objs, v);
      ReadRight(objs, st, d, v, v);
      LeafReads(h, objs, anchors, st, PackOne(h, st, v), lag, d, v, v, |PackOne(h, st, v).out|, m);
    }
  }

  lemma TableReads(
    h: Heap, objs: seq<nat>, anchors: set<nat>, st: Enc, r: Enc, lag: nat, d: Dec, o: nat, d2: Dec, m: set<nat>)
    requires InStep(r, lag, d2, m) && ReadAs(objs, st, d, TableRef(o), TableRef(|d.tables|))
    requires Fits(h, objs, anchors, d.tables, d2.tables, |d.tables| + 1) && |d.tables| < |objs| && objs[|d.tables|] == o
    ensures Reads(h, objs, anchors, st, r, lag, d, TableRef(o), TableRef(|d.tables|), d2, m)
  {
  }

  lemma {:induction false} TightTable(
    h: Heap, objs: seq<nat>, anchors: set<nat>, st: Enc, lag: nat, o: nat, f: seq<byte>, m: set<nat>, d: Dec)
    requires HeapOk(h) && st.Valid(h) && InStep(st, lag, d, m) && o in h && o !in st.objs && Distinct(objs)
    requires Anchored(h, objs, anchors) && Enter(st, o).Valid(h) && Enter(st, o).objs == st.objs
    requires Agrees(PackTable(h, Enter(st, o), o).(depth := st.depth), f, m)
    requires PackTable(h, Enter(st, o), o).objs <= objs
    requires d.pos <= |f| && |d.anc| == MAX_DEPTH && UnpackOne(f, d).Ok?
    ensures var (w, d2) := UnpackOne(f, d).value;
      && w == TableRef(|d.tables|)
      && (|| SlackOne(f, d) > 0
          || (&& InStep(PackTable(h, Enter(st, o), o).(depth := st.depth), lag, d2, m)
              && Fits(h, objs, anchors, d.tables, d2.tables, |d.tables| + 1)))
    decreases Unmet(h, st), 0, 0
  {
    hide *;
    PackTableSteps(h, st, o, f, m);
    StepLengths(st, lag, d, m);
    var t, st0 := h[o], Enter(st, o);
    var st1 := OpenTable(h, st0, o, t.objlen);
    var st2 := PackSeq(h, st1, ArrayItems(t));
    SimHeader(h, st0, o, t.objlen, f, m, d);
    CreateInStep(h, st, o, t.objlen, lag, d, m);
    MarkTypes(|st.objs|, m);
    var id, ty := |d.tables|, MarkType(|st.objs|, m);
    var d1 := Create(d.(pos := |st1.out|), ty).(depth := d.depth + 1);
    StepLengths(st1, lag, d1, m);
    SlackTable(f, d);
    var d2 := UnpackArray(f, d1, id, 1, t.objlen).value;
    ArrayAdvances(f, d1, id, 1, t.objlen);
    var d2' := d2.(depth := d.depth);
    var d3 := UnpackHash(f, d2', id).value;
    HashAdvances(f, d2', id);
    UnpackTableSteps(f, d, ty, t.objlen, |st1.out|, d2, d3);
    BoundArray(f, d1, id, 1, t.objlen);
    BoundHash(f, d2', id);
    if SlackOne(f, d) <= 0 {
      KeptNothing(t);
      PackedTable(h, st, o);
      ThisTable(h, objs, st, o);
      EmitObjs(PackSeq(h, st2, ItemsOf(t)), EncScalar(Nil));
      assert ArrayItems(t)[0..] == ArrayItems(t);
      PrefixObjs(st2.objs, PackTable(h, st0, o).objs, objs);
      TightArray(h, objs, anchors, st1, lag, t, 1, f, m, d1, id);
      assert d2'.(depth := d2'.depth + 1) == d2;
      TightHash(h, objs, anchors, st2, lag, t, t.order, f, m, d2', id, ArrayKeys(t, t.objlen));
      AllKeys(t);
      WeakTableEnd(h, st, PackTable(h, st0, o), lag, d3, d.stack, m);
      TableFits(h, objs, anchors, d.tables, d1.tables, d2.tables, d3.tables);
    }
  }

  lemma KeptNothing(t: LuaTable)
    ensures Kept(t, map[], ArrayKeys(t, 0))
  {
  }

  lemma TableFits(
    h: Heap, objs: seq<nat>, anchors: set<nat>, ta: seq<Contents>, tb: seq<Contents>, tc: seq<Contents>, td: seq<Contents>)
    requires tb == ta + [map[]] && |ta| < |objs| && objs[|ta|] in h
    requires Fits(h, objs, anchors, tb, tc, |tb|) && Fits(h, objs, anchors, tc, td, |tc|) && |ta| < |td|
    requires Kept(h[objs[|ta|]], td[|ta|], h[objs[|ta|]].entries.Keys)
    ensures Fits(h, objs, anchors, ta, td, |ta| + 1)
  {
    hide Placed, Kept;
    FitsChain(h, objs, anchors, tb, tc, td);
    assert forall p :: 0 <= p < |ta| ==> tb[p] == ta[p];
  }

  lemma {:induction false} TightArray(
    h: Heap, objs: seq<nat>, anchors: set<nat>, st: Enc, lag: nat, t: LuaTable, i: nat, f: seq<byte>, m: set<nat>,
    d: Dec, id: nat)
    requires HeapOk(h) && st.Valid(h) && InStep(st, lag, d, m) && TableOk(h, t) && Distinct(objs)
    requires Anchored(h, objs, anchors)
    requires 0 < i <= t.objlen + 1 && id < |d.tables| && id < |objs| && objs[id] in h && h[objs[id]] == t
    requires ValuesOk(h, ArrayItems(t)[i - 1..]) && Kept(t, d.tables[id], ArrayKeys(t, i - 1))
    requires Agrees(PackSeq(h, st, ArrayItems(t)[i - 1..]), f, m) && PackSeq(h, st, ArrayItems(t)[i - 1..]).objs <= objs
    requires d.pos <= |f| && |d.anc| == MAX_DEPTH && UnpackArray(f, d, id, i, t.objlen).Ok?
    ensures var d2 := UnpackArray(f, d, id, i, t.objlen).value;
      || SlackArray(f, d, id, i, t.objlen) > 0
      || (&& InStep(PackSeq(h, st, ArrayItems(t)[i - 1..]), lag, d2, m) && id < |d2.tables|
          && Fits(h, objs, anchors, d.tables, d2.tables, |d.tables|) && Kept(t, d2.tables[id], ArrayKeys(t, t.objlen)))
    decreases Unmet(h, st), 2, t.objlen + 1 - i
  {
    hide *;
    TableSizeOk(h, t);
    var vs := ArrayItems(t)[i - 1..];
    StepLengths(st, lag, d, m);
    PackSeqExtends(h, st, vs, f, m);
    if i <= t.objlen {
      PackSeqStep(h, st, vs, f, m);
      assert vs[1..] == ArrayItems(t)[i..];
      ItemAt(t, i);
      var st1 := PackOne(h, st, vs[0]);
      PrefixObjs(st1.objs, PackSeq(h, st, vs).objs, objs);
      SlackItem(f, d, id, i, t.objlen);
      TightOne(h, objs, anchors, st, lag, vs[0], f, m, d);
      var (w, d1) := UnpackOne(f, d).value;
      var c := Number(IntegerToDouble(i));
      var d1' := Assign(d1, id, c, w);
      AssignOne(d1, id, c, w);
      BoundOne(f, d);
      BoundArray(f, d1', id, i + 1, t.objlen);
      if SlackArray(f, d, id, i, t.objlen) <= 0 {
        ItemFits(h, objs, anchors, st, st1, lag, d, t, i, w, d1, m, id);
        TightArray(h, objs, anchors, st1, lag, t, i + 1, f, m, d1', id);
        FitsChain(h, objs, anchors, d.tables, d1'.tables, UnpackArray(f, d1', id, i + 1, t.objlen).value.tables);
      }
    } else {
      SimArrayEnd(h, st, lag, t, i, f, m, d, id);
      NothingLeft(h, st, t, i);
      FitsStill(h, objs, anchors, d.tables, |d.tables|);
    }
  }

  // An array element is stored.
  lemma ItemFits(
    h: Heap, objs: seq<nat>, anchors: set<nat>, st: Enc, r: Enc, lag: nat, d: Dec, t: LuaTable, i: nat, w: Value,
    d1: Dec, m: set<nat>,
    id: nat)
    requires TableOk(h, t) && 0 < i <= t.objlen && t.objlen < INT_LIMIT
    requires id < |d.tables| && id < |objs| && objs[id] in h && h[objs[id]] == t && Kept(t, d.tables[id], ArrayKeys(t, i - 1))
    requires Reads(h, objs, anchors, st, r, lag, d, RawGetI(t, i), w, d1, m)
    requires id < |d1.tables| && d1.tables[id] == d.tables[id] && Number(IntegerToDouble(i)) !in d.tables[id]
    ensures var d2 := Assign(d1, id, Number(IntegerToDouble(i)), w);
      && InStep(r, lag, d2, m) && id < |d2.tables| && Fits(h, objs, anchors, d.tables, d2.tables, |d.tables|)
      && Kept(t, d2.tables[id], ArrayKeys(t, i))
  {
    hide Fits, Kept, InArray, ArrayKeys, Placed;
    var k := IndexKey(i);
    assert k == Number(IntegerToDouble(i));
    StoreFits(h, objs, anchors, d.tables, d1.tables, |d.tables| + 1, id, k, w);
    var d2 := Assign(d1, id, k, w);
    AssignInStep(r, lag, d1, m, id, k, w);
    if |d1.tables| > |d.tables| {
      PlacedUnder(h, objs, anchors, d2.tables, |d.tables|, id, k, w);
    }
    PlaceFirst(h, objs, anchors, d.tables, d2.tables);
    NextArrayKey(t, i);
    ItemKept(h, objs, st, d, t, i, w, ArrayKeys(t, i - 1), d.tables[id]);
  }

  lemma PlacedUnder(h: Heap, objs: seq<nat>, anchors: set<nat>, tables: seq<Contents>, k: nat, p: nat, c: Value, w: Value)
    requires p < k < |objs| && p < |tables| && objs[p] in h && !c.TableRef? && c in h[objs[p]].entries
    requires h[objs[p]].entries[c] == TableRef(objs[k]) && w == TableRef(k) && c in tables[p] && tables[p][c] == w
    ensures Placed(h, objs, anchors, tables, k)
  {
    assert HangsOn(h, objs, tables, k, p, c);
  }

  lemma ItemKept(h: Heap, objs: seq<nat>, st: Enc, d: Dec, t: LuaTable, i: nat, w: Value, ks: set<Value>, m: Contents)
    requires TableOk(h, t) && 0 < i <= t.objlen && t.objlen < INT_LIMIT && Kept(t, m, ks)
    requires ReadAs(objs, st, d, RawGetI(t, i), w) && IndexKey(i) !in m
    ensures Kept(t, RawSet(m, IndexKey(i), w), ks + if IndexKey(i) in t.entries then {IndexKey(i)} else {})
  {
    var k := IndexKey(i);
    if k in t.entries {
      KeptMore(t, m, ks, k, k, w);
    }
  }

  lemma {:induction false} TightHash(
    h: Heap, objs: seq<nat>, anchors: set<nat>, st: Enc, lag: nat, t: LuaTable, order: seq<Value>, f: seq<byte>,
    m: set<nat>, d: Dec,
    id: nat, ks: set<Value>)
    requires HeapOk(h) && st.Valid(h) && TableOk(h, t) && Distinct(objs) && Anchored(h, objs, anchors)
    requires InStep(st, lag, d.(depth := d.depth + 1), m) && id < |d.tables|
    requires forall k :: k in order ==> k in t.entries
    requires ValuesOk(h, HashItems(t.entries, t.objlen, order))
    requires id < |objs| && objs[id] in h && h[objs[id]] == t && Kept(t, d.tables[id], ks)
    requires Agrees(Emit(PackSeq(h, st, HashItems(t.entries, t.objlen, order)), EncScalar(Nil)), f, m)
    requires PackSeq(h, st, HashItems(t.entries, t.objlen, order)).objs <= objs
    requires d.pos <= |f| && |d.anc| == MAX_DEPTH && UnpackHash(f, d, id).Ok?
    ensures var d2 := UnpackHash(f, d, id).value;
      || SlackHash(f, d, id) > 0
      || (&& InStep(Emit(PackSeq(h, st, HashItems(t.entries, t.objlen, order)), EncScalar(Nil)), lag, d2.(depth := d.depth + 1), m)
          && id < |d2.tables| && Fits(h, objs, anchors, d.tables, d2.tables, |d.tables|)
          && Kept(t, d2.tables[id], ks + HashKeys(order, t.objlen)))
    decreases Unmet(h, st), 2, |order|
  {
    hide *;
    if order == [] {
      TightHashEnd(h, objs, anchors, st, lag, t, f, m, d, id, ks);
    } else if InArray(order[0], t.objlen) {
      SkippedKey(t, order);
      TightHash(h, objs, anchors, st, lag, t, order[1..], f, m, d, id, ks);
    } else {
      TightEntry(h, objs, anchors, st, lag, t, order, f, m, d, id, ks);
    }
  }

  lemma TightHashEnd(
    h: Heap, objs: seq<nat>, anchors: set<nat>, st: Enc, lag: nat, t: LuaTable, f: seq<byte>, m: set<nat>, d: Dec,
    id: nat, ks: set<Value>)
    requires HeapOk(h) && st.Valid(h) && InStep(st, lag, d.(depth := d.depth + 1), m) && id < |d.tables|
    requires Kept(t, d.tables[id], ks)
    requires Agrees(Emit(PackSeq(h, st, HashItems(t.entries, t.objlen, [])), EncScalar(Nil)), f, m)
    requires d.pos <= |f| && |d.anc| == MAX_DEPTH && UnpackHash(f, d, id).Ok?
    ensures var d2 := UnpackHash(f, d, id).value;
      && InStep(Emit(PackSeq(h, st, HashItems(t.entries, t.objlen, [])), EncScalar(Nil)), lag, d2.(depth := d.depth + 1), m)
      && id < |d2.tables| && Fits(h, objs, anchors, d.tables, d2.tables, |d.tables|)
      && Kept(t, d2.tables[id], ks + HashKeys([], t.objlen))
  {
    hide UnpackOne, EncScalar, Agrees, Kept, Fits;
    NoItems(h, st, t);
    SimScalar(h, st, Nil, f, m, d);
    FitsStill(h, objs, anchors, d.tables, |d.tables|);
    assert ks + HashKeys([], t.objlen) == ks;
  }

  lemma {:induction false} TightEntry(
    h: Heap, objs: seq<nat>, anchors: set<nat>, st: Enc, lag: nat, t: LuaTable, order: seq<Value>, f: seq<byte>,
    m: set<nat>, d: Dec,
    id: nat, ks: set<Value>)
    requires HeapOk(h) && st.Valid(h) && TableOk(h, t) && Distinct(objs) && Anchored(h, objs, anchors)
    requires InStep(st, lag, d.(depth := d.depth + 1), m) && id < |d.tables|
    requires forall k :: k in order ==> k in t.entries
    requires order != [] && !InArray(order[0], t.objlen)
    requires ValuesOk(h, HashItems(t.entries, t.objlen, order))
    requires id < |objs| && objs[id] in h && h[objs[id]] == t && Kept(t, d.tables[id], ks)
    requires Agrees(Emit(PackSeq(h, st, HashItems(t.entries, t.objlen, order)), EncScalar(Nil)), f, m)
    requires PackSeq(h, st, HashItems(t.entries, t.objlen, order)).objs <= objs
    requires d.pos <= |f| && |d.anc| == MAX_DEPTH && UnpackHash(f, d, id).Ok?
    ensures var d2 := UnpackHash(f, d, id).value;
      || SlackHash(f, d, id) > 0
      || (&& InStep(Emit(PackSeq(h, st, HashItems(t.entries, t.objlen, order)), EncScalar(Nil)), lag, d2.(depth := d.depth + 1), m)
          && id < |d2.tables| && Fits(h, objs, anchors, d.tables, d2.tables, |d.tables|)
          && Kept(t, d2.tables[id], ks + HashKeys(order, t.objlen)))
    decreases Unmet(h, st), 2, |order|, 0
  {
    hide *;
    PackEntrySteps(h, st, t, order, f, m);
    PackObjs(h, st, t, order, objs, f, m);
    var k, v := order[0], t.entries[order[0]];
    var st1 := PackOne(h, st, k);
    var st2 := PackOne(h, st1, v);
    KeyInStep(st, lag, d, m);
    KeyFails(f, d, id);
    TightOne(h, objs, anchors, st, lag + 1, k, f, m, d);
    var (c, d1) := UnpackOne(f, d).value;
    OneAdvances(f, d);
    BoundOne(f, d);
    if c == Nil {
      SlackEnd(f, d, id);
      NilUnread(h, objs, anchors, st, st1, lag + 1, d, k, d1, m);
    } else {
      SlackEntry(f, d, id);
      AtValuePos(d1, c);
      var (w, d2) := UnpackOne(f, AtValue(d1, c)).value;
      OneAdvances(f, AtValue(d1, c));
      AtValueIs(d1, c);
      var d3 := Assign(d2.(depth := d.depth, stack := d.stack), id, c, w);
      BoundOne(f, AtValue(d1, c));
      BoundHash(f, d3, id);
      if SlackHash(f, d, id) <= 0 {
        ReadsInStep(h, objs, anchors, st, st1, lag + 1, d, k, c, d1, m);
        ValueInStep(st1, lag, d1, m, c);
        TightOne(h, objs, anchors, st1, lag, v, f, m, AtValue(d1, c));
        EntryFits(h, objs, anchors, st, st1, st2, lag, d, t, k, c, d1, w, d2, m, id, ks);
        TightHash(h, objs, anchors, st2, lag, t, order[1..], f, m, d3, id, ks + {k});
        FitsChain(h, objs, anchors, d.tables, d3.tables, UnpackHash(f, d3, id).value.tables);
        NextHashKey(order, t.objlen, ks);
        AssignOne(d2.(depth := d.depth, stack := d.stack), id, c, w);
      }
    }
  }

  lemma NilUnread(
    h: Heap, objs: seq<nat>, anchors: set<nat>, st: Enc, r: Enc, lag: nat, d: Dec, v: Value, d2: Dec, m: set<nat>)
    requires v != Nil
    ensures !Reads(h, objs, anchors, st, r, lag, d, v, Nil, d2, m)
  {
  }

  lemma ReadsInStep(
    h: Heap, objs: seq<nat>, anchors: set<nat>, st: Enc, r: Enc, lag: nat, d: Dec, v: Value, w: Value, d2: Dec, m: set<nat>)
    requires Reads(h, objs, anchors, st, r, lag, d, v, w, d2, m)
    ensures InStep(r, lag, d2, m)
  {
  }

  // A hash entry is stored.
  lemma EntryFits(
    h: Heap, objs: seq<nat>, anchors: set<nat>, st: Enc, st1: Enc, st2: Enc, lag: nat, d: Dec, t: LuaTable, k: Value,
    c: Value, d1: Dec,
    w: Value, d2: Dec, m: set<nat>, id: nat, ks: set<Value>)
    requires TableOk(h, t) && k in t.entries && Anchored(h, objs, anchors) && d2.depth == d.depth + 1
    requires id < |d.tables| && id < |objs| && objs[id] in h && h[objs[id]] == t && Kept(t, d.tables[id], ks)
    requires Reads(h, objs, anchors, st, st1, lag + 1, d, k, c, d1, m)
    requires Reads(h, objs, anchors, st1, st2, lag, AtValue(d1, c), t.entries[k], w, d2, m)
    requires id < |d2.tables| && d2.tables[id] == d.tables[id] && c !in d.tables[id]
    ensures var d3 := Assign(d2.(depth := d.depth, stack := d.stack), id, c, w);
      && InStep(st2, lag, d3.(depth := d3.depth + 1), m) && id < |d3.tables|
      && Fits(h, objs, anchors, d.tables, d3.tables, |d.tables|) && Kept(t, d3.tables[id], ks + {k})
  {
    hide Fits, Kept, Placed, InStep;
    var e := d2.(depth := d.depth, stack := d.stack);
    var d3 := Assign(e, id, c, w);
    StoredInStep(st2, lag, d2, m, d.depth, d.stack, id, c, w);
    assert d3.(depth := d3.depth + 1) == d3.(depth := d.depth + 1);
    if |d1.tables| > |d.tables| {
      PlacedAnchor(h, objs, anchors, d1.tables, |d.tables|, id, k);
    }
    PlaceFirst(h, objs, anchors, d.tables, d1.tables);
    FitsSize(h, objs, anchors, d.tables, d1.tables, |d.tables|);
    StoreFits(h, objs, anchors, d1.tables, d2.tables, |d1.tables| + 1, id, c, w);
    if |d2.tables| > |d1.tables| {
      ValuePlaced(h, objs, anchors, st, d, k, c, d1.tables, d3.tables, w, id);
    }
    PlaceFirst(h, objs, anchors, d1.tables, d3.tables);
    FitsChain(h, objs, anchors, d.tables, d1.tables, d3.tables);
    EntryKept(h, objs, st, d, st1, AtValue(d1, c), t, k, c, w, ks, d.tables[id]);
  }

  lemma FitsSize(h: Heap, objs: seq<nat>, anchors: set<nat>, ta: seq<Contents>, tb: seq<Contents>, first: nat)
    requires Fits(h, objs, anchors, ta, tb, first)
    ensures |ta| <= |tb|
  {
  }

  lemma PlacedAnchor(h: Heap, objs: seq<nat>, anchors: set<nat>, tables: seq<Contents>, k: nat, p: nat, c: Value)
    requires Anchored(h, objs, anchors) && k < |objs| && p < |objs| && objs[p] in h && c in h[objs[p]].entries
    requires c == TableRef(objs[k])
    ensures Placed(h, objs, anchors, tables, k)
  {
  }

  lemma ValuePlaced(
    h: Heap, objs: seq<nat>, anchors: set<nat>, st: Enc, d: Dec, k: Value, c: Value, ta: seq<Contents>,
    tables: seq<Contents>, w: Value,
    id: nat)
    requires Anchored(h, objs, anchors) && id < |objs| && objs[id] in h && k in h[objs[id]].entries
    requires ReadAs(objs, st, d, k, c)
    requires id < |ta| < |objs| && h[objs[id]].entries[k] == TableRef(objs[|ta|]) && w == TableRef(|ta|)
    requires id < |tables| && c in tables[id] && tables[id][c] == w
    ensures Placed(h, objs, anchors, tables, |ta|)
  {
    if !k.TableRef? {
      assert HangsOn(h, objs, tables, |ta|, id, k);
    }
  }

  lemma EntryKept(
    h: Heap, objs: seq<nat>, st: Enc, d: Dec, st1: Enc, d1: Dec, t: LuaTable, k: Value, c: Value, w: Value,
    ks: set<Value>, m: Contents)
    requires TableOk(h, t) && k in t.entries && Kept(t, m, ks) && c !in m
    requires ReadAs(objs, st, d, k, c) && ReadAs(objs, st1, d1, t.entries[k], w)
    ensures Kept(t, RawSet(m, c, w), ks + {k})
  {
    KeptMore(t, m, ks, k, c, w);
  }

  lemma {:induction false} TightAll(
    h: Heap, objs: seq<nat>, anchors: set<nat>, st: Enc, args: seq<Value>, f: seq<byte>, m: set<nat>, d: Dec)
    requires HeapOk(h) && st.Valid(h) && ValuesOk(h, args) && InStep(st, 0, d, m) && Distinct(objs)
    requires Anchored(h, objs, anchors)
    requires st.depth == 0 && forall v :: v in args && v.TableRef? ==> v.id in anchors
    requires Agrees(PackSeq(h, st, args), f, m) && PackSeq(h, st, args).objs <= objs && |f| == |PackSeq(h, st, args).out|
    requires d.pos <= |f| && |d.anc| == MAX_DEPTH && UnpackAll(f, d).Ok?
    ensures var (ws, d2) := UnpackAll(f, d).value;
      || SlackAll(f, d) > 0
      || (&& InStep(PackSeq(h, st, args), 0, d2, m) && Fits(h, objs, anchors, d.tables, d2.tables, |d.tables|)
          && |ws| == |args| && forall i :: 0 <= i < |args| ==> Corr(objs, args[i], ws[i]))
    decreases |args|
  {
    hide *;
    StepLengths(st, 0, d, m);
    PackSeqExtends(h, st, args, f, m);
    if args == [] {
      SlackNothing(f, d);
      FitsStill(h, objs, anchors, d.tables, |d.tables|);
    } else {
      PackSeqStep(h, st, args, f, m);
      ArgumentBytes(h, st, args, f);
      var st1 := PackOne(h, st, args[0]);
      PrefixObjs(st1.objs, PackSeq(h, st, args).objs, objs);
      SlackArgument(f, d);
      TightOne(h, objs, anchors, st, 0, args[0], f, m, d);
      var (w, d1) := UnpackOne(f, d).value;
      var d1' := d1.(stack := d1.stack + [w]);
      BoundOne(f, d);
      BoundAll(f, d1');
      if SlackAll(f, d) <= 0 {
        ArgumentReads(h, objs, anchors, st, st1, d, args[0], w, d1, m);
        PushResult(st1, 0, d1, m, w);
        TightAll(h, objs, anchors, st1, args[1..], f, m, d1');
        var (ws, d2) := UnpackAll(f, d1').value;
        FitsChain(h, objs, anchors, d.tables, d1.tables, d2.tables);
        forall i | 0 <= i < |args| ensures Corr(objs, args[i], ([w] + ws)[i]) {
          if i > 0 {
            assert args[i] == args[1..][i - 1];
          }
        }
      }
    }
  }

  // An argument is not within a table, so that no reference to an open one stands for it.
  lemma ArgumentReads(
    h: Heap, objs: seq<nat>, anchors: set<nat>, st: Enc, r: Enc, d: Dec, v: Value, w: Value, d2: Dec, m: set<nat>)
    requires Reads(h, objs, anchors, st, r, 0, d, v, w, d2, m) && st.depth == 0 && (v.TableRef? ==> v.id in anchors)
    ensures InStep(r, 0, d2, m) && Corr(objs, v, w) && Fits(h, objs, anchors, d.tables, d2.tables, |d.tables|)
  {
    PlaceFirst(h, objs, anchors, d.tables, d2.tables);
  }

  // What a copy holds

  lemma {:induction false} StoredIsOwed(h: Heap, objs: seq<nat>, tables: seq<Contents>, n: nat)
    requires n <= |objs| == |tables|
    requires forall k :: 0 <= k < |objs| ==> objs[k] in h && |tables[k]| == |h[objs[k]].entries|
    ensures Stored(tables[..n]) == Owed(h, objs[..n])
    decreases n
  {
    hide Stored, Owed;
    if n == 0 {
      NothingStored(h);
    } else {
      StoredIsOwed(h, objs, tables, n - 1);
      assert tables[..n] == tables[..n - 1] + [tables[n - 1]];
      assert objs[..n] == objs[..n - 1] + [objs[n - 1]];
      StoredMore(tables[..n - 1], tables[n - 1]);
      OwedMore(h, objs[..n - 1], objs[n - 1]);
    }
  }

  lemma NothingStored(h: Heap)
    ensures Stored([]) == 0 == Owed(h, [])
  {
  }

  lemma CopySize(objs: seq<nat>, t: LuaTable, m: Contents)
    requires Distinct(objs) && TableCorr(objs, t, m)
    ensures |m| == |t.entries|
  {
    FilledSize(objs, t, m, t.entries.Keys);
    assert |t.entries.Keys| == |t.entries|;
  }

  lemma {:induction false} OwedWithout(h: Heap, objs: seq<nat>, j: nat)
    requires j < |objs| && objs[j] in h
    ensures Owed(h, objs) == Owed(h, objs[..j] + objs[j + 1..]) + |h[objs[j]].entries|
    decreases |objs|
  {
    var last := |objs| - 1;
    var rest := objs[..j] + objs[j + 1..];
    if j == last {
      assert rest == objs[..last];
    } else {
      OwedWithout(h, objs[..last], j);
      assert rest[..last - 1] == objs[..last][..j] + objs[..last][j + 1..];
      assert rest[last - 1] == objs[last];
    }
  }

  lemma {:induction false} OwedWithin(h: Heap, a: seq<nat>, b: seq<nat>)
    requires Distinct(a) && forall o :: o in a ==> o in b && o in h
    ensures Owed(h, a) <= Owed(h, b)
    decreases |a|
  {
    if a != [] {
      var last := |a| - 1;
      assert a[last] in a;
      var j :| 0 <= j < |b| && b[j] == a[last];
      var rest := b[..j] + b[j + 1..];
      forall o | o in a[..last] ensures o in rest {
        assert o in a;
        var i :| 0 <= i < |b| && b[i] == o;
        assert i != j;
        assert o == if i < j then rest[i] else rest[i - 1];
      }
      OwedWithin(h, a[..last], rest);
      OwedWithout(h, b, j);
    }
  }

  lemma {:induction false} SameOnes(objs: seq<nat>, args: seq<Value>, ws: seq<Value>)
    requires |ws| == |args| && forall i :: 0 <= i < |args| ==> Corr(objs, args[i], ws[i])
    ensures Ones(ws) == Ones(args)
    decreases |args|
  {
    if args != [] {
      assert Corr(objs, args[0], ws[0]);
      SameOnes(objs, args[1..], ws[1..]);
    }
  }

  // The tables of a copy, whatever the pairing, are closed under what they hold.
  lemma CopyCovers(h: Heap, args: seq<Value>, objs: seq<nat>, ws: seq<Value>, tables: seq<Contents>)
    requires HeapOk(h) && ValuesOk(h, args) && Isomorphic(h, args, objs, ws, tables)
    ensures forall o :: o in Pack(h, args).objs ==> o in objs
  {
    hide Pack, Enc.Valid;
    var s := set o | o in objs;
    forall o, k | o in s && o in h && k in h[o].entries
      ensures Messages.Refers(k, s) && Messages.Refers(h[o].entries[k], s)
    {
      var j :| 0 <= j < |objs| && objs[j] == o;
      assert TableCorr(objs, h[objs[j]], tables[j]);
    }
    forall v | v in args ensures Messages.Refers(v, s) {
      var i :| 0 <= i < |args| && args[i] == v;
      assert Corr(objs, args[i], ws[i]);
    }
    assert Messages.Closed(h, s);
    Messages.PacksTheReachable(h, args);
    forall o | o in Pack(h, args).objs ensures o in objs {
      assert o in Messages.Objects(Pack(h, args));
    }
  }

  // A copy, whatever the pairing, leaves nothing of the message unused.
  lemma CopyIsTight(h: Heap, args: seq<Value>, objs: seq<nat>)
    requires HeapOk(h) && ValuesOk(h, args) && Unpack(Pack(h, args).out).Ok?
    requires var (ws, d) := Unpack(Pack(h, args).out).value; Isomorphic(h, args, objs, ws, d.tables)
    ensures SlackAll(Pack(h, args).out, Decoder.START) <= 0
  {
    hide UnpackAll, Pack, Weight, Filled, HeapOk, TableOk, ValuesOk, ValueOk;
    var r := Pack(h, args);
    var (ws, d) := Unpack(r.out).value;
    CopyCovers(h, args, objs, ws, d.tables);
    Messages.PacksTheReachable(h, args);
    PackedInHeap(h, args);
    OwedWithin(h, r.objs, objs);
    forall k | 0 <= k < |objs| ensures objs[k] in h && |d.tables[k]| == |h[objs[k]].entries| {
      CopySize(objs, h[objs[k]], d.tables[k]);
    }
    StoredIsOwed(h, objs, d.tables, |objs|);
    assert d.tables[..|objs|] == d.tables && objs[..|objs|] == objs;
    SameOnes(objs, args, ws);
    PackedWeight(h, args);
  }

  lemma PackedInHeap(h: Heap, args: seq<Value>)
    requires HeapOk(h) && ValuesOk(h, args)
    ensures forall o :: o in Pack(h, args).objs ==> o in h
  {
    hide PackSeq;
  }

  // The class

  // A scalar under a scalar key that no other table of the message has there
  ghost predicate HasName(h: Heap, objs: seq<nat>, o: nat) {
    o in h && exists k :: k in h[o].entries && IsName(h, objs, o, k)
  }

  ghost predicate IsName(h: Heap, objs: seq<nat>, o: nat, k: Value)
    requires o in h && k in h[o].entries
  {
    && !k.TableRef? && !h[o].entries[k].TableRef?
    && forall x :: x in objs && x in h && k in h[x].entries && h[x].entries[k] == h[o].entries[k] ==> x == o
  }

  ghost predicate Tellable(h: Heap, args: seq<Value>, objs: seq<nat>, v: Value) {
    v.TableRef? ==> v in args || HasName(h, objs, v.id)
  }

  // Of the tables packed, those that are keys, or held under such keys, can be told.
  ghost predicate KeysTellable(h: Heap, args: seq<Value>)
    requires HeapOk(h) && ValuesOk(h, args)
  {
    forall o, k :: o in Pack(h, args).objs && o in h && k in h[o].entries && k.TableRef? ==>
      Tellable(h, args, Pack(h, args).objs, k) && Tellable(h, args, Pack(h, args).objs, h[o].entries[k])
  }

  ghost function Anchors(h: Heap, args: seq<Value>, objs: seq<nat>): set<nat> {
    set o | o in h && Tellable(h, args, objs, TableRef(o))
  }

  lemma AnchorsDo(h: Heap, args: seq<Value>)
    requires HeapOk(h) && ValuesOk(h, args) && KeysTellable(h, args)
    ensures Anchored(h, Pack(h, args).objs, Anchors(h, args, Pack(h, args).objs))
    ensures forall v :: v in args && v.TableRef? ==> v.id in Anchors(h, args, Pack(h, args).objs)
  {
    hide Pack, Tellable, Enc.Valid;
    var objs := Pack(h, args).objs;
    forall v | v in args && v.TableRef? ensures v.id in Anchors(h, args, objs) {
      ArgumentTold(h, args, objs, v);
    }
    forall o, k | o in objs && o in h && k in h[o].entries && k.TableRef?
      ensures k.id in Anchors(h, args, objs)
      ensures h[o].entries[k].TableRef? ==> h[o].entries[k].id in Anchors(h, args, objs)
    {
      assert ValueOk(h, k) && ValueOk(h, h[o].entries[k]);
      assert k == TableRef(k.id);
    }
  }

  lemma ArgumentTold(h: Heap, args: seq<Value>, objs: seq<nat>, v: Value)
    requires v in args
    ensures Tellable(h, args, objs, v)
  {
  }

  // Reading a copy to the end in step, every table is found to be the one packed.
  lemma {:induction false} SamePlace(
    h: Heap, args: seq<Value>, objs: seq<nat>, objs2: seq<nat>, ws: seq<Value>, tables: seq<Contents>, k: nat)
    requires Distinct(objs) && |objs| == |tables| && k < |objs|
    requires Isomorphic(h, args, objs2, ws, tables) && forall o :: o in objs2 ==> o in objs
    requires |ws| == |args| && forall i :: 0 <= i < |args| ==> Corr(objs, args[i], ws[i])
    requires Fits(h, objs, Anchors(h, args, objs), [], tables, 0)
    ensures objs2[k] == objs[k]
    decreases k
  {
    hide Filled, Whole, HangsOn, Distinct, IsName;
    assert Placed(h, objs, Anchors(h, args, objs), tables, k) && Whole(h, objs, tables, k);
    if objs[k] in Anchors(h, args, objs) {
      if TableRef(objs[k]) in args {
        var i :| 0 <= i < |args| && args[i] == TableRef(objs[k]);
        SameArgument(objs, objs2, args[i], ws[i], k);
      } else {
        var c :| c in h[objs[k]].entries && IsName(h, objs, objs[k], c);
        SameName(h, objs, objs2, tables, k, c);
      }
    } else {
      var p, c :| HangsOn(h, objs, tables, k, p, c);
      HangsBelow(h, objs, tables, k, p, c);
      SamePlace(h, args, objs, objs2, ws, tables, p);
      SameHanging(h, objs, objs2, tables, k, p, c);
    }
  }

  lemma HangsBelow(h: Heap, objs: seq<nat>, tables: seq<Contents>, k: nat, p: nat, c: Value)
    requires HangsOn(h, objs, tables, k, p, c)
    ensures p < k
  {
  }

  lemma SameArgument(objs: seq<nat>, objs2: seq<nat>, v: Value, w: Value, k: nat)
    requires Distinct(objs) && k < |objs| == |objs2| && v == TableRef(objs[k]) && Corr(objs, v, w) && Corr(objs2, v, w)
    ensures objs2[k] == objs[k]
  {
  }

  lemma SameName(h: Heap, objs: seq<nat>, objs2: seq<nat>, tables: seq<Contents>, k: nat, c: Value)
    requires k < |objs| == |objs2| && Whole(h, objs, tables, k) && objs2[k] in h && objs2[k] in objs
    requires TableCorr(objs2, h[objs2[k]], tables[k]) && c in h[objs[k]].entries && IsName(h, objs, objs[k], c)
    ensures objs2[k] == objs[k]
  {
    assert c in tables[k] && tables[k][c] == h[objs[k]].entries[c];
    var c2 :| c2 in h[objs2[k]].entries.Keys && c == Image(objs2, c2);
  }

  lemma SameHanging(h: Heap, objs: seq<nat>, objs2: seq<nat>, tables: seq<Contents>, k: nat, p: nat, c: Value)
    requires HangsOn(h, objs, tables, k, p, c) && |objs| == |objs2| && objs2[p] == objs[p] && Distinct(objs2)
    requires TableCorr(objs2, h[objs[p]], tables[p])
    ensures objs2[k] == objs[k]
  {
    assert c in h[objs[p]].entries.Keys && Image(objs2, c) == c;
    CorrIsImage(objs2, TableRef(objs[k]), TableRef(k));
  }

  ghost function Members(b: seq<nat>): set<nat> {
    set o | o in b
  }

  lemma {:induction false} MembersCount(b: seq<nat>)
    ensures |Members(b)| <= |b|
  {
    if b == [] {
      assert Members(b) == {};
    } else {
      MembersCount(b[1..]);
      assert b == [b[0]] + b[1..];
      assert Members(b) == Members(b[1..]) + {b[0]};
    }
  }

  lemma SameTables(a: seq<nat>, b: seq<nat>)
    requires Distinct(a) && Distinct(b) && |a| == |b| && forall o :: o in a ==> o in b
    ensures forall o :: o in b ==> o in a
  {
    forall o | o in b ensures o in a {
      if o !in a {
        var more := a + [o];
        assert Distinct(more) && forall x :: x in more ==> x in Members(b);
        DistinctCount(more, Members(b));
        MembersCount(b);
      }
    }
  }

  // For such graphs the order of packing is the only pairing that can make a copy.
  lemma OnlyInOrder(h: Heap, args: seq<Value>, objs: seq<nat>)
    requires HeapOk(h) && ValuesOk(h, args) && KeysTellable(h, args) && Unpack(Pack(h, args).out).Ok?
    requires var (ws, d) := Unpack(Pack(h, args).out).value; Isomorphic(h, args, objs, ws, d.tables)
    ensures objs == Pack(h, args).objs
  {
    hide *;
    var r := Pack(h, args);
    var (ws, d) := Unpack(r.out).value;
    TightMessage(h, args, objs);
    CopyCovers(h, args, objs, ws, d.tables);
    IsomorphicParts(h, args, objs, ws, d.tables);
    Messages.PacksTheReachable(h, args);
    SameTables(r.objs, objs);
    forall k | 0 <= k < |objs| ensures objs[k] == r.objs[k] {
      SamePlace(h, args, r.objs, objs, ws, d.tables, k);
    }
  }

  lemma IsomorphicParts(h: Heap, args: seq<Value>, objs: seq<nat>, ws: seq<Value>, tables: seq<Contents>)
    requires Isomorphic(h, args, objs, ws, tables)
    ensures Distinct(objs) && |objs| == |tables| && |ws| == |args|
  {
  }

  lemma TightMessage(h: Heap, args: seq<Value>, objs: seq<nat>)
    requires HeapOk(h) && ValuesOk(h, args) && KeysTellable(h, args) && Unpack(Pack(h, args).out).Ok?
    requires var (ws, d) := Unpack(Pack(h, args).out).value; Isomorphic(h, args, objs, ws, d.tables)
    ensures var (ws, d) := Unpack(Pack(h, args).out).value;
      var order := Pack(h, args).objs;
      && |order| == |d.tables| && |ws| == |args| && (forall i :: 0 <= i < |args| ==> Corr(order, args[i], ws[i]))
      && Fits(h, order, Anchors(h, args, order), [], d.tables, 0)
  {
    hide UnpackAll, PackSeq, Fits, Isomorphic, Anchors, Anchored, KeysTellable, HeapOk, ValuesOk;
    var r := Pack(h, args);
    PackAgreesWithItself(h, r);
    StartInStep(h, r.marked);
    AnchorsDo(h, args);
    CopyIsTight(h, args, objs);
    TightAll(h, r.objs, Anchors(h, args, r.objs), Encoder.START, args, r.out, r.marked, Decoder.START);
  }

  // Which pairings make a copy: the order of packing if no reference goes astray, otherwise
  // none.
  lemma CopiesExactly(h: Heap, args: seq<Value>, objs: seq<nat>)
    requires HeapOk(h) && ValuesOk(h, args) && KeysTellable(h, args)
    ensures var r := Unpack(Pack(h, args).out);
      r.Ok? && Isomorphic(h, args, objs, r.value.0, r.value.1.tables) <==> objs == Pack(h, args).objs && !GoesAstray(h, args)
  {
    hide *;
    Messages.RoundTripExactly(h, args);
    var r := Unpack(Pack(h, args).out);
    if r.Ok? && Isomorphic(h, args, objs, r.value.0, r.value.1.tables) {
      OnlyInOrder(h, args, objs);
    }
  }

  // With scalar keys only: always that one.
  lemma OneCopyOnly(h: Heap, args: seq<Value>, objs: seq<nat>)
    requires HeapOk(h) && ValuesOk(h, args) && ScalarKeys(h)
    ensures var r := Unpack(Pack(h, args).out);
      r.Ok? && Isomorphic(h, args, objs, r.value.0, r.value.1.tables) <==> objs == Pack(h, args).objs
  {
    hide Pack, Unpack, GoesAstray, Isomorphic, HeapOk, ValuesOk, Tellable;
    Keys.ScalarKeysAreFound(h, args);
    CopiesExactly(h, args, objs);
  }

  // A member of the class that does not come back: t[k] = t, with t and k as arguments
  lemma TellableYetLost()
    ensures var args := [TableRef(0), TableRef(1)];
      && HeapOk(Messages.KEYED) && ValuesOk(Messages.KEYED, args)
      && KeysTellable(Messages.KEYED, args) && GoesAstray(Messages.KEYED, args)
      && var r := Unpack(Pack(Messages.KEYED, args).out);
         r.Ok? ==> forall objs :: !Isomorphic(Messages.KEYED, args, objs, r.value.0, r.value.1.tables)
  {
    hide PackSeq, DriftOne, DriftSeq, Unpack, Isomorphic, HeapOk, Enc.Valid;
    var h, args := Messages.KEYED, [TableRef(0), TableRef(1)];
    Messages.TableKeyIsLost();
    PackedInHeap(h, args);
    assert KeysTellable(h, args);
    FirstAstray(h, TableRef(0), args);
    var r := Unpack(Pack(h, args).out);
    if r.Ok? {
      forall objs ensures !Isomorphic(h, args, objs, r.value.0, r.value.1.tables) {
        CopiesExactly(h, args, objs);
      }
    }
  }

  lemma FirstAstray(h: Heap, v: Value, args: seq<Value>)
    requires HeapOk(h) && ValuesOk(h, [v]) && ValuesOk(h, args) && args != [] && args[0] == v && GoesAstray(h, [v])
    ensures GoesAstray(h, args)
  {
    hide DriftOne, PackOne, Drifts, HeapOk, Enc.Valid;
    StartInStep(h, {});
    DriftSeqStep(h, Encoder.START, STILL, [v]);
    DriftSeqStep(h, Encoder.START, STILL, args);
  }
}
