// The other half of the round trip: once a reference has gone astray, what is decoded is
// not the graph that was packed.
//
// Up to the first such reference the two sides are in lock-step and agree. From there on
// they still parse the same bytes the same way, if not to the same values, until a table
// ends early; and a table that is complete is never touched again.
module Misdirection {
  import opened Wire
  import opened Graph
  import opened Encoder
  import opened Decoder
  import opened Drifting
  import opened RoundTrip

  // Some table from this one on is not what it should be. objs are all tables packed.
  ghost predicate Broken(h: Heap, objs: seq<nat>, tables: seq<Contents>, from: nat) {
    exists k :: from <= k < |tables| && k < |objs| && objs[k] in h && !TableCorr(objs, h[objs[k]], tables[k])
  }

  lemma BrokenStays(h: Heap, objs: seq<nat>, ta: seq<Contents>, tb: seq<Contents>, from: nat, low: nat)
    requires Broken(h, objs, ta, from) && low <= from && |ta| <= |tb| && forall k :: from <= k < |ta| ==> tb[k] == ta[k]
    ensures Broken(h, objs, tb, low)
  {
    var k :| from <= k < |ta| && k < |objs| && objs[k] in h && !TableCorr(objs, h[objs[k]], ta[k]);
    assert tb[k] == ta[k];
  }

  // How far a table has got: ks are the keys packed. No more entries than keys
  ghost predicate CountOk(t: LuaTable, m: Contents, ks: set<Value>) {
    ks <= t.entries.Keys && |m| <= |ks|
  }

  ghost predicate Matches(objs: seq<nat>, t: LuaTable, c: Value, w: Value) {
    exists k :: k in t.entries && Corr(objs, k, c) && Corr(objs, t.entries[k], w)
  }

  // The table can no longer become right: an entry is missing already, or one is there
  // that should not be.
  ghost predicate Spoilt(objs: seq<nat>, t: LuaTable, m: Contents, ks: set<Value>) {
    |m| < |ks| || exists c :: c in m && !Matches(objs, t, c, m[c])
  }

  lemma RawSetSize(m: Contents, c: Value, w: Value)
    ensures |RawSet(m, c, w)| <= |m| + 1
    ensures c in m || w == Nil ==> |RawSet(m, c, w)| <= |m|
  {
    if w == Nil {
      assert (m - {c}).Keys == m.Keys - {c};
      if c in m {
        assert m.Keys == (m.Keys - {c}) + {c};
      } else {
        assert m.Keys - {c} == m.Keys;
      }
    } else {
      assert m[c := w].Keys == m.Keys + {c};
      if c in m {
        assert m.Keys + {c} == m.Keys;
      }
    }
  }

  // One more entry
  lemma CountStep(t: LuaTable, m: Contents, ks: set<Value>, k: Value, c: Value, w: Value)
    requires CountOk(t, m, ks) && k in t.entries && k !in ks
    ensures CountOk(t, RawSet(m, c, w), ks + {k})
  {
    RawSetSize(m, c, w);
  }

  lemma SpoiltStays(objs: seq<nat>, t: LuaTable, m: Contents, ks: set<Value>, k: Value, c: Value, w: Value)
    requires CountOk(t, m, ks) && Spoilt(objs, t, m, ks) && k !in ks
    ensures Spoilt(objs, t, RawSet(m, c, w), ks + {k})
  {
    RawSetSize(m, c, w);
    if !(|m| < |ks|) && c !in m && w != Nil {
      var x :| x in m && !Matches(objs, t, x, m[x]);
      assert x in RawSet(m, c, w) && RawSet(m, c, w)[x] == m[x];
    }
  }

  lemma CorrUnique(objs: seq<nat>, k: Value, k2: Value, c: Value)
    requires Corr(objs, k, c) && Corr(objs, k2, c)
    ensures k == k2
  {
  }

  // A wrong value at a right key spoils.
  lemma WrongValueSpoils(objs: seq<nat>, t: LuaTable, m: Contents, ks: set<Value>, k: Value, c: Value, w: Value)
    requires CountOk(t, m, ks) && k in t.entries && k !in ks && Corr(objs, k, c) && !Corr(objs, t.entries[k], w)
    ensures Spoilt(objs, t, RawSet(m, c, w), ks + {k})
  {
    RawSetSize(m, c, w);
    if w != Nil {
      var now := RawSet(m, c, w);
      forall k2 | k2 in t.entries && Corr(objs, k2, c) ensures k2 == k {
        CorrUnique(objs, k, k2, c);
      }
      assert c in now && now[c] == w;
    }
  }

  lemma {:induction false} ImageSize(objs: seq<nat>, ks: set<Value>)
    requires Distinct(objs) && forall k :: k in ks ==> Known(objs, k)
    ensures |set k | k in ks :: Image(objs, k)| == |ks|
    decreases |ks|
  {
    if ks == {} {
      assert (set k | k in ks :: Image(objs, k)) == {};
    } else {
      var x :| x in ks;
      var rest := ks - {x};
      ImageSize(objs, rest);
      forall k | k in rest ensures Image(objs, k) != Image(objs, x) {
        if Image(objs, k) == Image(objs, x) {
          ImageInjective(objs, k, x);
        }
      }
      assert (set k | k in ks :: Image(objs, k)) == (set k | k in rest :: Image(objs, k)) + {Image(objs, x)};
    }
  }

  lemma FilledSize(objs: seq<nat>, t: LuaTable, m: Contents, ks: set<Value>)
    requires Distinct(objs) && Filled(objs, t, m, ks)
    ensures |m| == |ks| && CountOk(t, m, ks)
  {
    ImageSize(objs, ks);
    assert m.Keys == set k | k in ks :: Image(objs, k);
  }

  // A table that is spoilt, or too small, or lacks a key, is not right.

  lemma SpoiltIsWrong(objs: seq<nat>, t: LuaTable, m: Contents)
    requires Distinct(objs) && Spoilt(objs, t, m, t.entries.Keys)
    ensures !TableCorr(objs, t, m)
  {
    if TableCorr(objs, t, m) {
      FilledSize(objs, t, m, t.entries.Keys);
      var c :| c in m && !Matches(objs, t, c, m[c]);
      var k :| k in t.entries.Keys && c == Image(objs, k);
      CorrIsImage(objs, k, c);
      CorrIsImage(objs, t.entries[k], m[c]);
      assert Matches(objs, t, c, m[c]);
    }
  }

  lemma SmallIsWrong(objs: seq<nat>, t: LuaTable, m: Contents, ks: set<Value>, k: Value)
    requires Distinct(objs) && CountOk(t, m, ks) && k in t.entries && k !in ks
    ensures !TableCorr(objs, t, m)
  {
    assert ks < t.entries.Keys;
    assert |ks + {k}| <= |t.entries.Keys| by {
      SubsetSize(ks + {k}, t.entries.Keys);
    }
    if TableCorr(objs, t, m) {
      FilledSize(objs, t, m, t.entries.Keys);
    }
  }

  lemma {:induction false} SubsetSize(a: set<Value>, b: set<Value>)
    requires a <= b
    ensures |a| <= |b|
    decreases |a|
  {
    if a != {} {
      var x :| x in a;
      SubsetSize(a - {x}, b - {x});
    }
  }

  lemma LackingIsWrong(objs: seq<nat>, t: LuaTable, m: Contents, k: Value, star: Value)
    requires Distinct(objs) && k in t.entries && Corr(objs, k, star) && star !in m
    ensures !TableCorr(objs, t, m)
  {
    CorrIsImage(objs, k, star);
  }

  // Out of step with the values, in step with the bytes

  // What is read in place of a key or value that is not an ancestor reference is right.
  ghost predicate ReadAs(objs: seq<nat>, st: Enc, d: Dec, v: Value, w: Value) {
    if v.TableRef? && |st.anc| == MAX_DEPTH && RefAncestor(st, v.id).Some? then
      var i := RefAncestor(st, v.id).value;
      i < |d.anc| && i < d.depth && w == StackAt(d.stack, d.anc[i])
    else Corr(objs, v, w)
  }

  lemma {:induction false} WeakOne(
    h: Heap, objs: seq<nat>, st: Enc, lag: nat, v: Value, f: seq<byte>, m: set<nat>, d: Dec)
    requires HeapOk(h) && st.Valid(h) && ValueOk(h, v) && InStep(st, lag, d, m) && Distinct(objs)
    requires Agrees(PackOne(h, st, v), f, m) && PackOne(h, st, v).objs <= objs
    ensures d.pos <= |f| && |d.anc| == MAX_DEPTH
    ensures UnpackOne(f, d).Ok? ==>
      var (w, d2) := UnpackOne(f, d).value;
      Broken(h, objs, d2.tables, |d.tables|) || (InStep(PackOne(h, st, v), lag, d2, m) && ReadAs(objs, st, d, v, w))
    decreases Unmet(h, st), 1, 0
  {
    hide *;
    StepLengths(st, lag, d, m);
    if v.TableRef? {
      PackOneCases(h, st, v);
      if RefAncestor(st, v.id).Some? {
        WeakAncestor(h, objs, st, lag, v.id, f, m, d);
      } else if IndexOf(st.objs, v.id).Some? {
        var k := IndexOf(st.objs, v.id).value;
        SimRefObject(h, st, k, f, m, lag, d);
        FollowsStep(h, d, RefObject(h, st, k), lag, d.(pos := |RefObject(h, st, k).out|), m, NO_TABLE);
        IndexedIs(st.objs, v.id);
        CorrGrows(RefObject(h, st, k).objs, objs, v, TableRef(k));
        ReadRight(objs, st, d, v, TableRef(k));
      } else {
        EnterObjs(st, v.id);
        PackedTable(h, st, v.id);
        WeakTable(h, objs, st, lag, v.id, f, m, d);
        if UnpackOne(f, d).Ok? {
          ReadNewTable(objs, st, d, v.id, m, lag);
        }
      }
    } else {
      SimOneScalar(h, st, v, f, m, lag, d);
      FollowsStep(h, d, PackOne(h, st, v), lag, d.(pos := |PackOne(h, st, v).out|), m, NO_TABLE);
      ScalarCorr(objs, v);
      ReadRight(objs, st, d, v, v);
    }
  }

  lemma EnterObjs(st: Enc, o: nat)
    ensures Enter(st, o).objs == st.objs
  {
  }

  lemma IndexedIs(objs: seq<nat>, o: nat)
    requires IndexOf(objs, o).Some?
    ensures IndexOf(objs, o).value < |objs| && objs[IndexOf(objs, o).value] == o
  {
  }

  lemma ReadRight(objs: seq<nat>, st: Enc, d: Dec, v: Value, w: Value)
    requires Corr(objs, v, w) && (v.TableRef? ==> |st.anc| == MAX_DEPTH && RefAncestor(st, v.id).None?)
    ensures ReadAs(objs, st, d, v, w)
  {
  }

  lemma ReadNewTable(objs: seq<nat>, st: Enc, d: Dec, o: nat, m: set<nat>, lag: nat)
    requires InStep(st, lag, d, m) && |st.anc| == MAX_DEPTH && RefAncestor(st, o).None? && st.objs + [o] <= objs
    ensures ReadAs(objs, st, d, TableRef(o), TableRef(|d.tables|))
  {
    assert objs[|st.objs|] == o;
  }

  lemma PackedTable(h: Heap, st: Enc, o: nat)
    requires HeapOk(h) && st.Valid(h) && o in h && o !in st.objs && Enter(st, o).Valid(h) && Enter(st, o).objs == st.objs
    ensures st.objs + [o] <= PackTable(h, Enter(st, o), o).objs
  {
    hide PackSeq, Distinct;
    var st0 := Enter(st, o);
    ItemsOk(h, h[o]);
    OpeningMeets(h, st0, o);
    var st1 := OpenTable(h, st0, o, h[o].objlen);
    UnmetShrinks(h, st1, PackSeq(h, st1, ArrayItems(h[o])));
    var st2 := PackSeq(h, st1, ArrayItems(h[o]));
    UnmetShrinks(h, st2, PackSeq(h, st2, ItemsOf(h[o])));
  }

  lemma WeakAncestor(h: Heap, objs: seq<nat>, st: Enc, lag: nat, o: nat, f: seq<byte>, m: set<nat>, d: Dec)
    requires st.Valid(h) && InStep(st, lag, d, m) && |st.anc| == MAX_DEPTH && RefAncestor(st, o).Some?
    requires Agrees(Emit(st, [Tag(TYPE_REF, RefAncestor(st, o).value)]), f, m)
    ensures d.pos <= |f| && |d.anc| == MAX_DEPTH
    ensures var i := RefAncestor(st, o).value;
      UnpackOne(f, d) == if i < d.depth then Ok((StackAt(d.stack, d.anc[i]), d.(pos := d.pos + 1))) else Err(InvalidRef)
    ensures InStep(Emit(st, [Tag(TYPE_REF, RefAncestor(st, o).value)]), lag, d.(pos := d.pos + 1), m)
    ensures UnpackOne(f, d).Ok? ==> ReadAs(objs, st, d, TableRef(o), UnpackOne(f, d).value.0)
  {
    hide UnpackOne, Agrees, Distinct;
    UnpackAncestor(st, RefAncestor(st, o).value, f, m, lag, d);
  }

  // A table read to its end gives the table its place; one that ended early or was spoilt
  // is broken.
  lemma {:induction false} WeakTable(
    h: Heap, objs: seq<nat>, st: Enc, lag: nat, o: nat, f: seq<byte>, m: set<nat>, d: Dec)
    requires HeapOk(h) && st.Valid(h) && InStep(st, lag, d, m) && o in h && o !in st.objs && Distinct(objs)
    requires Enter(st, o).Valid(h) && Enter(st, o).objs == st.objs
    requires Agrees(PackTable(h, Enter(st, o), o).(depth := st.depth), f, m)
    requires PackTable(h, Enter(st, o), o).objs <= objs
    ensures d.pos <= |f| && |d.anc| == MAX_DEPTH
    ensures UnpackOne(f, d).Ok? ==>
      var (w, d2) := UnpackOne(f, d).value;
      && w == TableRef(|d.tables|)
      && (Broken(h, objs, d2.tables, |d.tables|) || InStep(PackTable(h, Enter(st, o), o).(depth := st.depth), lag, d2, m))
    decreases Unmet(h, st), 0, 0
  {
    hide *;
    PackTableSteps(h, st, o, f, m);
    StepLengths(st, lag, d, m);
    var t, st0 := h[o], Enter(st, o);
    var st1 := OpenTable(h, st0, o, t.objlen);
    var st2 := PackSeq(h, st1, ArrayItems(t));
    SimHeader(h, st0, o, t.objlen, f, m, d);
    CreateInStep(h, st, o, t.objlen, lag, d, m);
    MarkTypes(|st.objs|, m);
    var id, ty := |d.tables|, MarkType(|st.objs|, m);
    var d1 := Create(d.(pos := |st1.out|), ty).(depth := d.depth + 1);
    UnpackTableFails(f, d, ty, t.objlen, |st1.out|);
    if UnpackOne(f, d).Ok? {
      EmptyCount(t);
      assert ArrayItems(t)[0..] == ArrayItems(t);
      WeakArray(h, objs, st1, lag, t, 1, f, m, d1, id);
      var d2 := UnpackArray(f, d1, id, 1, t.objlen).value;
      ArrayAdvances(f, d1, id, 1, t.objlen);
      var d2' := d2.(depth := d.depth);
      var d3 := UnpackHash(f, d2', id).value;
      HashAdvances(f, d2', id);
      UnpackTableSteps(f, d, ty, t.objlen, |st1.out|, d2, d3);
      if Broken(h, objs, d2.tables, |d1.tables|) {
        BrokenStays(h, objs, d2.tables, d3.tables, |d1.tables|, |d.tables|);
      } else {
        assert d2'.(depth := d2'.depth + 1) == d2;
        AllKeys(t);
        DisjointKeys(t);
        OrderOnce(h, t);
        PackedTable(h, st, o);
        ThisTable(h, objs, st, o);
        EmitObjs(PackSeq(h, st2, ItemsOf(t)), EncScalar(Nil));
        WeakHash(h, objs, st2, lag, t, t.order, f, m, d2', id, ArrayKeys(t, t.objlen), Nil);
        if !Broken(h, objs, d3.tables, id) {
          WeakTableEnd(h, st, PackTable(h, Enter(st, o), o), lag, d3, d.stack, m);
        }
      }
    }
  }

  lemma EmitObjs(st: Enc, bytes: seq<byte>)
    ensures Emit(st, bytes).objs == st.objs
  {
  }

  lemma OrderOnce(h: Heap, t: LuaTable)
    requires TableOk(h, t)
    ensures Distinct(t.order)
  {
  }

  lemma ThisTable(h: Heap, objs: seq<nat>, st: Enc, o: nat)
    requires st.objs + [o] <= objs
    ensures |st.objs| < |objs| && objs[|st.objs|] == o
  {
    assert (st.objs + [o])[|st.objs|] == o;
  }

  lemma EmptyCount(t: LuaTable)
    ensures CountOk(t, map[], ArrayKeys(t, 0))
  {
    assert ArrayKeys(t, 0) == {};
  }

  // The keys of the two parts, each once
  lemma DisjointKeys(t: LuaTable)
    requires forall k :: k in t.order <==> k in t.entries
    ensures ArrayKeys(t, t.objlen) * HashKeys(t.order, t.objlen) == {}
  {
  }

  lemma WeakTableEnd(h: Heap, st: Enc, r: Enc, lag: nat, d3: Dec, stack: seq<Value>, m: set<nat>)
    requires InStep(r, lag, d3.(depth := d3.depth + 1), m) && d3.depth + lag == st.depth
    ensures InStep(r.(depth := st.depth), lag, d3.(stack := stack), m)
  {
  }

  lemma HashAdvances(f: seq<byte>, d: Dec, id: nat)
    requires d.pos <= |f| && |d.anc| == MAX_DEPTH && id < |d.tables| && UnpackHash(f, d, id).Ok?
    ensures var r := UnpackHash(f, d, id).value;
      && r.stack == d.stack && r.depth == d.depth && |r.anc| == |d.anc| && |r.tables| >= |d.tables|
      && (forall k :: 0 <= k < |d.tables| && k != id ==> r.tables[k] == d.tables[k])
      && forall j :: 0 <= j < d.depth && j < |d.anc| ==> r.anc[j] == d.anc[j]
  {
    hide UnpackHash;
  }

  // A table tag fails if its parts do.
  lemma UnpackTableFails(f: seq<byte>, d: Dec, t: int, n: int, p: nat)
    requires |d.anc| == MAX_DEPTH && d.pos < |f| && p <= |f|
    requires f[d.pos] % 8 == t && (t == TYPE_TABLE || t == TYPE_TABLE_MARK)
    requires TableSize(f, d.pos + 1, f[d.pos] / 8) == Ok((n, p))
    ensures var d1 := Create(d.(pos := p), t).(depth := d.depth + 1);
      UnpackOne(f, d).Ok? ==>
        && UnpackArray(f, d1, |d.tables|, 1, n).Ok?
        && var d2 := UnpackArray(f, d1, |d.tables|, 1, n).value;
           |d2.anc| == MAX_DEPTH && d2.pos <= |f| && |d.tables| < |d2.tables| && UnpackHash(f, d2.(depth := d.depth), |d.tables|).Ok?
  {
    hide UnpackArray, UnpackHash, TableSize;
    var dp, cookie := d.(pos := d.pos + 1), f[d.pos] / 8;
    assert dp.(pos := p) == d.(pos := p);
    assert UnpackOne(f, d) == UnpackTable(f, dp, cookie, t);
  }

  lemma {:induction false} WeakArray(
    h: Heap, objs: seq<nat>, st: Enc, lag: nat, t: LuaTable, i: nat, f: seq<byte>, m: set<nat>, d: Dec, id: nat)
    requires HeapOk(h) && st.Valid(h) && InStep(st, lag, d, m) && TableOk(h, t) && Distinct(objs)
    requires 0 < i <= t.objlen + 1 && id < |d.tables|
    requires ValuesOk(h, ArrayItems(t)[i - 1..])
    requires CountOk(t, d.tables[id], ArrayKeys(t, i - 1))
    requires Agrees(PackSeq(h, st, ArrayItems(t)[i - 1..]), f, m) && PackSeq(h, st, ArrayItems(t)[i - 1..]).objs <= objs
    ensures d.pos <= |f| && |d.anc| == MAX_DEPTH
    ensures UnpackArray(f, d, id, i, t.objlen).Ok? ==>
      var d2 := UnpackArray(f, d, id, i, t.objlen).value;
      || Broken(h, objs, d2.tables, |d.tables|)
      || (&& InStep(PackSeq(h, st, ArrayItems(t)[i - 1..]), lag, d2, m) && id < |d2.tables|
          && CountOk(t, d2.tables[id], ArrayKeys(t, t.objlen))
          && (Spoilt(objs, t, d.tables[id], ArrayKeys(t, i - 1)) ==> Spoilt(objs, t, d2.tables[id], ArrayKeys(t, t.objlen))))
    decreases Unmet(h, st), 2, t.objlen + 1 - i
  {
    hide *;
    TableSizeOk(h, t);
    var vs := ArrayItems(t)[i - 1..];
    StepLengths(st, lag, d, m);
    PackSeqExtends(h, st, vs, f, m);
    if i <= t.objlen {
      PackSeqStep(h, st, vs, f, m);
      assert vs[1..] == ArrayItems(t)[i..];
      var st1 := PackOne(h, st, vs[0]);
      WeakOne(h, objs, st, lag, vs[0], f, m, d);
      UnpackArrayFails(f, d, id, i, t.objlen);
      if UnpackArray(f, d, id, i, t.objlen).Ok? {
        var (w, d1) := UnpackOne(f, d).value;
        UnpackArrayStep(f, d, id, i, t.objlen);
        var d1' := Assign(d1, id, Number(IntegerToDouble(i)), w);
        OneKeepsTables(f, d, id);
        AssignOne(d1, id, Number(IntegerToDouble(i)), w);
        if Broken(h, objs, d1.tables, |d.tables|) {
          ArrayKeepsTables(f, d1', id, i + 1, t.objlen);
          BrokenStays(h, objs, d1.tables, UnpackArray(f, d1', id, i + 1, t.objlen).value.tables, |d.tables|, |d.tables|);
        } else {
          ItemAt(t, i);
          ArrayCount(objs, h, t, d.tables[id], i, w, st, d);
          AssignInStep(st1, lag, d1, m, id, Number(IntegerToDouble(i)), w);
          WeakArray(h, objs, st1, lag, t, i + 1, f, m, d1', id);
          BrokenFrom(h, objs, UnpackArray(f, d1', id, i + 1, t.objlen).value.tables, |d1'.tables|, |d.tables|);
        }
      }
    } else {
      SimArrayEnd(h, st, lag, t, i, f, m, d, id);
      NothingLeft(h, st, t, i);
    }
  }

  lemma NothingLeft(h: Heap, st: Enc, t: LuaTable, i: nat)
    requires HeapOk(h) && st.Valid(h) && t.objlen < INT_LIMIT && i == t.objlen + 1
    ensures ArrayItems(t)[i - 1..] == [] && PackSeq(h, st, []) == st
  {
  }

  lemma ItemAt(t: LuaTable, i: nat)
    requires t.objlen < INT_LIMIT && 0 < i <= t.objlen
    ensures ArrayItems(t)[i - 1..][0] == RawGetI(t, i)
  {
  }

  lemma BrokenFrom(h: Heap, objs: seq<nat>, tables: seq<Contents>, from: nat, low: nat)
    requires low <= from
    ensures Broken(h, objs, tables, from) ==> Broken(h, objs, tables, low)
  {
  }

  lemma OneKeepsTables(f: seq<byte>, d: Dec, id: nat)
    requires d.pos <= |f| && |d.anc| == MAX_DEPTH && UnpackOne(f, d).Ok? && id < |d.tables|
    ensures var r := UnpackOne(f, d).value.1;
      && |r.tables| >= |d.tables| && r.tables[id] == d.tables[id] && r.depth == d.depth && r.stack == d.stack
      && |r.anc| == |d.anc| && r.pos <= |f| && forall k :: 0 <= k < |d.tables| ==> r.tables[k] == d.tables[k]
  {
    hide UnpackOne;
  }

  lemma ArrayKeepsTables(f: seq<byte>, d: Dec, id: nat, i: nat, n: int)
    requires d.pos <= |f| && |d.anc| == MAX_DEPTH && id < |d.tables| && UnpackArray(f, d, id, i, n).Ok?
    ensures var r := UnpackArray(f, d, id, i, n).value;
      |r.tables| >= |d.tables| && forall k :: 0 <= k < |d.tables| && k != id ==> r.tables[k] == d.tables[k]
  {
    hide UnpackArray;
  }

  lemma AssignOne(d: Dec, id: nat, k: Value, v: Value)
    requires id < |d.tables|
    ensures var r := Assign(d, id, k, v);
      && r.depth == d.depth && r.anc == d.anc && r.stack == d.stack && |r.tables| == |d.tables| && r.pos == d.pos
      && r.tables[id] == RawSet(d.tables[id], k, v) && forall j :: 0 <= j < |d.tables| && j != id ==> r.tables[j] == d.tables[j]
  {
  }

  lemma AssignInStep(st: Enc, lag: nat, d: Dec, m: set<nat>, id: nat, k: Value, v: Value)
    requires InStep(st, lag, d, m) && id < |d.tables|
    ensures InStep(st, lag, Assign(d, id, k, v), m)
  {
  }

  lemma UnpackArrayFails(f: seq<byte>, d: Dec, id: nat, i: nat, n: int)
    requires d.pos <= |f| && |d.anc| == MAX_DEPTH && id < |d.tables| && i <= n
    ensures UnpackArray(f, d, id, i, n).Ok? ==> UnpackOne(f, d).Ok?
  {
    hide UnpackOne;
  }

  // One array element more, right or wrong
  lemma ArrayCount(objs: seq<nat>, h: Heap, t: LuaTable, m: Contents, i: nat, w: Value, st: Enc, d: Dec)
    requires TableOk(h, t) && 0 < i <= t.objlen && t.objlen < INT_LIMIT && CountOk(t, m, ArrayKeys(t, i - 1))
    requires ReadAs(objs, st, d, RawGetI(t, i), w)
    ensures var m2 := RawSet(m, Number(IntegerToDouble(i)), w);
      && CountOk(t, m2, ArrayKeys(t, i))
      && (Spoilt(objs, t, m, ArrayKeys(t, i - 1)) ==> Spoilt(objs, t, m2, ArrayKeys(t, i)))
  {
    hide InArray, Spoilt, CountOk, Matches;
    NextArrayKey(t, i);
    var k := IndexKey(i);
    if k in t.entries {
      CountStep(t, m, ArrayKeys(t, i - 1), k, k, w);
      if Spoilt(objs, t, m, ArrayKeys(t, i - 1)) {
        SpoiltStays(objs, t, m, ArrayKeys(t, i - 1), k, k, w);
      }
    } else {
      assert ArrayKeys(t, i) == ArrayKeys(t, i - 1);
      RemoveNothing(objs, t, m, ArrayKeys(t, i), k);
    }
  }

  // A hole stores nil, which can only take away.
  lemma RemoveNothing(objs: seq<nat>, t: LuaTable, m: Contents, ks: set<Value>, k: Value)
    requires CountOk(t, m, ks)
    ensures CountOk(t, m - {k}, ks) && (Spoilt(objs, t, m, ks) ==> Spoilt(objs, t, m - {k}, ks))
  {
    RawSetSize(m, k, Nil);
    if k in m {
      assert |m - {k}| < |m| by {
        assert (m - {k}).Keys + {k} == m.Keys;
      }
    } else {
      assert m - {k} == m;
    }
  }

  // Reading key k cannot give star.
  ghost predicate KeyApart(st: Enc, depth: nat, anc: seq<nat>, stack: seq<Value>, objs: seq<nat>, k: Value, star: Value) {
    if k.TableRef? && |st.anc| == MAX_DEPTH && RefAncestor(st, k.id).Some? then
      var i := RefAncestor(st, k.id).value;
      i < depth && i < |anc| ==> StackAt(stack, anc[i]) != star
    else !Corr(objs, k, star)
  }

  ghost predicate Apart(
    st: Enc, depth: nat, anc: seq<nat>, stack: seq<Value>, objs: seq<nat>, order: seq<Value>, n: nat, star: Value)
  {
    forall k :: k in order && !InArray(k, n) ==> KeyApart(st, depth, anc, stack, objs, k, star)
  }

  // A key of t is to be decoded as star, and no key still to be read will be.
  ghost predicate Lacking(st: Enc, d: Dec, objs: seq<nat>, t: LuaTable, m: Contents, order: seq<Value>, star: Value) {
    && star !in m && Apart(st, d.depth, d.anc, d.stack, objs, order, t.objlen, star)
    && exists k :: k in t.entries && Corr(objs, k, star)
  }

  lemma ReadApart(objs: seq<nat>, st: Enc, d: Dec, k: Value, c: Value, star: Value)
    requires ReadAs(objs, st, d, k, c) && KeyApart(st, d.depth, d.anc, d.stack, objs, k, star)
    ensures c != star
  {
  }

  lemma {:induction false} FindSame(a: seq<nat>, b: seq<nat>, o: nat, n: nat)
    requires n <= |a| && n <= |b| && forall i :: 0 <= i < n ==> a[i] == b[i]
    ensures FindAncestor(a, o, n) == FindAncestor(b, o, n)
    decreases n
  {
    if n > 0 && a[n - 1] != o {
      FindSame(a, b, o, n - 1);
    }
  }

  lemma LackingStays(
    st: Enc, d: Dec, objs: seq<nat>, t: LuaTable, m: Contents, order: seq<Value>, star: Value, st2: Enc, d3: Dec, c: Value, w: Value)
    requires Lacking(st, d, objs, t, m, order, star) && order != [] && c != star && Extends(st, st2) && |st2.anc| == |st.anc|
    requires d3.depth == d.depth && d3.stack == d.stack && |d3.anc| == |d.anc|
    requires forall i :: 0 <= i < d.depth && i < |d.anc| ==> d3.anc[i] == d.anc[i]
    ensures Lacking(st2, d3, objs, t, RawSet(m, c, w), order[1..], star)
  {
    forall k | k in order[1..] && !InArray(k, t.objlen)
      ensures KeyApart(st2, d3.depth, d3.anc, d3.stack, objs, k, star)
    {
      assert k in order && KeyApart(st, d.depth, d.anc, d.stack, objs, k, star);
      if k.TableRef? && |st.anc| == MAX_DEPTH && st.depth < MAX_DEPTH {
        FindSame(st.anc, st2.anc, k.id, st.depth);
      }
    }
  }

  lemma LackingSkips(st: Enc, d: Dec, objs: seq<nat>, t: LuaTable, m: Contents, order: seq<Value>, star: Value)
    requires Lacking(st, d, objs, t, m, order, star) && order != []
    ensures Lacking(st, d, objs, t, m, order[1..], star)
  {
  }

  lemma NextKeys(t: LuaTable, order: seq<Value>, ks: set<Value>)
    requires order != [] && !InArray(order[0], t.objlen) && Distinct(order)
    requires ks * HashKeys(order, t.objlen) == {} && ks + HashKeys(order, t.objlen) == t.entries.Keys
    ensures order[0] !in ks && Distinct(order[1..])
    ensures (ks + {order[0]}) * HashKeys(order[1..], t.objlen) == {}
    ensures ks + {order[0]} + HashKeys(order[1..], t.objlen) == t.entries.Keys
  {
    assert order[0] in HashKeys(order, t.objlen);
    forall x | x in ks ensures x !in HashKeys(order, t.objlen) {
      assert x !in ks * HashKeys(order, t.objlen);
    }
  }

  lemma DistinctTail(order: seq<Value>)
    requires Distinct(order) && order != []
    ensures Distinct(order[1..])
  {
  }

  lemma {:induction false} WeakHash(
    h: Heap, objs: seq<nat>, st: Enc, lag: nat, t: LuaTable, order: seq<Value>, f: seq<byte>, m: set<nat>, d: Dec, id: nat,
    ks: set<Value>, star: Value)
    requires HeapOk(h) && st.Valid(h) && TableOk(h, t) && Distinct(objs)
    requires InStep(st, lag, d.(depth := d.depth + 1), m) && id < |d.tables|
    requires forall k :: k in order ==> k in t.entries
    requires Distinct(order) && ks * HashKeys(order, t.objlen) == {} && ks + HashKeys(order, t.objlen) == t.entries.Keys
    requires ValuesOk(h, HashItems(t.entries, t.objlen, order))
    requires CountOk(t, d.tables[id], ks) && id < |objs| && objs[id] in h && h[objs[id]] == t
    requires Agrees(Emit(PackSeq(h, st, HashItems(t.entries, t.objlen, order)), EncScalar(Nil)), f, m)
    requires PackSeq(h, st, HashItems(t.entries, t.objlen, order)).objs <= objs
    ensures d.pos <= |f| && |d.anc| == MAX_DEPTH
    ensures UnpackHash(f, d, id).Ok? ==>
      var d2 := UnpackHash(f, d, id).value;
      || Broken(h, objs, d2.tables, id)
      || (&& InStep(Emit(PackSeq(h, st, HashItems(t.entries, t.objlen, order)), EncScalar(Nil)), lag, d2.(depth := d.depth + 1), m)
          && !Spoilt(objs, t, d.tables[id], ks) && !Lacking(st, d, objs, t, d.tables[id], order, star))
    decreases Unmet(h, st), 2, |order|
  {
    hide *;
    StepLengths(st, lag, d.(depth := d.depth + 1), m);
    if order == [] {
      WeakHashEnd(h, objs, st, lag, t, f, m, d, id, ks, star);
    } else if InArray(order[0], t.objlen) {
      SkippedKey(t, order);
      DistinctTail(order);
      if Lacking(st, d, objs, t, d.tables[id], order, star) {
        LackingSkips(st, d, objs, t, d.tables[id], order, star);
      }
      WeakHash(h, objs, st, lag, t, order[1..], f, m, d, id, ks, star);
    } else {
      WeakEntry(h, objs, st, lag, t, order, f, m, d, id, ks, star);
    }
  }

  // The table ends: if it is spoilt or lacks a key it is broken.
  lemma WeakHashEnd(
    h: Heap, objs: seq<nat>, st: Enc, lag: nat, t: LuaTable, f: seq<byte>, m: set<nat>, d: Dec, id: nat, ks: set<Value>, star: Value)
    requires HeapOk(h) && st.Valid(h) && Distinct(objs) && InStep(st, lag, d.(depth := d.depth + 1), m) && id < |d.tables|
    requires ks + HashKeys([], t.objlen) == t.entries.Keys && id < |objs| && objs[id] in h && h[objs[id]] == t
    requires Agrees(Emit(PackSeq(h, st, HashItems(t.entries, t.objlen, [])), EncScalar(Nil)), f, m)
    ensures d.pos <= |f| && |d.anc| == MAX_DEPTH && UnpackHash(f, d, id).Ok?
    ensures var d2 := UnpackHash(f, d, id).value;
      || Broken(h, objs, d2.tables, id)
      || (&& InStep(Emit(PackSeq(h, st, HashItems(t.entries, t.objlen, [])), EncScalar(Nil)), lag, d2.(depth := d.depth + 1), m)
          && !Spoilt(objs, t, d.tables[id], ks) && !Lacking(st, d, objs, t, d.tables[id], [], star))
  {
    hide UnpackOne, EncScalar, Agrees, Spoilt, Lacking, TableCorr, Distinct;
    NoItems(h, st, t);
    SimScalar(h, st, Nil, f, m, d);
    assert ks == t.entries.Keys;
    var now := d.tables[id];
    if Spoilt(objs, t, now, ks) {
      SpoiltIsWrong(objs, t, now);
    } else if Lacking(st, d, objs, t, now, [], star) {
      LackingEnds(st, d, objs, t, now, [], star);
    }
  }

  lemma LackingEnds(st: Enc, d: Dec, objs: seq<nat>, t: LuaTable, m: Contents, order: seq<Value>, star: Value)
    requires Distinct(objs) && Lacking(st, d, objs, t, m, order, star)
    ensures !TableCorr(objs, t, m)
  {
    var k :| k in t.entries && Corr(objs, k, star);
    LackingIsWrong(objs, t, m, k, star);
  }

  lemma KeyFails(f: seq<byte>, d: Dec, id: nat)
    requires d.pos <= |f| && |d.anc| == MAX_DEPTH && id < |d.tables|
    ensures UnpackHash(f, d, id).Ok? ==> UnpackOne(f, d).Ok?
    ensures UnpackOne(f, d).Ok? && UnpackOne(f, d).value.0 == Nil ==> UnpackHash(f, d, id) == Ok(UnpackOne(f, d).value.1)
    ensures UnpackHash(f, d, id).Ok? && UnpackOne(f, d).value.0 != Nil ==>
      var (c, d1) := UnpackOne(f, d).value; d1.pos <= |f| && |d1.anc| == MAX_DEPTH && UnpackOne(f, AtValue(d1, c)).Ok?
  {
    hide UnpackOne;
  }

  lemma HashKeepsTables(f: seq<byte>, d: Dec, id: nat, low: nat)
    requires d.pos <= |f| && |d.anc| == MAX_DEPTH && id < |d.tables| && UnpackHash(f, d, id).Ok? && id < low
    ensures var r := UnpackHash(f, d, id).value;
      |r.tables| >= |d.tables| && forall k :: low <= k < |d.tables| ==> r.tables[k] == d.tables[k]
  {
    hide UnpackHash;
  }

  lemma {:induction false} WeakEntry(
    h: Heap, objs: seq<nat>, st: Enc, lag: nat, t: LuaTable, order: seq<Value>, f: seq<byte>, m: set<nat>, d: Dec, id: nat,
    ks: set<Value>, star: Value)
    requires HeapOk(h) && st.Valid(h) && TableOk(h, t) && Distinct(objs)
    requires InStep(st, lag, d.(depth := d.depth + 1), m) && id < |d.tables|
    requires forall k :: k in order ==> k in t.entries
    requires order != [] && !InArray(order[0], t.objlen)
    requires Distinct(order) && ks * HashKeys(order, t.objlen) == {} && ks + HashKeys(order, t.objlen) == t.entries.Keys
    requires ValuesOk(h, HashItems(t.entries, t.objlen, order))
    requires CountOk(t, d.tables[id], ks) && id < |objs| && objs[id] in h && h[objs[id]] == t
    requires Agrees(Emit(PackSeq(h, st, HashItems(t.entries, t.objlen, order)), EncScalar(Nil)), f, m)
    requires PackSeq(h, st, HashItems(t.entries, t.objlen, order)).objs <= objs
    ensures d.pos <= |f| && |d.anc| == MAX_DEPTH
    ensures UnpackHash(f, d, id).Ok? ==>
      var d2 := UnpackHash(f, d, id).value;
      || Broken(h, objs, d2.tables, id)
      || (&& InStep(Emit(PackSeq(h, st, HashItems(t.entries, t.objlen, order)), EncScalar(Nil)), lag, d2.(depth := d.depth + 1), m)
          && !Spoilt(objs, t, d.tables[id], ks) && !Lacking(st, d, objs, t, d.tables[id], order, star))
    decreases Unmet(h, st), 2, |order|, 1
  {
    hide *;
    PackEntrySteps(h, st, t, order, f, m);
    var k := order[0];
    var st1 := PackOne(h, st, k);
    KeyInStep(st, lag, d, m);
    PackObjs(h, st, t, order, objs, f, m);
    WeakOne(h, objs, st, lag + 1, k, f, m, d);
    KeyFails(f, d, id);
    if UnpackHash(f, d, id).Ok? {
      var (c, d1) := UnpackOne(f, d).value;
      OneKeepsTables(f, d, id);
      NextKeys(t, order, ks);
      if c == Nil {
        EndsEarly(h, objs, t, d1.tables, id, ks, k);
      } else {
        AtValueIs(d1, c);
        var (w, d2) := UnpackOne(f, AtValue(d1, c)).value;
        OneKeepsTables(f, AtValue(d1, c), id);
        UnpackHashStep(f, d, id, c, d1, w, d2);
        var d3 := Assign(d2.(depth := d.depth, stack := d.stack), id, c, w);
        AssignOne(d2.(depth := d.depth, stack := d.stack), id, c, w);
        HashKeepsTables(f, d3, id, id + 1);
        var d4 := UnpackHash(f, d3, id).value;
        if Broken(h, objs, d1.tables, |d.tables|) {
          BrokenStays(h, objs, d1.tables, d4.tables, |d.tables|, id);
        } else {
          WeakEntryRest(h, objs, st, lag, t, order, f, m, d, id, ks, star);
        }
      }
    }
  }

  lemma AtValueIs(d: Dec, c: Value)
    ensures var r := AtValue(d, c);
      r.tables == d.tables && r.depth == d.depth + 1 && r.stack == d.stack + [c] && r.anc == d.anc && r.pos == d.pos
  {
  }

  lemma EndsEarly(h: Heap, objs: seq<nat>, t: LuaTable, tables: seq<Contents>, id: nat, ks: set<Value>, k: Value)
    requires id < |tables| && CountOk(t, tables[id], ks) && k in t.entries && k !in ks && Distinct(objs)
    requires id < |objs| && objs[id] in h && h[objs[id]] == t
    ensures Broken(h, objs, tables, id)
  {
    SmallIsWrong(objs, t, tables[id], ks, k);
  }

  // All tables packed along an entry are among objs.
  lemma PackObjs(h: Heap, st: Enc, t: LuaTable, order: seq<Value>, objs: seq<nat>, f: seq<byte>, m: set<nat>)
    requires HeapOk(h) && st.Valid(h) && TableOk(h, t)
    requires forall k :: k in order ==> k in t.entries
    requires order != [] && !InArray(order[0], t.objlen)
    requires ValuesOk(h, HashItems(t.entries, t.objlen, order))
    requires Agrees(Emit(PackSeq(h, st, HashItems(t.entries, t.objlen, order)), EncScalar(Nil)), f, m)
    requires PackSeq(h, st, HashItems(t.entries, t.objlen, order)).objs <= objs
    ensures ValueOk(h, order[0]) && ValueOk(h, t.entries[order[0]])
    ensures var st1 := PackOne(h, st, order[0]);
      var st2 := PackOne(h, st1, t.entries[order[0]]);
      && st1.objs <= objs && st2.objs <= objs && ValuesOk(h, HashItems(t.entries, t.objlen, order[1..]))
      && PackSeq(h, st2, HashItems(t.entries, t.objlen, order[1..])).objs <= objs
      && PackSeq(h, st2, HashItems(t.entries, t.objlen, order[1..])) == PackSeq(h, st, HashItems(t.entries, t.objlen, order))
  {
    hide PackOne, PackSeq, Agrees, Extends, Enc.Valid, HeapOk, TableOk, ValuesOk;
    PackEntrySteps(h, st, t, order, f, m);
  }

  // The key is read, to something: its value and the other entries follow.
  lemma {:induction false} WeakEntryRest(
    h: Heap, objs: seq<nat>, st: Enc, lag: nat, t: LuaTable, order: seq<Value>, f: seq<byte>, m: set<nat>, d: Dec, id: nat,
    ks: set<Value>, star: Value)
    requires HeapOk(h) && st.Valid(h) && TableOk(h, t) && Distinct(objs)
    requires InStep(st, lag, d.(depth := d.depth + 1), m) && id < |d.tables|
    requires forall k :: k in order ==> k in t.entries
    requires order != [] && !InArray(order[0], t.objlen)
    requires Distinct(order) && ks * HashKeys(order, t.objlen) == {} && ks + HashKeys(order, t.objlen) == t.entries.Keys
    requires ValuesOk(h, HashItems(t.entries, t.objlen, order))
    requires CountOk(t, d.tables[id], ks) && id < |objs| && objs[id] in h && h[objs[id]] == t
    requires Agrees(Emit(PackSeq(h, st, HashItems(t.entries, t.objlen, order)), EncScalar(Nil)), f, m)
    requires PackSeq(h, st, HashItems(t.entries, t.objlen, order)).objs <= objs
    requires d.pos <= |f| && |d.anc| == MAX_DEPTH && UnpackHash(f, d, id).Ok? && UnpackOne(f, d).Ok? && ValueOk(h, order[0])
    requires var (c, d1) := UnpackOne(f, d).value;
      c != Nil && InStep(PackOne(h, st, order[0]), lag + 1, d1, m) && ReadAs(objs, st, d, order[0], c)
    ensures var d2 := UnpackHash(f, d, id).value;
      || Broken(h, objs, d2.tables, id)
      || (&& InStep(Emit(PackSeq(h, st, HashItems(t.entries, t.objlen, order)), EncScalar(Nil)), lag, d2.(depth := d.depth + 1), m)
          && !Spoilt(objs, t, d.tables[id], ks) && !Lacking(st, d, objs, t, d.tables[id], order, star))
    decreases Unmet(h, st), 2, |order|, 0
  {
    hide *;
    PackEntrySteps(h, st, t, order, f, m);
    PackObjs(h, st, t, order, objs, f, m);
    NextKeys(t, order, ks);
    KeyFails(f, d, id);
    OneKeepsTables(f, d, id);
    OneAdvances(f, d);
    var k, v := order[0], t.entries[order[0]];
    var (c, d1) := UnpackOne(f, d).value;
    var st1 := PackOne(h, st, k);
    var st2 := PackOne(h, st1, v);
    AtValueIs(d1, c);
    ValueInStep(st1, lag, d1, m, c);
    WeakOne(h, objs, st1, lag, v, f, m, AtValue(d1, c));
    var (w, d2) := UnpackOne(f, AtValue(d1, c)).value;
    OneKeepsTables(f, AtValue(d1, c), id);
    OneAdvances(f, AtValue(d1, c));
    UnpackHashStep(f, d, id, c, d1, w, d2);
    var d3 := Assign(d2.(depth := d.depth, stack := d.stack), id, c, w);
    AssignOne(d2.(depth := d.depth, stack := d.stack), id, c, w);
    HashKeepsTables(f, d3, id, id + 1);
    var d4 := UnpackHash(f, d3, id).value;
    if Broken(h, objs, d2.tables, |d1.tables|) {
      BrokenStays(h, objs, d2.tables, d4.tables, |d1.tables|, id);
    } else {
      ExtendsTransitive(st, st1, st2);
      StoreEntry(objs, st, st2, t, order, ks, star, d, d3, id, c, w);
      StoredInStep(st2, lag, d2, m, d.depth, d.stack, id, c, w);
      WeakHash(h, objs, st2, lag, t, order[1..], f, m, d3, id, ks + {k}, star);
    }
  }

  // What holds of the table so far holds after one entry more, right or wrong.
  lemma StoreEntry(
    objs: seq<nat>, st: Enc, st2: Enc, t: LuaTable, order: seq<Value>, ks: set<Value>, star: Value, d: Dec, d3: Dec, id: nat, c: Value,
    w: Value)
    requires order != [] && !InArray(order[0], t.objlen) && order[0] in t.entries && order[0] !in ks
    requires id < |d.tables| && id < |d3.tables| && d3.tables[id] == RawSet(d.tables[id], c, w)
    requires CountOk(t, d.tables[id], ks) && ReadAs(objs, st, d, order[0], c) && Extends(st, st2) && |st2.anc| == |st.anc|
    requires d3.depth == d.depth && d3.stack == d.stack && |d3.anc| == |d.anc|
    requires forall i :: 0 <= i < d.depth && i < |d.anc| ==> d3.anc[i] == d.anc[i]
    ensures CountOk(t, d3.tables[id], ks + {order[0]})
    ensures Spoilt(objs, t, d.tables[id], ks) ==> Spoilt(objs, t, d3.tables[id], ks + {order[0]})
    ensures Lacking(st, d, objs, t, d.tables[id], order, star) ==> Lacking(st2, d3, objs, t, d3.tables[id], order[1..], star)
  {
    hide *;
    CountStep(t, d.tables[id], ks, order[0], c, w);
    if Spoilt(objs, t, d.tables[id], ks) {
      SpoiltStays(objs, t, d.tables[id], ks, order[0], c, w);
    }
    if Lacking(st, d, objs, t, d.tables[id], order, star) {
      LackingHere(st, d, objs, t, d.tables[id], order, star);
      ReadApart(objs, st, d, order[0], c, star);
      LackingStays(st, d, objs, t, d.tables[id], order, star, st2, d3, c, w);
    }
  }

  lemma LackingHere(st: Enc, d: Dec, objs: seq<nat>, t: LuaTable, m: Contents, order: seq<Value>, star: Value)
    requires Lacking(st, d, objs, t, m, order, star) && order != [] && !InArray(order[0], t.objlen)
    ensures KeyApart(st, d.depth, d.anc, d.stack, objs, order[0], star)
  {
  }

  lemma StoredInStep(st: Enc, lag: nat, d2: Dec, m: set<nat>, depth: nat, stack: seq<Value>, id: nat, c: Value, w: Value)
    requires InStep(st, lag, d2, m) && d2.depth == depth + 1 && id < |d2.tables|
    ensures InStep(st, lag, Assign(d2.(depth := depth, stack := stack), id, c, w).(depth := depth + 1), m)
  {
  }

  // The first reference that goes astray

  // What is read in its place is not what was packed.
  lemma AstrayRead(
    h: Heap, objs: seq<nat>, st: Enc, a: Drift, o: nat, f: seq<byte>, m: set<nat>, d: Dec, places: seq<nat>)
    requires st.Valid(h) && InStep(st, a.lag, d, m) && Slots(st, a, d.depth, d.anc, d.stack, places) && Distinct(objs)
    requires RefAncestor(st, o).Some? && !Lands(st, a, RefAncestor(st, o).value) && st.objs <= objs
    requires Agrees(Emit(st, [Tag(TYPE_REF, RefAncestor(st, o).value)]), f, m)
    ensures d.pos <= |f| && |d.anc| == MAX_DEPTH
    ensures UnpackOne(f, d).Ok? ==>
      var (w, d2) := UnpackOne(f, d).value;
      && RefAncestor(st, o).value < d.depth && w == StackAt(d.stack, d.anc[RefAncestor(st, o).value])
      && !Corr(objs, TableRef(o), w) && InStep(Emit(st, [Tag(TYPE_REF, RefAncestor(st, o).value)]), a.lag, d2, m)
      && d2 == d.(pos := d.pos + 1)
  {
    hide UnpackOne, Agrees, Distinct;
    var i := RefAncestor(st, o).value;
    UnpackAncestor(st, i, f, m, a.lag, d);
    if i < d.depth && d.anc[i] < |d.stack| {
      var q := d.anc[i];
      NotTheTable(objs, st, d.stack[q], d.stack[places[i]], o);
    }
  }

  lemma NotTheTable(objs: seq<nat>, st: Enc, w: Value, right: Value, o: nat)
    requires st.objs <= objs && Distinct(objs) && Stands(st.objs, right, o) && !Stands(st.objs, w, o)
    ensures !Corr(objs, TableRef(o), w)
  {
    assert objs[right.id] == o;
  }

  lemma {:induction false} DetectOne(
    h: Heap, objs: seq<nat>, st: Enc, a: Drift, v: Value, f: seq<byte>, m: set<nat>, d: Dec, places: seq<nat>)
    requires HeapOk(h) && st.Valid(h) && ValueOk(h, v) && Sane(st, a) && InStep(st, a.lag, d, m) && Distinct(objs)
    requires Slots(st, a, d.depth, d.anc, d.stack, places)
    requires Agrees(PackOne(h, st, v), f, m) && PackOne(h, st, v).objs <= objs
    requires !a.astray && DriftOne(h, st, a, v).astray
    ensures d.pos <= |f| && |d.anc| == MAX_DEPTH
    ensures UnpackOne(f, d).Ok? ==>
      var (w, d2) := UnpackOne(f, d).value;
      || Broken(h, objs, d2.tables, |d.tables|)
      || (&& v.TableRef? && |st.anc| == MAX_DEPTH && RefAncestor(st, v.id).Some? && RefAncestor(st, v.id).value < d.depth
          && !a.clean[RefAncestor(st, v.id).value] && d2 == d.(pos := d.pos + 1)
          && !Corr(objs, v, w) && ReadAs(objs, st, d, v, w) && InStep(PackOne(h, st, v), a.lag, d2, m))
    decreases Unmet(h, st), 1, 0
  {
    hide *;
    StepLengths(st, a.lag, d, m);
    if v.TableRef? {
      PackOneCases(h, st, v);
      DriftOneCases(h, st, a, v);
      if RefAncestor(st, v.id).Some? {
        ObjsUnder(st, v.id, objs);
        AstrayRead(h, objs, st, a, v.id, f, m, d, places);
        WeakAncestor(h, objs, st, a.lag, v.id, f, m, d);
        SlotsDepth(st, a, d.depth, d.anc, d.stack, places);
        NotLands(st, a, v.id, d.depth);
      } else if IndexOf(st.objs, v.id).None? {
        DetectTable(h, objs, st, a, v.id, f, m, d, places);
      }
    } else {
      ScalarDrift(h, st, a, v);
    }
  }

  lemma ObjsUnder(st: Enc, o: nat, objs: seq<nat>)
    requires |st.anc| == MAX_DEPTH && RefAncestor(st, o).Some? && Emit(st, [Tag(TYPE_REF, RefAncestor(st, o).value)]).objs <= objs
    ensures st.objs <= objs
  {
  }

  lemma NotLands(st: Enc, a: Drift, o: nat, depth: nat)
    requires |st.anc| == MAX_DEPTH && RefAncestor(st, o).Some? && !Lands(st, a, RefAncestor(st, o).value)
    requires depth + a.lag == st.depth && |a.clean| == MAX_DEPTH
    ensures RefAncestor(st, o).value < |a.clean|
    ensures RefAncestor(st, o).value < depth ==> !a.clean[RefAncestor(st, o).value]
  {
  }

  lemma ScalarDrift(h: Heap, st: Enc, a: Drift, v: Value)
    requires HeapOk(h) && st.Valid(h) && ValueOk(h, v) && Sane(st, a) && !v.TableRef?
    ensures DriftOne(h, st, a, v) == a
  {
  }

  // A table in which a reference goes astray ends up broken, or one in it does.
  lemma {:induction false} DetectTable(
    h: Heap, objs: seq<nat>, st: Enc, a: Drift, o: nat, f: seq<byte>, m: set<nat>, d: Dec, places: seq<nat>)
    requires HeapOk(h) && st.Valid(h) && Sane(st, a) && InStep(st, a.lag, d, m) && o in h && o !in st.objs && Distinct(objs)
    requires Slots(st, a, d.depth, d.anc, d.stack, places)
    requires Enter(st, o).Valid(h) && Sane(Enter(st, o), EnterDrift(st, a)) && a.lag < Enter(st, o).depth
    requires Enter(st, o).objs == st.objs
    requires Agrees(PackTable(h, Enter(st, o), o).(depth := st.depth), f, m)
    requires PackTable(h, Enter(st, o), o).(depth := st.depth).objs <= objs
    requires !a.astray && DriftTable(h, Enter(st, o), EnterDrift(st, a), o).astray
    ensures d.pos <= |f| && |d.anc| == MAX_DEPTH
    ensures UnpackOne(f, d).Ok? ==> Broken(h, objs, UnpackOne(f, d).value.1.tables, |d.tables|)
    decreases Unmet(h, st), 0, 0
  {
    hide *;
    PackTableSteps(h, st, o, f, m);
    DriftTableSteps(h, st, a, o);
    StepLengths(st, a.lag, d, m);
    PackedTable(h, st, o);
    DepthObjs(PackTable(h, Enter(st, o), o), st.depth);
    ThisTable(h, objs, st, o);
    var t, st0, b := h[o], Enter(st, o), EnterDrift(st, a);
    var st1 := OpenTable(h, st0, o, t.objlen);
    var st2 := PackSeq(h, st1, ArrayItems(t));
    EmitObjs(PackSeq(h, st2, ItemsOf(t)), EncScalar(Nil));
    var c := DriftSeq(h, st1, b, ArrayItems(t));
    SimHeader(h, st0, o, t.objlen, f, m, d);
    CreateInStep(h, st, o, t.objlen, a.lag, d, m);
    OpenSlots(st, a, o, st1, d.depth, d.anc, d.stack, places);
    MarkTypes(|st.objs|, m);
    var id, ty := |d.tables|, MarkType(|st.objs|, m);
    var d1 := Create(d.(pos := |st1.out|), ty).(depth := d.depth + 1);
    var places1 := places + [|d.stack|];
    UnpackTableFails(f, d, ty, t.objlen, |st1.out|);
    EmptyTable(st1.objs, t);
    assert ArrayItems(t)[0..] == ArrayItems(t);
    StepLengths(st1, a.lag, d1, m);
    if UnpackOne(f, d).Ok? {
      var d2 := UnpackArray(f, d1, id, 1, t.objlen).value;
      ArrayAdvances(f, d1, id, 1, t.objlen);
      var d2' := d2.(depth := d.depth);
      assert d2'.(depth := d2'.depth + 1) == d2;
      var d3 := UnpackHash(f, d2', id).value;
      HashAdvances(f, d2', id);
      UnpackTableSteps(f, d, ty, t.objlen, |st1.out|, d2, d3);
      AllKeys(t);
      DisjointKeys(t);
      OrderOnce(h, t);
      if c.astray {
        DetectArray(h, objs, st1, b, t, 1, f, m, d1, id, places1);
        if Broken(h, objs, d2.tables, |d1.tables|) {
          BrokenStays(h, objs, d2.tables, d3.tables, |d1.tables|, |d.tables|);
        } else {
          WeakHash(h, objs, st2, a.lag, t, t.order, f, m, d2', id, ArrayKeys(t, t.objlen), Nil);
        }
      } else {
        SimArray(h, st1, b, t, 1, f, m, d1, id, places1);
        FollowsStep(h, d1, st2, a.lag, d2, m, id);
        PackSeqKeeps(h, st1, ArrayItems(t));
        SlotsKept(st1, b, d1.depth, d1.anc, d1.stack, places1, st2, c, d2.anc);
        DetectHash(h, objs, st2, c, t, t.order, f, m, d2', id, places1, ArrayKeys(t, t.objlen));
      }
    }
  }

  lemma DepthObjs(st: Enc, depth: nat)
    ensures st.(depth := depth).objs == st.objs
  {
  }

  lemma {:induction false} DetectArray(
    h: Heap, objs: seq<nat>, st: Enc, a: Drift, t: LuaTable, i: nat, f: seq<byte>, m: set<nat>, d: Dec, id: nat, places: seq<nat>)
    requires HeapOk(h) && st.Valid(h) && Sane(st, a) && InStep(st, a.lag, d, m) && TableOk(h, t) && Distinct(objs)
    requires Slots(st, a, d.depth, d.anc, d.stack, places)
    requires 0 < i <= t.objlen + 1 && id < |d.tables|
    requires ValuesOk(h, ArrayItems(t)[i - 1..])
    requires Filled(st.objs, t, d.tables[id], ArrayKeys(t, i - 1))
    requires Agrees(PackSeq(h, st, ArrayItems(t)[i - 1..]), f, m) && PackSeq(h, st, ArrayItems(t)[i - 1..]).objs <= objs
    requires !a.astray && DriftSeq(h, st, a, ArrayItems(t)[i - 1..]).astray
    ensures d.pos <= |f| && |d.anc| == MAX_DEPTH
    ensures UnpackArray(f, d, id, i, t.objlen).Ok? ==>
      var d2 := UnpackArray(f, d, id, i, t.objlen).value;
      || Broken(h, objs, d2.tables, |d.tables|)
      || (&& InStep(PackSeq(h, st, ArrayItems(t)[i - 1..]), a.lag, d2, m) && id < |d2.tables|
          && CountOk(t, d2.tables[id], ArrayKeys(t, t.objlen)) && Spoilt(objs, t, d2.tables[id], ArrayKeys(t, t.objlen)))
    decreases Unmet(h, st), 2, t.objlen + 1 - i
  {
    hide *;
    TableSizeOk(h, t);
    var vs := ArrayItems(t)[i - 1..];
    StepLengths(st, a.lag, d, m);
    PackSeqExtends(h, st, vs, f, m);
    ArrayItemFails(f, d, id, i, t.objlen);
    if i == t.objlen + 1 {
      NothingAstray(h, st, a, t, i);
    } else if UnpackArray(f, d, id, i, t.objlen).Ok? {
      PackSeqStep(h, st, vs, f, m);
      assert vs[1..] == ArrayItems(t)[i..];
      ItemAt(t, i);
      var st1 := PackOne(h, st, vs[0]);
      DriftSeqStep(h, st, a, vs);
      var b := DriftOne(h, st, a, vs[0]);
      var (w, d1) := UnpackOne(f, d).value;
      OneKeepsTables(f, d, id);
      OneAdvances(f, d);
      UnpackArrayStep(f, d, id, i, t.objlen);
      var k := Number(IntegerToDouble(i));
      var d1' := Assign(d1, id, k, w);
      AssignOne(d1, id, k, w);
      ArrayKeepsTables(f, d1', id, i + 1, t.objlen);
      var d2 := UnpackArray(f, d1', id, i + 1, t.objlen).value;
      if b.astray {
        DetectOne(h, objs, st, a, vs[0], f, m, d, places);
        if Broken(h, objs, d1.tables, |d.tables|) {
          BrokenStays(h, objs, d1.tables, d2.tables, |d.tables|, |d.tables|);
        } else {
          DistinctObjs(h, st);
          FilledSize(st.objs, t, d.tables[id], ArrayKeys(t, i - 1));
          ArrayCount(objs, h, t, d.tables[id], i, w, st, d);
          ArraySpoils(objs, h, t, d.tables[id], i, w);
          AssignInStep(st1, a.lag, d1, m, id, k, w);
          WeakArray(h, objs, st1, a.lag, t, i + 1, f, m, d1', id);
          BrokenFrom(h, objs, d2.tables, |d1'.tables|, |d.tables|);
        }
      } else {
        SimOne(h, st, a, vs[0], f, m, d, places);
        DistinctObjs(h, st1);
        ArrayStep(h, st, d, st1, a.lag, d1, m, t, id, i, w);
        PackOneKeeps(h, st, vs[0]);
        SlotsKept(st, a, d.depth, d.anc, d.stack, places, st1, b, d1.anc);
        SlotsSane(st1, b, d1'.depth, d1'.anc, d1'.stack, places);
        DetectArray(h, objs, st1, b, t, i + 1, f, m, d1', id, places);
        BrokenFrom(h, objs, d2.tables, |d1'.tables|, |d.tables|);
      }
    }
  }

  lemma NothingAstray(h: Heap, st: Enc, a: Drift, t: LuaTable, i: nat)
    requires HeapOk(h) && st.Valid(h) && Sane(st, a) && t.objlen < INT_LIMIT && i == t.objlen + 1
    ensures ValuesOk(h, ArrayItems(t)[i - 1..]) && DriftSeq(h, st, a, ArrayItems(t)[i - 1..]) == a
  {
  }

  lemma ArrayItemFails(f: seq<byte>, d: Dec, id: nat, i: nat, n: int)
    requires d.pos <= |f| && |d.anc| == MAX_DEPTH && id < |d.tables|
    ensures i <= n && UnpackArray(f, d, id, i, n).Ok? ==> UnpackOne(f, d).Ok?
  {
    hide UnpackOne;
  }

  // A table other than the right one in the array part spoils the table.
  lemma ArraySpoils(objs: seq<nat>, h: Heap, t: LuaTable, m: Contents, i: nat, w: Value)
    requires TableOk(h, t) && 0 < i <= t.objlen && t.objlen < INT_LIMIT && CountOk(t, m, ArrayKeys(t, i - 1))
    requires RawGetI(t, i).TableRef? && !Corr(objs, RawGetI(t, i), w)
    ensures Spoilt(objs, t, RawSet(m, Number(IntegerToDouble(i)), w), ArrayKeys(t, i))
  {
    hide InArray, Spoilt, CountOk, Matches, Corr;
    NextArrayKey(t, i);
    var k := IndexKey(i);
    ScalarCorr(objs, k);
    WrongValueSpoils(objs, t, m, ArrayKeys(t, i - 1), k, k, w);
  }

  // Keys that go astray

  lemma {:induction false} Minimum(s: set<nat>) returns (x: nat)
    requires s != {}
    ensures x in s && forall y :: y in s ==> x <= y
    decreases |s|
  {
    x :| x in s;
    assert forall z :: z in s ==> z == x || z in s - {x};
    if s - {x} != {} {
      var y := Minimum(s - {x});
      x := if x < y then x else y;
    }
  }

  // The slots that are in use, not clean, and whose tables are keys still to be packed
  function LostKeys(st: Enc, a: Drift, depth: nat, order: seq<Value>): set<nat>
    requires |st.anc| == |a.clean| == MAX_DEPTH
  {
    set i: nat | i < MAX_DEPTH && i < depth && !a.clean[i] && TableRef(st.anc[i]) in order
  }

  // Of those the lowest is lost for good: what another slot names is above it.
  lemma LowestIsLacking(
    st: Enc, a: Drift, d: Dec, places: seq<nat>, objs: seq<nat>, t: LuaTable, order: seq<Value>, low: nat)
    requires Slots(st, a, d.depth, d.anc, d.stack, places) && st.depth < MAX_DEPTH && Distinct(objs) && st.objs <= objs
    requires low in LostKeys(st, a, d.depth, order) && forall i :: i in LostKeys(st, a, d.depth, order) ==> low <= i
    ensures Apart(st, d.depth, d.anc, d.stack, objs, order, t.objlen, d.stack[places[low]])
  {
    var star := d.stack[places[low]];
    forall k | k in order && !InArray(k, t.objlen)
      ensures KeyApart(st, d.depth, d.anc, d.stack, objs, k, star)
    {
      LowestIsApart(st, a, d, places, objs, order, low, k);
    }
  }

  lemma LowestIsApart(
    st: Enc, a: Drift, d: Dec, places: seq<nat>, objs: seq<nat>, order: seq<Value>, low: nat, k: Value)
    requires Slots(st, a, d.depth, d.anc, d.stack, places) && st.depth < MAX_DEPTH && Distinct(objs) && st.objs <= objs
    requires low in LostKeys(st, a, d.depth, order) && forall i :: i in LostKeys(st, a, d.depth, order) ==> low <= i
    requires k in order
    ensures KeyApart(st, d.depth, d.anc, d.stack, objs, k, d.stack[places[low]])
  {
    hide Distinct;
    var star := d.stack[places[low]];
    assert Stands(st.objs, star, st.anc[low]);
    if k.TableRef? && RefAncestor(st, k.id).Some? {
      var j := RefAncestor(st, k.id).value;
      if j < d.depth {
        if !a.clean[j] {
          assert j in LostKeys(st, a, d.depth, order);
          assert places[low] <= places[j] < d.anc[j];
        }
      }
    }
  }

  // The lowest is not in the table yet.
  lemma NotStored(
    st: Enc, objs: seq<nat>, t: LuaTable, m: Contents, order: seq<Value>, ks: set<Value>, o: nat, star: Value)
    requires Distinct(st.objs) && Filled(st.objs, t, m, ks) && Stands(st.objs, star, o) && TableRef(o) in order
    requires ks * HashKeys(order, t.objlen) == {}
    ensures star !in m
  {
    assert TableRef(o) in HashKeys(order, t.objlen);
    forall k | k in ks ensures star != Image(st.objs, k) {
      assert k !in ks * HashKeys(order, t.objlen);
      CorrIsImage(st.objs, TableRef(o), star);
      if star == Image(st.objs, k) {
        ImageInjective(st.objs, k, TableRef(o));
      }
    }
  }

  // A key reference has gone astray: some key will be missing.
  lemma SomeKeyLacks(
    st: Enc, a: Drift, d: Dec, places: seq<nat>, objs: seq<nat>, t: LuaTable, m: Contents, order: seq<Value>, ks: set<Value>, i: nat)
    returns (star: Value)
    requires Slots(st, a, d.depth, d.anc, d.stack, places) && st.depth < MAX_DEPTH && Distinct(objs) && st.objs <= objs
    requires Distinct(st.objs) && Filled(st.objs, t, m, ks) && ks * HashKeys(order, t.objlen) == {}
    requires forall k :: k in order ==> k in t.entries
    requires i < MAX_DEPTH && i < d.depth && !a.clean[i] && TableRef(st.anc[i]) in order
    ensures Lacking(st, d, objs, t, m, order, star)
  {
    hide Apart, Filled, Distinct;
    var lost := LostKeys(st, a, d.depth, order);
    assert i in lost;
    var low := Minimum(lost);
    star := d.stack[places[low]];
    assert Stands(st.objs, star, st.anc[low]);
    LowestIsLacking(st, a, d, places, objs, t, order, low);
    NotStored(st, objs, t, m, order, ks, st.anc[low], star);
    assert Corr(objs, TableRef(st.anc[low]), star);
  }

  lemma {:induction false} DetectHash(
    h: Heap, objs: seq<nat>, st: Enc, a: Drift, t: LuaTable, order: seq<Value>, f: seq<byte>, m: set<nat>, d: Dec, id: nat,
    places: seq<nat>, ks: set<Value>)
    requires HeapOk(h) && st.Valid(h) && TableOk(h, t) && Sane(st, a) && a.lag < st.depth && Distinct(objs)
    requires InStep(st, a.lag, d.(depth := d.depth + 1), m) && id < |d.tables|
    requires Slots(st, a, d.depth + 1, d.anc, d.stack, places) && Top(a, d.depth + 1, d.stack, places)
    requires forall k :: k in order ==> k in t.entries
    requires Distinct(order) && ks * HashKeys(order, t.objlen) == {} && ks + HashKeys(order, t.objlen) == t.entries.Keys
    requires ValuesOk(h, HashItems(t.entries, t.objlen, order))
    requires Filled(st.objs, t, d.tables[id], ks) && id < |objs| && objs[id] in h && h[objs[id]] == t
    requires Agrees(Emit(PackSeq(h, st, HashItems(t.entries, t.objlen, order)), EncScalar(Nil)), f, m)
    requires PackSeq(h, st, HashItems(t.entries, t.objlen, order)).objs <= objs
    requires !a.astray && DriftHash(h, st, a, t, order).astray
    ensures d.pos <= |f| && |d.anc| == MAX_DEPTH
    ensures UnpackHash(f, d, id).Ok? ==> Broken(h, objs, UnpackHash(f, d, id).value.tables, id)
    decreases Unmet(h, st), 2, |order|
  {
    hide *;
    StepLengths(st, a.lag, d.(depth := d.depth + 1), m);
    if order == [] {
      NoneAstray(h, st, a, t);
    } else if InArray(order[0], t.objlen) {
      SkippedKey(t, order);
      SkippedDrift(h, st, a, t, order);
      DistinctTail(order);
      DetectHash(h, objs, st, a, t, order[1..], f, m, d, id, places, ks);
    } else {
      PackEntrySteps(h, st, t, order, f, m);
      WithinBuffer(PackOne(h, st, order[0]), st, f, m, d);
      if UnpackHash(f, d, id).Ok? {
        KeyFails(f, d, id);
        DriftEntrySteps(h, st, a, t, order);
        if DriftKey(h, st, a, order[0]).astray {
          DetectKey(h, objs, st, a, t, order, f, m, d, id, places, ks);
        } else {
          DetectEntry(h, objs, st, a, t, order, f, m, d, id, places, ks);
        }
      }
    }
  }

  lemma NoneAstray(h: Heap, st: Enc, a: Drift, t: LuaTable)
    requires HeapOk(h) && st.Valid(h) && TableOk(h, t) && Sane(st, a) && a.lag < st.depth
    ensures DriftHash(h, st, a, t, []) == a
  {
  }

  lemma WithinBuffer(r: Enc, st: Enc, f: seq<byte>, m: set<nat>, d: Dec)
    requires Agrees(r, f, m) && Extends(st, r) && d.pos == |st.out|
    ensures d.pos <= |f|
  {
  }

  // The key, or a table in it, is where the first reference goes astray.
  lemma {:induction false} DetectKey(
    h: Heap, objs: seq<nat>, st: Enc, a: Drift, t: LuaTable, order: seq<Value>, f: seq<byte>, m: set<nat>, d: Dec, id: nat,
    places: seq<nat>, ks: set<Value>)
    requires HeapOk(h) && st.Valid(h) && TableOk(h, t) && Sane(st, a) && a.lag < st.depth && Distinct(objs)
    requires InStep(st, a.lag, d.(depth := d.depth + 1), m) && id < |d.tables|
    requires Slots(st, a, d.depth + 1, d.anc, d.stack, places) && Top(a, d.depth + 1, d.stack, places)
    requires forall k :: k in order ==> k in t.entries
    requires order != [] && !InArray(order[0], t.objlen) && ValueOk(h, order[0])
    requires Distinct(order) && ks * HashKeys(order, t.objlen) == {} && ks + HashKeys(order, t.objlen) == t.entries.Keys
    requires ValuesOk(h, HashItems(t.entries, t.objlen, order))
    requires Filled(st.objs, t, d.tables[id], ks) && id < |objs| && objs[id] in h && h[objs[id]] == t
    requires Agrees(Emit(PackSeq(h, st, HashItems(t.entries, t.objlen, order)), EncScalar(Nil)), f, m)
    requires PackSeq(h, st, HashItems(t.entries, t.objlen, order)).objs <= objs
    requires !a.astray && DriftKey(h, st, a, order[0]).astray
    requires d.pos <= |f| && |d.anc| == MAX_DEPTH && UnpackHash(f, d, id).Ok? && UnpackOne(f, d).Ok?
    ensures Broken(h, objs, UnpackHash(f, d, id).value.tables, id)
    decreases Unmet(h, st), 2, |order|, 2
  {
    hide *;
    PackObjs(h, st, t, order, objs, f, m);
    FirstAgrees(h, st, t, order, f, m);
    DriftEntrySteps(h, st, a, t, order);
    KeyInStep(st, a.lag, d, m);
    KeySlots(st, a, d.depth, d.anc, d.stack, places);
    DetectOne(h, objs, st, a.(lag := a.lag + 1), order[0], f, m, d, places);
    if Broken(h, objs, UnpackOne(f, d).value.1.tables, |d.tables|) {
      AfterKey(h, objs, f, d, id);
    } else {
      SlotsDepth(st, a, d.depth + 1, d.anc, d.stack, places);
      AncestorIs(st, order[0].id);
      WrongKey(h, objs, st, a, t, order, f, m, d, id, places, ks);
    }
  }

  lemma FirstAgrees(h: Heap, st: Enc, t: LuaTable, order: seq<Value>, f: seq<byte>, m: set<nat>)
    requires HeapOk(h) && st.Valid(h) && TableOk(h, t) && forall k :: k in order ==> k in t.entries
    requires order != [] && !InArray(order[0], t.objlen) && ValuesOk(h, HashItems(t.entries, t.objlen, order))
    requires Agrees(Emit(PackSeq(h, st, HashItems(t.entries, t.objlen, order)), EncScalar(Nil)), f, m)
    ensures ValueOk(h, order[0]) && Agrees(PackOne(h, st, order[0]), f, m)
  {
    hide *;
    PackEntrySteps(h, st, t, order, f, m);
  }

  // A key reference is read as something else.
  lemma {:induction false} WrongKey(
    h: Heap, objs: seq<nat>, st: Enc, a: Drift, t: LuaTable, order: seq<Value>, f: seq<byte>, m: set<nat>, d: Dec, id: nat,
    places: seq<nat>, ks: set<Value>)
    requires HeapOk(h) && st.Valid(h) && TableOk(h, t) && Sane(st, a) && a.lag < st.depth && Distinct(objs)
    requires InStep(st, a.lag, d.(depth := d.depth + 1), m) && id < |d.tables|
    requires Slots(st, a, d.depth + 1, d.anc, d.stack, places) && Top(a, d.depth + 1, d.stack, places)
    requires forall k :: k in order ==> k in t.entries
    requires order != [] && !InArray(order[0], t.objlen) && ValueOk(h, order[0])
    requires Distinct(order) && ks * HashKeys(order, t.objlen) == {} && ks + HashKeys(order, t.objlen) == t.entries.Keys
    requires ValuesOk(h, HashItems(t.entries, t.objlen, order))
    requires Filled(st.objs, t, d.tables[id], ks) && id < |objs| && objs[id] in h && h[objs[id]] == t
    requires Agrees(Emit(PackSeq(h, st, HashItems(t.entries, t.objlen, order)), EncScalar(Nil)), f, m)
    requires PackSeq(h, st, HashItems(t.entries, t.objlen, order)).objs <= objs
    requires d.pos <= |f| && |d.anc| == MAX_DEPTH && UnpackHash(f, d, id).Ok? && UnpackOne(f, d).Ok?
    requires Slots(st, a.(lag := a.lag + 1), d.depth, d.anc, d.stack, places)
    requires var (c, d1), k := UnpackOne(f, d).value, order[0];
      && k.TableRef? && |st.anc| == |a.clean| == MAX_DEPTH && RefAncestor(st, k.id).Some?
      && RefAncestor(st, k.id).value < d.depth && RefAncestor(st, k.id).value < MAX_DEPTH
      && !a.clean[RefAncestor(st, k.id).value] && d1 == d.(pos := d.pos + 1)
      && ReadAs(objs, st, d, k, c) && InStep(PackOne(h, st, k), a.lag + 1, d1, m)
    ensures Broken(h, objs, UnpackHash(f, d, id).value.tables, id)
    decreases Unmet(h, st), 2, |order|, 1
  {
    hide *;
    NextKeys(t, order, ks);
    KeyFails(f, d, id);
    DistinctObjs(h, st);
    FilledSize(st.objs, t, d.tables[id], ks);
    var k := order[0];
    var (c, d1) := UnpackOne(f, d).value;
    if c == Nil {
      EndsEarly(h, objs, t, d1.tables, id, ks, k);
    } else {
      AncestorIs(st, k.id);
      SeqObjs(h, st, HashItems(t.entries, t.objlen, order), objs);
      var star := SomeKeyLacks(st, a.(lag := a.lag + 1), d, places, objs, t, d.tables[id], order, ks, RefAncestor(st, k.id).value);
      WeakEntryRest(h, objs, st, a.lag, t, order, f, m, d, id, ks, star);
    }
  }

  lemma SeqObjs(h: Heap, st: Enc, vs: seq<Value>, objs: seq<nat>)
    requires HeapOk(h) && st.Valid(h) && ValuesOk(h, vs) && PackSeq(h, st, vs).objs <= objs
    ensures st.objs <= objs
  {
    UnmetShrinks(h, st, PackSeq(h, st, vs));
  }

  lemma PrefixObjs(a: seq<nat>, b: seq<nat>, c: seq<nat>)
    requires a <= b && b <= c
    ensures a <= c
  {
  }

  lemma AncestorIs(st: Enc, o: nat)
    requires |st.anc| == MAX_DEPTH && RefAncestor(st, o).Some?
    ensures RefAncestor(st, o).value < MAX_DEPTH && st.anc[RefAncestor(st, o).value] == o && st.depth < MAX_DEPTH
  {
  }

  // What was broken after the key still is when the table ends.
  lemma AfterKey(h: Heap, objs: seq<nat>, f: seq<byte>, d: Dec, id: nat)
    requires d.pos <= |f| && |d.anc| == MAX_DEPTH && id < |d.tables| && UnpackHash(f, d, id).Ok? && UnpackOne(f, d).Ok?
    requires Broken(h, objs, UnpackOne(f, d).value.1.tables, |d.tables|)
    ensures Broken(h, objs, UnpackHash(f, d, id).value.tables, id)
  {
    hide *;
    KeyFails(f, d, id);
    OneKeepsTables(f, d, id);
    var (c, d1) := UnpackOne(f, d).value;
    if c == Nil {
      BrokenFrom(h, objs, d1.tables, |d.tables|, id);
    } else {
      AtValueIs(d1, c);
      var (w, d2) := UnpackOne(f, AtValue(d1, c)).value;
      OneKeepsTables(f, AtValue(d1, c), id);
      UnpackHashStep(f, d, id, c, d1, w, d2);
      var d3 := Assign(d2.(depth := d.depth, stack := d.stack), id, c, w);
      AssignOne(d2.(depth := d.depth, stack := d.stack), id, c, w);
      HashKeepsTables(f, d3, id, id + 1);
      BrokenStays(h, objs, d1.tables, UnpackHash(f, d3, id).value.tables, |d.tables|, id);
    }
  }

  // The key is fine; its value or a later entry is not.
  lemma {:induction false} DetectEntry(
    h: Heap, objs: seq<nat>, st: Enc, a: Drift, t: LuaTable, order: seq<Value>, f: seq<byte>, m: set<nat>, d: Dec, id: nat,
    places: seq<nat>, ks: set<Value>)
    requires HeapOk(h) && st.Valid(h) && TableOk(h, t) && Sane(st, a) && a.lag < st.depth && Distinct(objs)
    requires InStep(st, a.lag, d.(depth := d.depth + 1), m) && id < |d.tables|
    requires Slots(st, a, d.depth + 1, d.anc, d.stack, places) && Top(a, d.depth + 1, d.stack, places)
    requires forall k :: k in order ==> k in t.entries
    requires order != [] && !InArray(order[0], t.objlen) && ValueOk(h, order[0])
    requires Distinct(order) && ks * HashKeys(order, t.objlen) == {} && ks + HashKeys(order, t.objlen) == t.entries.Keys
    requires ValuesOk(h, HashItems(t.entries, t.objlen, order))
    requires Filled(st.objs, t, d.tables[id], ks) && id < |objs| && objs[id] in h && h[objs[id]] == t
    requires Agrees(Emit(PackSeq(h, st, HashItems(t.entries, t.objlen, order)), EncScalar(Nil)), f, m)
    requires PackSeq(h, st, HashItems(t.entries, t.objlen, order)).objs <= objs
    requires !DriftKey(h, st, a, order[0]).astray && DriftHash(h, st, a, t, order).astray
    requires d.pos <= |f| && |d.anc| == MAX_DEPTH && UnpackHash(f, d, id).Ok? && UnpackOne(f, d).Ok?
    ensures Broken(h, objs, UnpackHash(f, d, id).value.tables, id)
    decreases Unmet(h, st), 2, |order|, 2
  {
    hide *;
    FirstAgrees(h, st, t, order, f, m);
    DriftEntrySteps(h, st, a, t, order);
    NotNil(h, t, order[0]);
    KeyInStep(st, a.lag, d, m);
    KeySlots(st, a, d.depth, d.anc, d.stack, places);
    SimOne(h, st, a.(lag := a.lag + 1), order[0], f, m, d, places);
    KeyRead(h, st, a, order[0], f, m, d, places);
    KeyFails(f, d, id);
    DetectAfterKey(h, objs, st, a, t, order, f, m, d, id, places, ks);
  }

  lemma NotNil(h: Heap, t: LuaTable, k: Value)
    requires TableOk(h, t) && k in t.entries
    ensures k != Nil && t.entries[k] != Nil && ValueOk(h, t.entries[k])
  {
  }

  lemma {:induction false} DetectAfterKey(
    h: Heap, objs: seq<nat>, st: Enc, a: Drift, t: LuaTable, order: seq<Value>, f: seq<byte>, m: set<nat>, d: Dec, id: nat,
    places: seq<nat>, ks: set<Value>)
    requires HeapOk(h) && st.Valid(h) && TableOk(h, t) && Sane(st, a) && a.lag < st.depth && Distinct(objs)
    requires InStep(st, a.lag, d.(depth := d.depth + 1), m) && id < |d.tables|
    requires Slots(st, a, d.depth + 1, d.anc, d.stack, places) && Top(a, d.depth + 1, d.stack, places)
    requires forall k :: k in order ==> k in t.entries
    requires order != [] && !InArray(order[0], t.objlen) && ValueOk(h, order[0])
    requires Distinct(order) && ks * HashKeys(order, t.objlen) == {} && ks + HashKeys(order, t.objlen) == t.entries.Keys
    requires ValuesOk(h, HashItems(t.entries, t.objlen, order))
    requires Filled(st.objs, t, d.tables[id], ks) && id < |objs| && objs[id] in h && h[objs[id]] == t
    requires Agrees(Emit(PackSeq(h, st, HashItems(t.entries, t.objlen, order)), EncScalar(Nil)), f, m)
    requires PackSeq(h, st, HashItems(t.entries, t.objlen, order)).objs <= objs
    requires Sane(PackOne(h, st, order[0]), DriftKey(h, st, a, order[0])) && ValueOk(h, t.entries[order[0]])
    requires !DriftKey(h, st, a, order[0]).astray && DriftHash(h, st, a, t, order).astray
    requires d.pos <= |f| && |d.anc| == MAX_DEPTH && UnpackHash(f, d, id).Ok? && UnpackOne(f, d).Ok?
    requires var (c, d1), b, st1 := UnpackOne(f, d).value, DriftKey(h, st, a, order[0]), PackOne(h, st, order[0]);
      && c != Nil && d1.depth == d.depth && d1.stack == d.stack && d1.pos <= |f| && |d1.anc| == MAX_DEPTH
      && UnpackOne(f, AtValue(d1, c)).Ok?
      && Slots(st1, b, d.depth + 1, d1.anc, d.stack + [c], places) && Top(b, d.depth + 1, d.stack, places)
      && Corr(st1.objs, order[0], c) && Follows(h, d, st1, a.lag + 1, d1, m, NO_TABLE)
    ensures Broken(h, objs, UnpackHash(f, d, id).value.tables, id)
    decreases Unmet(h, st), 2, |order|, 1
  {
    hide *;
    DriftEntrySteps(h, st, a, t, order);
    if DriftOne(h, PackOne(h, st, order[0]), DriftKey(h, st, a, order[0]), t.entries[order[0]]).astray {
      DetectValue(h, objs, st, a, t, order, f, m, d, id, places, ks);
    } else {
      DetectLater(h, objs, st, a, t, order, f, m, d, id, places, ks);
    }
  }

  lemma {:induction false} DetectValue(
    h: Heap, objs: seq<nat>, st: Enc, a: Drift, t: LuaTable, order: seq<Value>, f: seq<byte>, m: set<nat>, d: Dec, id: nat,
    places: seq<nat>, ks: set<Value>)
    requires HeapOk(h) && st.Valid(h) && TableOk(h, t) && Sane(st, a) && a.lag < st.depth && Distinct(objs)
    requires InStep(st, a.lag, d.(depth := d.depth + 1), m) && id < |d.tables|
    requires Slots(st, a, d.depth + 1, d.anc, d.stack, places) && Top(a, d.depth + 1, d.stack, places)
    requires forall k :: k in order ==> k in t.entries
    requires order != [] && !InArray(order[0], t.objlen) && ValueOk(h, order[0])
    requires Distinct(order) && ks * HashKeys(order, t.objlen) == {} && ks + HashKeys(order, t.objlen) == t.entries.Keys
    requires ValuesOk(h, HashItems(t.entries, t.objlen, order))
    requires Filled(st.objs, t, d.tables[id], ks) && id < |objs| && objs[id] in h && h[objs[id]] == t
    requires Agrees(Emit(PackSeq(h, st, HashItems(t.entries, t.objlen, order)), EncScalar(Nil)), f, m)
    requires PackSeq(h, st, HashItems(t.entries, t.objlen, order)).objs <= objs
    requires Sane(PackOne(h, st, order[0]), DriftKey(h, st, a, order[0])) && ValueOk(h, t.entries[order[0]])
    requires !DriftKey(h, st, a, order[0]).astray
    requires DriftOne(h, PackOne(h, st, order[0]), DriftKey(h, st, a, order[0]), t.entries[order[0]]).astray
    requires d.pos <= |f| && |d.anc| == MAX_DEPTH && UnpackHash(f, d, id).Ok? && UnpackOne(f, d).Ok?
    requires var (c, d1), b, st1 := UnpackOne(f, d).value, DriftKey(h, st, a, order[0]), PackOne(h, st, order[0]);
      && c != Nil && d1.depth == d.depth && d1.stack == d.stack && d1.pos <= |f| && |d1.anc| == MAX_DEPTH
      && UnpackOne(f, AtValue(d1, c)).Ok?
      && Slots(st1, b, d.depth + 1, d1.anc, d.stack + [c], places) && Top(b, d.depth + 1, d.stack, places)
      && Corr(st1.objs, order[0], c) && Follows(h, d, st1, a.lag + 1, d1, m, NO_TABLE)
    ensures Broken(h, objs, UnpackHash(f, d, id).value.tables, id)
    decreases Unmet(h, st), 2, |order|, 0
  {
    hide *;
    PackEntrySteps(h, st, t, order, f, m);
    PackObjs(h, st, t, order, objs, f, m);
    DriftEntrySteps(h, st, a, t, order);
    var (c, d1) := UnpackOne(f, d).value;
    var b, st1, v := DriftKey(h, st, a, order[0]), PackOne(h, st, order[0]), t.entries[order[0]];
    FollowsStep(h, d, st1, a.lag + 1, d1, m, NO_TABLE);
    ValueInStep(st1, a.lag, d1, m, c);
    DetectOne(h, objs, st1, b, v, f, m, AtValue(d1, c), places);
    if Broken(h, objs, UnpackOne(f, AtValue(d1, c)).value.1.tables, |d1.tables|) {
      AfterValue(h, objs, f, d, id);
    } else {
      OneKeepsTables(f, d, id);
      CorrGrows(st1.objs, objs, order[0], c);
      WrongValue(h, objs, st, a.lag, t, order, f, m, d, id, ks);
    }
  }

  lemma AfterValue(h: Heap, objs: seq<nat>, f: seq<byte>, d: Dec, id: nat)
    requires d.pos <= |f| && |d.anc| == MAX_DEPTH && id < |d.tables| && UnpackHash(f, d, id).Ok? && UnpackOne(f, d).Ok?
    requires var (c, d1) := UnpackOne(f, d).value;
      && c != Nil && d1.pos <= |f| && |d1.anc| == MAX_DEPTH && d1.stack == d.stack && d1.depth == d.depth
      && UnpackOne(f, AtValue(d1, c)).Ok?
      && Broken(h, objs, UnpackOne(f, AtValue(d1, c)).value.1.tables, |d1.tables|)
    ensures Broken(h, objs, UnpackHash(f, d, id).value.tables, id)
  {
    hide *;
    OneKeepsTables(f, d, id);
    var (c, d1) := UnpackOne(f, d).value;
    AtValueIs(d1, c);
    var (w, d2) := UnpackOne(f, AtValue(d1, c)).value;
    OneKeepsTables(f, AtValue(d1, c), id);
    UnpackHashStep(f, d, id, c, d1, w, d2);
    var d3 := Assign(d2.(depth := d.depth, stack := d.stack), id, c, w);
    AssignOne(d2.(depth := d.depth, stack := d.stack), id, c, w);
    HashKeepsTables(f, d3, id, id + 1);
    BrokenStays(h, objs, d2.tables, UnpackHash(f, d3, id).value.tables, |d1.tables|, id);
  }

  // The entry as it is stored: with a value that spoils the table
  lemma StoreWrong(
    h: Heap, objs: seq<nat>, st: Enc, r: Enc, lag: nat, t: LuaTable, k: Value, f: seq<byte>, m: set<nat>, d: Dec, id: nat, ks: set<Value>)
    requires st.Valid(h) && Distinct(objs) && id < |d.tables| && k in t.entries && k !in ks
    requires Filled(st.objs, t, d.tables[id], ks)
    requires d.pos <= |f| && |d.anc| == MAX_DEPTH && UnpackHash(f, d, id).Ok? && UnpackOne(f, d).Ok?
    requires var (c, d1) := UnpackOne(f, d).value;
      && c != Nil && d1.depth == d.depth && d1.stack == d.stack && d1.pos <= |f| && |d1.anc| == MAX_DEPTH
      && UnpackOne(f, AtValue(d1, c)).Ok? && Corr(objs, k, c)
      && var (w, d2) := UnpackOne(f, AtValue(d1, c)).value;
         !Corr(objs, t.entries[k], w) && d2 == AtValue(d1, c).(pos := AtValue(d1, c).pos + 1) && InStep(r, lag, d2, m)
    ensures var (c, d1) := UnpackOne(f, d).value;
      var (w, d2) := UnpackOne(f, AtValue(d1, c)).value;
      && id < |d2.tables|
      && var d3 := Assign(d2.(depth := d.depth, stack := d.stack), id, c, w);
         && d3.pos <= |f| && |d3.anc| == MAX_DEPTH && id < |d3.tables| && UnpackHash(f, d, id) == UnpackHash(f, d3, id)
         && d3.depth == d.depth && InStep(r, lag, d3.(depth := d3.depth + 1), m)
         && CountOk(t, d3.tables[id], ks + {k}) && Spoilt(objs, t, d3.tables[id], ks + {k})
  {
    hide *;
    OneKeepsTables(f, d, id);
    DistinctObjs(h, st);
    FilledSize(st.objs, t, d.tables[id], ks);
    var (c, d1) := UnpackOne(f, d).value;
    AtValueIs(d1, c);
    var (w, d2) := UnpackOne(f, AtValue(d1, c)).value;
    UnpackHashStep(f, d, id, c, d1, w, d2);
    AssignOne(d2.(depth := d.depth, stack := d.stack), id, c, w);
    CountStep(t, d.tables[id], ks, k, c, w);
    WrongValueSpoils(objs, t, d.tables[id], ks, k, c, w);
    StoredInStep(r, lag, d2, m, d.depth, d.stack, id, c, w);
  }

  // A value reference is read as something else.
  lemma {:induction false} WrongValue(
    h: Heap, objs: seq<nat>, st: Enc, lag: nat, t: LuaTable, order: seq<Value>, f: seq<byte>, m: set<nat>, d: Dec, id: nat,
    ks: set<Value>)
    requires HeapOk(h) && st.Valid(h) && TableOk(h, t) && Distinct(objs) && id < |d.tables|
    requires forall k :: k in order ==> k in t.entries
    requires order != [] && !InArray(order[0], t.objlen) && ValueOk(h, order[0]) && ValueOk(h, t.entries[order[0]])
    requires Distinct(order) && ks * HashKeys(order, t.objlen) == {} && ks + HashKeys(order, t.objlen) == t.entries.Keys
    requires ValuesOk(h, HashItems(t.entries, t.objlen, order))
    requires Filled(st.objs, t, d.tables[id], ks) && id < |objs| && objs[id] in h && h[objs[id]] == t
    requires Agrees(Emit(PackSeq(h, st, HashItems(t.entries, t.objlen, order)), EncScalar(Nil)), f, m)
    requires PackSeq(h, st, HashItems(t.entries, t.objlen, order)).objs <= objs
    requires d.pos <= |f| && |d.anc| == MAX_DEPTH && UnpackHash(f, d, id).Ok? && UnpackOne(f, d).Ok?
    requires var (c, d1) := UnpackOne(f, d).value;
      && c != Nil && d1.depth == d.depth && d1.stack == d.stack && d1.pos <= |f| && |d1.anc| == MAX_DEPTH
      && UnpackOne(f, AtValue(d1, c)).Ok? && Corr(objs, order[0], c)
      && var (w, d2) := UnpackOne(f, AtValue(d1, c)).value;
         && !Corr(objs, t.entries[order[0]], w) && d2 == AtValue(d1, c).(pos := AtValue(d1, c).pos + 1)
         && InStep(PackOne(h, PackOne(h, st, order[0]), t.entries[order[0]]), lag, d2, m)
    ensures Broken(h, objs, UnpackHash(f, d, id).value.tables, id)
    decreases Unmet(h, st), 2, |order|
  {
    hide *;
    PackEntrySteps(h, st, t, order, f, m);
    PackObjs(h, st, t, order, objs, f, m);
    NextKeys(t, order, ks);
    var st2 := PackOne(h, PackOne(h, st, order[0]), t.entries[order[0]]);
    StoreWrong(h, objs, st, st2, lag, t, order[0], f, m, d, id, ks);
    var (c, d1) := UnpackOne(f, d).value;
    AtValueIs(d1, c);
    var (w, d2) := UnpackOne(f, AtValue(d1, c)).value;
    var d3 := Assign(d2.(depth := d.depth, stack := d.stack), id, c, w);
    WeakHash(h, objs, st2, lag, t, order[1..], f, m, d3, id, ks + {order[0]}, Nil);
  }

  lemma {:induction false} DetectLater(
    h: Heap, objs: seq<nat>, st: Enc, a: Drift, t: LuaTable, order: seq<Value>, f: seq<byte>, m: set<nat>, d: Dec, id: nat,
    places: seq<nat>, ks: set<Value>)
    requires HeapOk(h) && st.Valid(h) && TableOk(h, t) && Sane(st, a) && a.lag < st.depth && Distinct(objs)
    requires InStep(st, a.lag, d.(depth := d.depth + 1), m) && id < |d.tables|
    requires Slots(st, a, d.depth + 1, d.anc, d.stack, places) && Top(a, d.depth + 1, d.stack, places)
    requires forall k :: k in order ==> k in t.entries
    requires order != [] && !InArray(order[0], t.objlen) && ValueOk(h, order[0])
    requires Distinct(order) && ks * HashKeys(order, t.objlen) == {} && ks + HashKeys(order, t.objlen) == t.entries.Keys
    requires ValuesOk(h, HashItems(t.entries, t.objlen, order))
    requires Filled(st.objs, t, d.tables[id], ks) && id < |objs| && objs[id] in h && h[objs[id]] == t
    requires Agrees(Emit(PackSeq(h, st, HashItems(t.entries, t.objlen, order)), EncScalar(Nil)), f, m)
    requires PackSeq(h, st, HashItems(t.entries, t.objlen, order)).objs <= objs
    requires Sane(PackOne(h, st, order[0]), DriftKey(h, st, a, order[0])) && ValueOk(h, t.entries[order[0]])
    requires !DriftKey(h, st, a, order[0]).astray && DriftHash(h, st, a, t, order).astray
    requires !DriftOne(h, PackOne(h, st, order[0]), DriftKey(h, st, a, order[0]), t.entries[order[0]]).astray
    requires d.pos <= |f| && |d.anc| == MAX_DEPTH && UnpackHash(f, d, id).Ok? && UnpackOne(f, d).Ok?
    requires var (c, d1), b, st1 := UnpackOne(f, d).value, DriftKey(h, st, a, order[0]), PackOne(h, st, order[0]);
      && c != Nil && d1.depth == d.depth && d1.stack == d.stack && d1.pos <= |f| && |d1.anc| == MAX_DEPTH
      && UnpackOne(f, AtValue(d1, c)).Ok?
      && Slots(st1, b, d.depth + 1, d1.anc, d.stack + [c], places) && Top(b, d.depth + 1, d.stack, places)
      && Corr(st1.objs, order[0], c) && Follows(h, d, st1, a.lag + 1, d1, m, NO_TABLE)
    ensures Broken(h, objs, UnpackHash(f, d, id).value.tables, id)
    decreases Unmet(h, st), 2, |order|, 0
  {
    hide *;
    PackEntrySteps(h, st, t, order, f, m);
    PackObjs(h, st, t, order, objs, f, m);
    DriftEntrySteps(h, st, a, t, order);
    NextKeys(t, order, ks);
    var k, v := order[0], t.entries[order[0]];
    var (c, d1) := UnpackOne(f, d).value;
    var b, st1 := DriftKey(h, st, a, k), PackOne(h, st, k);
    var st2, e := PackOne(h, st1, v), DriftOne(h, st1, b, v);
    FollowsStep(h, d, st1, a.lag + 1, d1, m, NO_TABLE);
    ValueInStep(st1, a.lag, d1, m, c);
    SimOne(h, st1, b, v, f, m, AtValue(d1, c), places);
    var (w, d2) := UnpackOne(f, AtValue(d1, c)).value;
    EntryRead(h, st1, b, v, st2, e, f, d1, c, d.depth, d.stack, places);
    UnpackHashStep(f, d, id, c, d1, w, d2);
    var d3 := Assign(d2.(depth := d.depth, stack := d.stack), id, c, w);
    DistinctObjs(h, st2);
    HashStep(h, st, d, st1, d1, st2, a.lag, d2, m, t, ks, id, k, c, w);
    SlotsSane(st2, e, d.depth + 1, d3.anc, d.stack, places);
    DetectHash(h, objs, st2, e, t, order[1..], f, m, d3, id, places, ks + {k});
  }

  lemma {:induction false} DetectAll(
    h: Heap, objs: seq<nat>, st: Enc, a: Drift, args: seq<Value>, f: seq<byte>, m: set<nat>, d: Dec)
    requires HeapOk(h) && st.Valid(h) && ValuesOk(h, args) && Sane(st, a) && InStep(st, a.lag, d, m) && Distinct(objs)
    requires st.depth == 0 && d.depth == 0 && Slots(st, a, 0, d.anc, d.stack, [])
    requires Agrees(PackSeq(h, st, args), f, m) && PackSeq(h, st, args).objs <= objs && |f| == |PackSeq(h, st, args).out|
    requires !a.astray && DriftSeq(h, st, a, args).astray
    ensures d.pos <= |f| && |d.anc| == MAX_DEPTH
    ensures UnpackAll(f, d).Ok? ==> Broken(h, objs, UnpackAll(f, d).value.1.tables, 0)
    decreases |args|
  {
    hide *;
    StepLengths(st, a.lag, d, m);
    PackSeqExtends(h, st, args, f, m);
    if args == [] {
      NoArgsAstray(h, st, a);
    } else {
      PackSeqStep(h, st, args, f, m);
      DriftSeqStep(h, st, a, args);
      var st1, b := PackOne(h, st, args[0]), DriftOne(h, st, a, args[0]);
      AllFails(f, d);
      ArgumentBytes(h, st, args, f);
      if UnpackAll(f, d).Ok? {
        var (w, d1) := UnpackOne(f, d).value;
        OneAdvances(f, d);
        var d1' := d1.(stack := d1.stack + [w]);
        AllKeepsTables(f, d1');
        var d2 := UnpackAll(f, d1').value.1;
        PrefixObjs(st1.objs, PackSeq(h, st1, args[1..]).objs, objs);
        if b.astray {
          DetectOne(h, objs, st, a, args[0], f, m, d, []);
          BrokenStays(h, objs, d1.tables, d2.tables, |d.tables|, 0);
        } else {
          SimOne(h, st, a, args[0], f, m, d, []);
          PackOneKeeps(h, st, args[0]);
          CorrInBounds(st1.objs, args[0], w);
          SlotsDepth(st, a, 0, d.anc, d.stack, []);
          OuterSlots(st, a, d.anc, d.stack, st1, b, d1.anc, w);
          FollowsStep(h, d, st1, a.lag, d1, m, NO_TABLE);
          PushResult(st1, a.lag, d1, m, w);
          SlotsSane(st1, b, 0, d1'.anc, d1'.stack, []);
          DetectAll(h, objs, st1, b, args[1..], f, m, d1');
        }
      }
    }
  }

  lemma NoArgsAstray(h: Heap, st: Enc, a: Drift)
    requires HeapOk(h) && st.Valid(h) && Sane(st, a)
    ensures DriftSeq(h, st, a, []) == a
  {
  }

  lemma AllFails(f: seq<byte>, d: Dec)
    requires d.pos <= |f| && |d.anc| == MAX_DEPTH
    ensures UnpackAll(f, d).Ok? && d.pos < |f| ==>
      && UnpackOne(f, d).Ok?
      && var (w, d1) := UnpackOne(f, d).value;
         && d1.pos <= |f| && |d1.anc| == MAX_DEPTH && UnpackAll(f, d1.(stack := d1.stack + [w])).Ok?
         && UnpackAll(f, d).value.1 == UnpackAll(f, d1.(stack := d1.stack + [w])).value.1
  {
    hide UnpackOne;
  }

  lemma AllKeepsTables(f: seq<byte>, d: Dec)
    requires d.pos <= |f| && |d.anc| == MAX_DEPTH && UnpackAll(f, d).Ok?
    ensures var r := UnpackAll(f, d).value.1;
      |r.tables| >= |d.tables| && forall k :: 0 <= k < |d.tables| ==> r.tables[k] == d.tables[k]
  {
    hide UnpackAll;
  }

  // An argument takes at least a byte.
  lemma ArgumentBytes(h: Heap, st: Enc, args: seq<Value>, f: seq<byte>)
    requires HeapOk(h) && st.Valid(h) && ValuesOk(h, args) && args != [] && |f| == |PackSeq(h, st, args).out|
    ensures |st.out| < |f|
  {
    hide *;
    SeqGrows(h, st, args);
    PackGrows(h, st, args[0]);
  }

  lemma PackGrows(h: Heap, st: Enc, v: Value)
    requires HeapOk(h) && st.Valid(h) && ValueOk(h, v)
    ensures |st.out| < |PackOne(h, st, v).out|
  {
    hide PackTable, EncInteger, Distinct;
    if v.TableRef? && RefAncestor(st, v.id).None? && IndexOf(st.objs, v.id).None? {
      EnterKeeps(h, st, v.id);
      TableGrows(h, Enter(st, v.id), v.id);
    }
  }

  lemma TableGrows(h: Heap, st: Enc, o: nat)
    requires HeapOk(h) && st.Valid(h) && o in h && o !in st.objs
    ensures |st.out| < |PackTable(h, st, o).out|
  {
    hide PackSeq, Distinct, Header;
    ItemsOk(h, h[o]);
    OpeningMeets(h, st, o);
  }

  lemma SeqGrows(h: Heap, st: Enc, args: seq<Value>)
    requires HeapOk(h) && st.Valid(h) && ValuesOk(h, args) && args != []
    ensures ValueOk(h, args[0]) && |PackOne(h, st, args[0]).out| <= |PackSeq(h, st, args).out|
  {
    hide PackOne;
  }

  // The other half of the main theorem: if a reference goes astray, either unpack fails or
  // some table it makes differs from the one it was packed for.
  lemma AstrayIsLost(h: Heap, args: seq<Value>)
    requires HeapOk(h) && ValuesOk(h, args) && GoesAstray(h, args)
    ensures Unpack(Pack(h, args).out).Ok? ==>
      var (ws, d) := Unpack(Pack(h, args).out).value;
      !Isomorphic(h, args, Pack(h, args).objs, ws, d.tables)
  {
    hide UnpackAll, PackSeq, DriftSeq, Broken;
    var r := Pack(h, args);
    PackAgreesWithItself(h, r);
    StartInStep(h, r.marked);
    DetectAll(h, r.objs, Encoder.START, STILL, args, r.out, r.marked, Decoder.START);
    if Unpack(r.out).Ok? {
      var (ws, d) := Unpack(r.out).value;
      BrokenIsNot(h, args, r.objs, ws, d.tables);
    }
  }

  lemma BrokenIsNot(h: Heap, args: seq<Value>, objs: seq<nat>, ws: seq<Value>, tables: seq<Contents>)
    requires Broken(h, objs, tables, 0)
    ensures !Isomorphic(h, args, objs, ws, tables)
  {
  }
}
