// What follows from the round trip for whole packed messages.
module Messages {
  import opened Wire
  import opened Graph
  import opened Encoder
  import Decoder
  import opened Drifting
  import opened RoundTrip
  import Misdirection
  import Writer
  import Reader

  // unpack(pack(args)) rebuilds the graph exactly when no reference goes astray.
  lemma RoundTripExactly(h: Heap, args: seq<Value>)
    requires HeapOk(h) && ValuesOk(h, args)
    ensures var r := Decoder.Unpack(Pack(h, args).out);
      r.Ok? && Isomorphic(h, args, Pack(h, args).objs, r.value.0, r.value.1.tables) <==> !GoesAstray(h, args)
  {
    hide Decoder.Unpack, Pack, GoesAstray, Isomorphic;
    if GoesAstray(h, args) {
      Misdirection.AstrayIsLost(h, args);
    } else {
      UnpackOfPack(h, args);
    }
  }

  // Which tables a message holds

  ghost predicate Closed(h: Heap, s: set<nat>) {
    && s <= h.Keys
    && forall o, k :: o in s && o in h && k in h[o].entries ==> Refers(k, s) && Refers(h[o].entries[k], s)
  }

  ghost predicate Refers(v: Value, s: set<nat>) {
    v.TableRef? ==> v.id in s
  }

  ghost function Objects(st: Enc): set<nat> {
    set o | o in st.objs
  }

  lemma ItemsWithin(h: Heap, t: LuaTable, s: set<nat>)
    requires TableOk(h, t)
    requires forall k :: k in t.entries ==> Refers(k, s) && Refers(t.entries[k], s)
    ensures forall v :: v in ArrayItems(t) ==> Refers(v, s)
    ensures forall v :: v in ItemsOf(t) ==> Refers(v, s)
  {
    HashWithin(t, t.order, s);
  }

  lemma {:induction false} HashWithin(t: LuaTable, order: seq<Value>, s: set<nat>)
    requires forall k :: k in order ==> k in t.entries
    requires forall k :: k in t.entries ==> Refers(k, s) && Refers(t.entries[k], s)
    ensures forall v :: v in HashItems(t.entries, t.objlen, order) ==> Refers(v, s)
  {
    if order != [] {
      HashWithin(t, order[1..], s);
    }
  }

  // Packing expands no table outside a closed set that holds what it starts from.
  lemma {:induction false} PackWithin(h: Heap, st: Enc, vs: seq<Value>, s: set<nat>)
    requires HeapOk(h) && st.Valid(h) && ValuesOk(h, vs) && Closed(h, s) && Objects(st) <= s
    requires forall v :: v in vs ==> Refers(v, s)
    ensures Objects(PackSeq(h, st, vs)) <= s
    decreases Unmet(h, st), 2, |vs|
  {
    hide Extends, Closed, Encoder.PackOne, HeapOk, Enc.Valid;
    if vs != [] {
      var st1 := PackOne(h, st, vs[0]);
      UnmetShrinks(h, st, st1);
      PackOneWithin(h, st, vs[0], s);
      PackWithin(h, st1, vs[1..], s);
    }
  }

  lemma {:induction false} PackOneWithin(h: Heap, st: Enc, v: Value, s: set<nat>)
    requires HeapOk(h) && st.Valid(h) && ValueOk(h, v) && Closed(h, s) && Objects(st) <= s && Refers(v, s)
    ensures Objects(PackOne(h, st, v)) <= s
    decreases Unmet(h, st), 1, 0
  {
    hide Extends, HeapOk, Enc.Valid, PackSeq, LookupRef;
    if v.TableRef? {
      PackOneCases(h, st, v);
      if RefAncestor(st, v.id).None? && IndexOf(st.objs, v.id).None? {
        EnterKeeps(h, st, v.id);
        PackTableWithin(h, Enter(st, v.id), v.id, s);
      }
    }
  }

  lemma {:induction false} PackTableWithin(h: Heap, st: Enc, o: nat, s: set<nat>)
    requires HeapOk(h) && st.Valid(h) && o in h && o !in st.objs && Closed(h, s) && Objects(st) <= s && o in s
    ensures Objects(PackTable(h, st, o)) <= s
    decreases Unmet(h, st), 0, 0
  {
    hide Extends, Enc.Valid, PackSeq, Encoder.PackOne;
    var t := h[o];
    ItemsOk(h, t);
    ItemsWithin(h, t, s);
    OpeningMeets(h, st, o);
    var st1 := OpenTable(h, st, o, t.objlen);
    var st2 := PackSeq(h, st1, ArrayItems(t));
    UnmetShrinks(h, st1, st2);
    PackWithin(h, st1, ArrayItems(t), s);
    PackWithin(h, st2, ItemsOf(t), s);
  }

  // And it expands all that the tables it expands hold.

  ghost predicate Holds(h: Heap, o: nat, s: set<nat>) {
    o in h && forall k :: k in h[o].entries ==> Refers(k, s) && Refers(h[o].entries[k], s)
  }

  ghost predicate Covers(h: Heap, st: Enc, r: Enc) {
    forall o :: o in r.objs && o !in st.objs ==> Holds(h, o, Objects(r))
  }

  // The open tables are among those met.
  ghost predicate OpenMet(st: Enc) {
    forall i :: 0 <= i < st.depth && i < |st.anc| ==> st.anc[i] in st.objs
  }

  lemma ItemsCover(h: Heap, o: nat, s: set<nat>)
    requires HeapOk(h) && o in h
    requires TableOk(h, h[o])
    requires forall v :: v in ArrayItems(h[o]) ==> Refers(v, s)
    requires forall v :: v in ItemsOf(h[o]) ==> Refers(v, s)
    ensures Holds(h, o, s)
  {
    hide HeapOk, InArray, ArrayItems, Refers;
    var t := h[o];
    forall k | k in t.entries
      ensures Refers(k, s) && Refers(t.entries[k], s)
    {
      if InArray(k, t.objlen) {
        InArrayPart(t, k);
        ScalarRefers(k, s);
      } else {
        InHash(t, t.order, k);
      }
    }
  }

  lemma ScalarRefers(k: Value, s: set<nat>)
    requires !k.TableRef?
    ensures Refers(k, s)
  {
  }

  lemma InArrayPart(t: LuaTable, k: Value)
    requires t.objlen < INT_LIMIT && k in t.entries && InArray(k, t.objlen)
    ensures t.entries[k] in ArrayItems(t) && !k.TableRef?
  {
    ArrayKey(k, t.objlen);
    var i :| 0 < i <= t.objlen && k == IndexKey(i);
    assert ArrayItems(t)[i - 1] == t.entries[k];
  }

  lemma {:induction false} InHash(t: LuaTable, order: seq<Value>, k: Value)
    requires forall x :: x in order ==> x in t.entries
    requires k in order && !InArray(k, t.objlen)
    ensures k in HashItems(t.entries, t.objlen, order) && t.entries[k] in HashItems(t.entries, t.objlen, order)
  {
    var rest := HashItems(t.entries, t.objlen, order[1..]);
    if order[0] == k {
      var here := [k, t.entries[k]] + rest;
      assert here[0] == k && here[1] == t.entries[k];
    } else {
      InHash(t, order[1..], k);
    }
  }

  lemma CoversChain(h: Heap, a: Enc, b: Enc, c: Enc)
    requires Covers(h, a, b) && Covers(h, b, c) && b.objs <= c.objs
    ensures Covers(h, a, c)
  {
    assert Objects(b) <= Objects(c);
  }

  lemma {:induction false} SeqCovers(h: Heap, st: Enc, vs: seq<Value>)
    requires HeapOk(h) && st.Valid(h) && ValuesOk(h, vs) && OpenMet(st)
    ensures var r := PackSeq(h, st, vs);
      Covers(h, st, r) && OpenMet(r) && forall v :: v in vs ==> Refers(v, Objects(r))
    decreases Unmet(h, st), 2, |vs|
  {
    hide Covers, OpenMet, Extends, HeapOk, Enc.Valid, Encoder.PackOne, Distinct;
    if vs == [] {
      CoversNothing(h, st);
    } else {
      var st1 := PackOne(h, st, vs[0]);
      UnmetShrinks(h, st, st1);
      OneCovers(h, st, vs[0]);
      SeqCovers(h, st1, vs[1..]);
      var r := PackSeq(h, st1, vs[1..]);
      UnmetShrinks(h, st1, r);
      CoversChain(h, st, st1, r);
    }
  }

  lemma CoversNothing(h: Heap, st: Enc)
    ensures Covers(h, st, st)
  {
  }

  lemma OpenStaysMet(st: Enc, r: Enc)
    requires OpenMet(st) && Extends(st, r) && |r.anc| == |st.anc|
    ensures OpenMet(r)
  {
  }

  lemma {:induction false} OneCovers(h: Heap, st: Enc, v: Value)
    requires HeapOk(h) && st.Valid(h) && ValueOk(h, v) && OpenMet(st)
    ensures var r := PackOne(h, st, v);
      Covers(h, st, r) && OpenMet(r) && Refers(v, Objects(r))
    decreases Unmet(h, st), 1, 0
  {
    hide Extends, HeapOk, PackTable, LookupRef, Distinct;
    PackOneKeeps(h, st, v);
    OpenStaysMet(st, PackOne(h, st, v));
    if v.TableRef? {
      PackOneCases(h, st, v);
      if RefAncestor(st, v.id).None? && IndexOf(st.objs, v.id).None? {
        EnterKeeps(h, st, v.id);
        TableCovers(h, st, v.id);
      }
    }
  }

  lemma EnteredMet(st: Enc, o: nat, st1: Enc)
    requires OpenMet(st) && st1.objs == st.objs + [o] && st1.anc == Enter(st, o).anc && st1.depth == st.depth + 1
    ensures OpenMet(st1) && o in st1.objs
  {
    assert st1.objs[|st.objs|] == o;
    forall i | 0 <= i < st1.depth && i < |st1.anc|
      ensures st1.anc[i] in st1.objs
    {
      assert i < st.depth ==> st.anc[i] in st.objs;
    }
  }

  lemma {:induction false} TableCovers(h: Heap, st: Enc, o: nat)
    requires HeapOk(h) && st.Valid(h) && o in h && o !in st.objs && OpenMet(st)
    requires Enter(st, o).Valid(h)
    ensures var r := PackTable(h, Enter(st, o), o);
      Covers(h, st, r) && o in r.objs
    decreases Unmet(h, st), 0, 0
  {
    hide Extends, Enc.Valid, PackSeq, Encoder.PackOne, OpenMet, Covers, Distinct, Header;
    var t := h[o];
    ItemsOk(h, t);
    EnterKeeps(h, st, o);
    OpeningMeets(h, Enter(st, o), o);
    var st1 := OpenTable(h, Enter(st, o), o, t.objlen);
    EnteredMet(st, o, st1);
    SeqCovers(h, st1, ArrayItems(t));
    var st2 := PackSeq(h, st1, ArrayItems(t));
    UnmetShrinks(h, st1, st2);
    SeqCovers(h, st2, ItemsOf(t));
    var st3 := PackSeq(h, st2, ItemsOf(t));
    UnmetShrinks(h, st2, st3);
    CoversChain(h, st1, st2, st3);
    ArrayStillRefers(t, st2, st3);
    ItemsCover(h, o, Objects(st3));
    CoversOpened(h, st, o, st1, st3, PackTable(h, Enter(st, o), o));
  }

  lemma ArrayStillRefers(t: LuaTable, st2: Enc, st3: Enc)
    requires t.objlen < INT_LIMIT && st2.objs <= st3.objs && forall v :: v in ArrayItems(t) ==> Refers(v, Objects(st2))
    ensures forall v :: v in ArrayItems(t) ==> Refers(v, Objects(st3))
  {
    assert Objects(st2) <= Objects(st3);
  }

  lemma CoversOpened(h: Heap, st: Enc, o: nat, st1: Enc, st3: Enc, r: Enc)
    requires st1.objs == st.objs + [o] && Covers(h, st1, st3) && Holds(h, o, Objects(st3)) && r.objs == st3.objs
    requires o in st3.objs
    ensures Covers(h, st, r) && o in r.objs
  {
    assert Objects(r) == Objects(st3);
  }

  // The tables a message expands, each exactly once, are those reachable from
  // the arguments: the least closed set that holds them.
  lemma PacksTheReachable(h: Heap, args: seq<Value>)
    requires HeapOk(h) && ValuesOk(h, args)
    ensures Distinct(Pack(h, args).objs)
    ensures Closed(h, Objects(Pack(h, args)))
    ensures forall v :: v in args ==> Refers(v, Objects(Pack(h, args)))
    ensures forall s :: Closed(h, s) && (forall v :: v in args ==> Refers(v, s)) ==> Objects(Pack(h, args)) <= s
  {
    hide HeapOk, PackSeq;
    var r := Pack(h, args);
    SeqCovers(h, START, args);
    forall s | Closed(h, s) && forall v :: v in args ==> Refers(v, s)
      ensures Objects(r) <= s
    {
      PackWithin(h, START, args, s);
    }
  }

  // The finished tags say TABLE_MARK for exactly the tables some by-id
  // reference names, and TABLE for the others.
  lemma FinalMarks(h: Heap, args: seq<Value>, k: nat)
    requires HeapOk(h) && ValuesOk(h, args) && k < |Pack(h, args).objs|
    ensures var r := Pack(h, args);
      && k < |r.tags| && r.tags[k] < |r.out|
      && r.out[r.tags[k]] % 8 == if k in r.named then TYPE_TABLE_MARK else TYPE_TABLE
  {
  }

  // pack then unpack, through the real buffers: the length prefix, the bytes,
  // and the decoder's answer.
  method PackThenUnpack(h: Heap, args: seq<Value>)
    returns (r: Result<(seq<Value>, seq<Decoder.Contents>)>)
    requires HeapOk(h) && ValuesOk(h, args) && |Pack(h, args).out| < INT_LIMIT
    ensures r.Ok? && Isomorphic(h, args, Pack(h, args).objs, r.value.0, r.value.1) <==> !GoesAstray(h, args)
  {
    var message := Writer.SeriPack(h, args);
    ghost var out := Pack(h, args).out;
    FromToLE(|out|, 4) by { FieldWidths(); }
    assert message[..4] == ToLE(|out|, 4);
    var len := Signed(FromLE(message[..4]), 0x1_0000_0000);
    assert message[4..4 + len] == out;
    RoundTripExactly(h, args);
    r := Reader.SeriUnpack(message[4..4 + len]);
  }

  // Table-valued keys: the encoder packs a key one level deeper than the
  // decoder reads it, so t[k] = t comes back as t[k] = k.

  const KEYED: Heap := map[
    0 := LuaTable(map[TableRef(1) := TableRef(0)], 0, [TableRef(1)]),
    1 := LuaTable(map[], 0, [])]

  lemma KeyedOk()
    ensures HeapOk(KEYED) && ValuesOk(KEYED, [TableRef(0)]) && !ScalarKeys(KEYED)
  {
    assert TableRef(1) in KEYED[0].entries;
  }

  // The stages of packing it
  lemma KeyedInner(st: Enc)
    requires HeapOk(KEYED) && st.Valid(KEYED) && st.objs == [0] && st.depth == 1 && st.anc[0] == 0
    ensures var r := PackOne(KEYED, st, TableRef(1));
      r.out == st.out + [5, 0] && r.objs == [0, 1] && r.depth == 1 && r.anc[0] == 0
  {
    hide Extends, Distinct, HeapOk, Enc.Valid;
    KeyedOk();
    StateOk(st);
    assert FindAncestor(st.anc, 1, 1).None?;
    assert IndexOf([0], 1).None?;
    EnterKeeps(KEYED, st, 1);
    var s1 := OpenTable(KEYED, Enter(st, 1), 1, 0);
    assert ArrayItems(KEYED[1]) == [] && ItemsOf(KEYED[1]) == [];
    assert PackTable(KEYED, Enter(st, 1), 1) == Emit(s1, [0]);
  }

  lemma StateOk(st: Enc)
    requires st.Valid(KEYED)
    ensures |st.anc| == MAX_DEPTH
  {
  }

  lemma KeyedBack(st: Enc)
    requires HeapOk(KEYED) && st.Valid(KEYED) && st.depth == 1 && st.anc[0] == 0
    ensures PackOne(KEYED, st, TableRef(0)) == Emit(st, [7])
  {
    assert FindAncestor(st.anc, 0, 1) == Some(0);
  }

  lemma KeyedOuter()
    requires HeapOk(KEYED) && Enter(START, 0).Valid(KEYED) && START.objs == []
    ensures var r := PackTable(KEYED, Enter(START, 0), 0); r.out == [5, 5, 0, 7, 0] && r.objs == [0, 1]
  {
    hide Enc.Valid, Extends, HeapOk, Distinct, IndexOf, FindAncestor, Encoder.PackOne;
    var h, t := KEYED, KEYED[0];
    var s1 := OpenTable(h, Enter(START, 0), 0, 0);
    KeyedInner(s1);
    var s2 := PackOne(h, s1, TableRef(1));
    KeyedBack(s2);
    assert [TableRef(1), TableRef(0)] + [] == [TableRef(1), TableRef(0)] == ItemsOf(t);
    PackPair(h, s1, TableRef(1), TableRef(0), []);
    assert PackSeq(h, s1, ArrayItems(t)) == s1;
    assert PackSeq(h, s1, ItemsOf(t)) == Emit(s2, [7]);
  }

  lemma KeyedBytes()
    requires HeapOk(KEYED) && ValuesOk(KEYED, [TableRef(0)])
    ensures Pack(KEYED, [TableRef(0)]).out == [5, 5, 0, 7, 0]
    ensures Pack(KEYED, [TableRef(0)]).objs == [0, 1]
  {
    hide Enc.Valid, Extends, HeapOk, Distinct, IndexOf, FindAncestor, PackTable;
    StartOk();
    EnterKeeps(KEYED, START, 0);
    KeyedOuter();
    assert PackSeq(KEYED, START, [TableRef(0)]) == PackOne(KEYED, START, TableRef(0));
  }

  lemma StartOk()
    ensures START.Valid(KEYED) && IndexOf(START.objs, 0).None?
  {
  }

  lemma KeyedDecode()
    ensures var r := Decoder.Unpack([5, 5, 0, 7, 0]);
      && r.Ok? && r.value.0 == [TableRef(0)]
      && r.value.1.tables == [map[TableRef(1) := TableRef(1)], map[]]
  {
    var f: seq<byte> := [5, 5, 0, 7, 0];
    var d0 := Decoder.START;
    var d1 := Decoder.Create(d0.(pos := 1), TYPE_TABLE).(depth := 1);
    assert Decoder.UnpackArray(f, d1, 0, 1, 0) == Ok(d1);
    var d2 := d1.(depth := 0);
    var d3 := Decoder.Create(d2.(pos := 2), TYPE_TABLE).(depth := 1);
    assert d3.anc[0] == 1;
    assert Decoder.UnpackArray(f, d3, 1, 1, 0) == Ok(d3);
    var d4 := d3.(depth := 0);
    assert Decoder.UnpackOne(f, d4) == Ok((Nil, d4.(pos := 3)));
    assert Decoder.UnpackHash(f, d4, 1) == Ok(d4.(pos := 3));
    var d5 := d4.(pos := 3, stack := d2.stack);
    assert Decoder.UnpackTable(f, d2.(pos := 2), 0, TYPE_TABLE) == Ok((TableRef(1), d5));
    assert Decoder.UnpackOne(f, d2) == Ok((TableRef(1), d5));
    var d6 := Decoder.AtValue(d5, TableRef(1));
    assert d6.stack[1] == TableRef(1);
    assert Decoder.UnpackRef(f, d6.(pos := 4), 0) == Ok((TableRef(1), d6.(pos := 4)));
    assert Decoder.UnpackOne(f, d6) == Ok((TableRef(1), d6.(pos := 4)));
    var d7 := Decoder.Assign(d6.(pos := 4, depth := 0, stack := d2.stack), 0, TableRef(1), TableRef(1));
    assert d7.tables == [map[TableRef(1) := TableRef(1)], map[]];
    assert Decoder.UnpackOne(f, d7) == Ok((Nil, d7.(pos := 5)));
    assert Decoder.UnpackHash(f, d7, 0) == Ok(d7.(pos := 5));
    assert Decoder.UnpackHash(f, d2, 0) == Ok(d7.(pos := 5));
    var d8 := d7.(pos := 5, stack := []);
    assert Decoder.UnpackTable(f, d0.(pos := 1), 0, TYPE_TABLE) == Ok((TableRef(0), d8));
    assert Decoder.UnpackOne(f, d0) == Ok((TableRef(0), d8));
    assert Decoder.UnpackAll(f, d8.(stack := [TableRef(0)])) == Ok(([], d8.(stack := [TableRef(0)])));
  }

  // A well-formed input that does not come back, whichever tables are paired with which:
  // its one reference goes astray.
  lemma TableKeyIsLost()
    ensures HeapOk(KEYED) && ValuesOk(KEYED, [TableRef(0)]) && GoesAstray(KEYED, [TableRef(0)])
    ensures Decoder.Unpack(Pack(KEYED, [TableRef(0)]).out).Ok?
    ensures var (ws, d) := Decoder.Unpack(Pack(KEYED, [TableRef(0)]).out).value;
      && ws == [TableRef(0)] && d.tables == [map[TableRef(1) := TableRef(1)], map[]]
      && forall objs :: !Isomorphic(KEYED, [TableRef(0)], objs, ws, d.tables)
  {
    hide GoesAstray, Pack, Decoder.Unpack, Isomorphic;
    KeyedOk();
    KeyedBytes();
    KeyedDecode();
    var (ws, d) := Decoder.Unpack(Pack(KEYED, [TableRef(0)]).out).value;
    forall objs ensures !Isomorphic(KEYED, [TableRef(0)], objs, ws, d.tables) {
      NotTheSame(objs, ws, d.tables);
    }
    RoundTripExactly(KEYED, [TableRef(0)]);
  }

  lemma NotTheSame(objs: seq<nat>, ws: seq<Value>, tables: seq<Decoder.Contents>)
    requires ws == [TableRef(0)] && tables == [map[TableRef(1) := TableRef(1)], map[]]
    ensures !Isomorphic(KEYED, [TableRef(0)], objs, ws, tables)
  {
    if Isomorphic(KEYED, [TableRef(0)], objs, ws, tables) {
      assert Corr(objs, [TableRef(0)][0], ws[0]);
      assert TableCorr(objs, KEYED[objs[0]], tables[0]);
      KeyedPairs(objs);
    }
  }

  lemma KeyedPairs(objs: seq<nat>)
    requires Distinct(objs) && |objs| == 2 && objs[0] == 0
    ensures !TableCorr(objs, KEYED[0], map[TableRef(1) := TableRef(1)])
  {
    IndexIs(objs, 0);
    assert TableRef(1) in KEYED[0].entries.Keys;
  }
}
