// A graph with a symmetry, in which a reference goes astray and what is decoded is still a
// copy of it: under another pairing of tables than the order in which they were packed.
module Twins {
  import opened Wire
  import opened Graph
  import opened Encoder
  import D = Decoder
  import opened Drifting
  import opened RoundTrip
  import Messages

  // Table 0 has 1 and 4 for keys, of 2 and 3. Those refer to each other, each under its own
  // key, and to 5 under the other; 5 refers to 3 only.
  const TWINS: Heap := map[
    0 := LuaTable(map[TableRef(1) := TableRef(2), TableRef(4) := TableRef(3)], 0, [TableRef(1), TableRef(4)]),
    1 := NOTHING,
    2 := LuaTable(map[TableRef(1) := TableRef(3), TableRef(3) := TableRef(5)], 0, [TableRef(1), TableRef(3)]),
    3 := LuaTable(map[TableRef(4) := TableRef(2), TableRef(2) := TableRef(5)], 0, [TableRef(4), TableRef(2)]),
    4 := NOTHING,
    5 := LuaTable(map[Boolean(true) := TableRef(3)], 0, [Boolean(true)])]

  const NOTHING := LuaTable(map[], 0, [])

  const FIRST: seq<byte> := [5, 6, 0, 5, 255, 9, 2]
  const TWIN: seq<byte> := [6, 6, 0, 15, 15, 6, 16, 23, 0, 0]
  const LAST: seq<byte> := [255, 9, 4, 255, 9, 6, 0, 255, 9, 5, 255, 9, 4, 0]
  const PACKED: seq<byte> := FIRST + TWIN + LAST

  // What is decoded: 5 refers to 2.
  const DECODED: seq<D.Contents> := [
    map[TableRef(1) := TableRef(2), TableRef(4) := TableRef(3)],
    map[],
    map[TableRef(1) := TableRef(3), TableRef(3) := TableRef(5)],
    map[TableRef(4) := TableRef(2), TableRef(2) := TableRef(5)],
    map[],
    map[Boolean(true) := TableRef(2)]]

  function Two(a: Value, v: Value, b: Value, w: Value): LuaTable {
    LuaTable(map[a := v, b := w], 0, [a, b])
  }

  function One(a: Value, v: Value): LuaTable {
    LuaTable(map[a := v], 0, [a])
  }

  lemma TwoFine(h: Heap, a: Value, v: Value, b: Value, w: Value)
    requires a != b && Nil !in {a, v, b, w} && !a.Number? && !b.Number?
    requires ValueOk(h, a) && ValueOk(h, v) && ValueOk(h, b) && ValueOk(h, w)
    ensures TableOk(h, Two(a, v, b, w)) && ItemsOf(Two(a, v, b, w)) == [a, v, b, w]
  {
    var t := Two(a, v, b, w);
    assert t.order[0] == a && t.order[1] == b;
    assert t.order[1..] == [b] && t.order[1..][1..] == [];
    assert HashItems(t.entries, 0, [b]) == [b, w];
  }

  lemma OneFine(h: Heap, a: Value, v: Value)
    requires Nil !in {a, v} && !a.Number? && ValueOk(h, a) && ValueOk(h, v)
    ensures TableOk(h, One(a, v)) && ItemsOf(One(a, v)) == [a, v]
  {
    var t := One(a, v);
    assert t.order[0] == a && t.order[1..] == [];
    assert HashItems(t.entries, 0, t.order[1..]) == [];
    assert !InArray(a, 0);
  }

  lemma NothingFine(h: Heap)
    ensures TableOk(h, NOTHING) && ItemsOf(NOTHING) == [] && NOTHING.objlen == 0
  {
  }

  // What the tables are
  lemma Tables()
    ensures TWINS.Keys == {0, 1, 2, 3, 4, 5}
    ensures TWINS[0] == Two(TableRef(1), TableRef(2), TableRef(4), TableRef(3)) && TWINS[1] == NOTHING
    ensures TWINS[2] == Two(TableRef(1), TableRef(3), TableRef(3), TableRef(5))
    ensures TWINS[3] == Two(TableRef(4), TableRef(2), TableRef(2), TableRef(5)) && TWINS[4] == NOTHING
    ensures TWINS[5] == One(Boolean(true), TableRef(3))
  {
  }

  lemma TwoLength(a: Value, v: Value, b: Value, w: Value)
    ensures Two(a, v, b, w).objlen == 0 && One(a, v).objlen == 0
  {
  }

  lemma Known(o: nat)
    requires o in TWINS.Keys
    ensures ValueOk(TWINS, TableRef(o))
  {
  }

  lemma KnownScalar()
    ensures ValueOk(TWINS, Boolean(true))
  {
  }

  // ... and what of them is packed
  lemma TableFine(o: nat)
    requires o in TWINS
    ensures TableOk(TWINS, TWINS[o]) && TWINS[o].objlen == 0
    ensures o == 0 ==> ItemsOf(TWINS[o]) == [TableRef(1), TableRef(2), TableRef(4), TableRef(3)]
    ensures o == 1 || o == 4 ==> ItemsOf(TWINS[o]) == []
    ensures o == 2 ==> ItemsOf(TWINS[o]) == [TableRef(1), TableRef(3), TableRef(3), TableRef(5)]
    ensures o == 3 ==> ItemsOf(TWINS[o]) == [TableRef(4), TableRef(2), TableRef(2), TableRef(5)]
    ensures o == 5 ==> ItemsOf(TWINS[o]) == [Boolean(true), TableRef(3)]
  {
    hide *;
    Tables();
    Known(0); Known(1); Known(2); Known(3); Known(4); Known(5); KnownScalar();
    if o == 0 {
      TwoFine(TWINS, TableRef(1), TableRef(2), TableRef(4), TableRef(3));
      TwoLength(TableRef(1), TableRef(2), TableRef(4), TableRef(3));
    } else if o == 2 {
      TwoFine(TWINS, TableRef(1), TableRef(3), TableRef(3), TableRef(5));
      TwoLength(TableRef(1), TableRef(3), TableRef(3), TableRef(5));
    } else if o == 3 {
      TwoFine(TWINS, TableRef(4), TableRef(2), TableRef(2), TableRef(5));
      TwoLength(TableRef(4), TableRef(2), TableRef(2), TableRef(5));
    } else if o == 5 {
      OneFine(TWINS, Boolean(true), TableRef(3));
      TwoLength(Boolean(true), TableRef(3), Boolean(true), TableRef(3));
    } else {
      NothingFine(TWINS);
    }
  }

  lemma HeapFine()
    ensures HeapOk(TWINS) && ValuesOk(TWINS, [TableRef(0)])
  {
    hide TableOk, TWINS;
    Tables();
    forall o | o in TWINS ensures TableOk(TWINS, TWINS[o]) {
      TableFine(o);
    }
  }

  // Packing, by the shapes that occur

  function Opened(st: Enc, o: nat): Enc {
    Enter(st, o).(objs := st.objs + [o], tags := st.tags + [|st.out|], out := st.out + [5])
  }

  lemma OpenedIs(h: Heap, st: Enc, o: nat)
    requires st.Valid(h) && o in h && o !in st.objs
    ensures Enter(st, o).Valid(h) && OpenTable(h, Enter(st, o), o, 0) == Opened(st, o) && Opened(st, o).Valid(h)
  {
    EnterKeeps(h, st, o);
  }

  // A table that is packed out, by its items
  lemma PackItems(h: Heap, st: Enc, o: nat, items: seq<Value>)
    requires HeapOk(h) && st.Valid(h) && o in h && o !in st.objs && RefAncestor(st, o).None?
    requires h[o].objlen == 0 && TableOk(h, h[o]) && ItemsOf(h[o]) == items
    ensures Opened(st, o).Valid(h) && ValuesOk(h, items)
    ensures var r, x := PackOne(h, st, TableRef(o)), PackSeq(h, Opened(st, o), items);
      r.out == x.out + [0] && r.objs == x.objs && r.tags == x.tags && r.marked == x.marked
  {
    hide HeapOk, TableOk, PackSeq, Enc.Valid, Extends, Opened;
    PackOneCases(h, st, TableRef(o));
    OpenedIs(h, st, o);
    ItemsOk(h, h[o]);
    PackNone(h, Opened(st, o), h[o]);
  }

  lemma PackNone(h: Heap, st: Enc, t: LuaTable)
    requires HeapOk(h) && st.Valid(h) && t.objlen == 0
    ensures ArrayItems(t) == [] && PackSeq(h, st, []) == st
  {
  }

  lemma SmallInteger(n: nat)
    requires 0 < n < 256
    ensures EncInteger(n) == [9, n]
  {
    assert ToLE(n, 1) == [n];
  }

  lemma LookupIs(h: Heap, st: Enc, k: nat)
    requires st.Valid(h) && k < |st.objs| && st.tags[k] < |st.out| && st.out[st.tags[k]] == if k in st.marked then 6 else 5
    ensures LookupRef(h, st, k) == st.(out := st.out[st.tags[k] := 6], marked := st.marked + {k}, named := st.named + [k])
  {
    hide Extends;
    assert st.out[st.tags[k] := st.out[st.tags[k]]] == st.out;
  }

  // A later reference to a recorded table: its tag is turned if it was not before.
  function NamedAgain(st: Enc, k: nat): Enc
    requires k < |st.tags| && st.tags[k] < |st.out| && k < 255
  {
    st.(out := st.out[st.tags[k] := 6] + [255, 9, k + 1], marked := st.marked + {k}, named := st.named + [k])
  }

  lemma NamedAgainIs(st: Enc, k: nat)
    requires k < |st.tags| && st.tags[k] < |st.out| && k < 255
    ensures var r := NamedAgain(st, k);
      && r.out == st.out[st.tags[k] := 6] + [255, 9, k + 1] && r.marked == st.marked + {k}
      && r.objs == st.objs && r.tags == st.tags
  {
  }

  lemma PackById(h: Heap, st: Enc, o: nat, k: nat)
    requires k < |st.objs| && k < |st.tags| && k < 255 && st.tags[k] < |st.out| && st.objs[k] == o
    requires st.out[st.tags[k]] == if k in st.marked then 6 else 5
    requires ValueOk(h, TableRef(o)) && |st.anc| == 31 && RefAncestor(st, o).None? && HeapOk(h) && st.Valid(h)
    ensures PackOne(h, st, TableRef(o)) == NamedAgain(st, k)
  {
    hide HeapOk, Extends, EncInteger, LookupRef, Encoder.PackOne, Enc.Valid, Distinct;
    DistinctObjs(h, st);
    IndexIs(st.objs, k);
    PackOneCases(h, st, TableRef(o));
    SmallInteger(k + 1);
    LookupIs(h, st, k);
    assert [Tag(TYPE_REF, EXTEND_NUMBER)] + EncInteger(k + 1) == [255, 9, k + 1];
  }

  lemma PackOpen(h: Heap, st: Enc, o: nat, i: nat)
    requires HeapOk(h) && st.Valid(h) && ValueOk(h, TableRef(o)) && |st.anc| == 31 && RefAncestor(st, o) == Some(i)
    ensures PackOne(h, st, TableRef(o)) == Emit(st, [7 + 8 * i])
  {
    hide Encoder.PackOne, HeapOk, Enc.Valid, RefAncestor, Extends;
    PackOneCases(h, st, TableRef(o));
  }

  lemma PackScalarTrue(h: Heap, st: Enc)
    requires HeapOk(h) && st.Valid(h)
    ensures PackOne(h, st, Boolean(true)) == Emit(st, [16])
  {
  }

  lemma PackTwo(h: Heap, st: Enc, a: Value, b: Value)
    requires HeapOk(h) && st.Valid(h) && ValueOk(h, a) && ValueOk(h, b)
    ensures ValuesOk(h, [a, b]) && PackSeq(h, st, [a, b]) == PackOne(h, PackOne(h, st, a), b)
  {
    hide HeapOk, Enc.Valid, Extends, Encoder.PackOne;
    assert [a, b] + [] == [a, b];
    assert ValuesOk(h, [a, b]);
    PackPair(h, st, a, b, []);
  }

  lemma PackFour(h: Heap, st: Enc, a: Value, b: Value, c: Value, d: Value)
    requires HeapOk(h) && st.Valid(h) && ValueOk(h, a) && ValueOk(h, b) && ValueOk(h, c) && ValueOk(h, d)
    ensures ValuesOk(h, [a, b, c, d])
    ensures PackSeq(h, st, [a, b, c, d]) == PackOne(h, PackOne(h, PackOne(h, PackOne(h, st, a), b), c), d)
  {
    hide HeapOk, Enc.Valid, Extends, Encoder.PackOne, PackSeq;
    assert [a, b] + [c, d] == [a, b, c, d];
    assert ValuesOk(h, [a, b, c, d]);
    PackPair(h, st, a, b, [c, d]);
    PackTwo(h, PackOne(h, PackOne(h, st, a), b), c, d);
  }

  // Who is open: the tables at depth 0, 1, ...
  ghost predicate Open(st: Enc, os: seq<nat>) {
    |st.anc| == 31 && st.depth == |os| < 31 && forall i :: 0 <= i < |os| ==> st.anc[i] == os[i]
  }

  lemma {:induction false} OpenHere(st: Enc, os: seq<nat>, o: nat, i: nat, n: nat)
    requires Open(st, os) && i < n <= |os| && os[i] == o && forall j :: i < j < n ==> os[j] != o
    ensures FindAncestor(st.anc, o, n) == Some(i)
    decreases n
  {
    if n - 1 != i {
      OpenHere(st, os, o, i, n - 1);
    }
  }

  lemma NotOpen(st: Enc, os: seq<nat>, o: nat)
    requires Open(st, os) && o !in os
    ensures RefAncestor(st, o).None?
  {
  }

  lemma IsOpen(st: Enc, os: seq<nat>, i: nat)
    requires Open(st, os) && i < |os| && forall j :: i < j < |os| ==> os[j] != os[i]
    ensures RefAncestor(st, os[i]) == Some(i)
  {
    OpenHere(st, os, os[i], i, |os|);
  }

  lemma OpensOne(st: Enc, os: seq<nat>, o: nat)
    requires Open(st, os) && |os| + 1 < 31
    ensures Open(Opened(st, o), os + [o])
    ensures var r := Opened(st, o);
      r.objs == st.objs + [o] && r.tags == st.tags + [|st.out|] && r.out == st.out + [5] && r.marked == st.marked
  {
  }

  lemma Closes(h: Heap, st: Enc, os: seq<nat>, o: nat)
    requires HeapOk(h) && st.Valid(h) && ValueOk(h, TableRef(o)) && Open(st, os)
    ensures Open(PackOne(h, st, TableRef(o)), os)
  {
    hide Encoder.PackOne;
    PackOneKeeps(h, st, TableRef(o));
  }

  lemma PackEmpty(st: Enc, os: seq<nat>, o: nat)
    requires HeapOk(TWINS) && st.Valid(TWINS) && Open(st, os) && (o == 1 || o == 4) && o !in os && o !in st.objs && |os| < 20
    ensures var r := PackOne(TWINS, st, TableRef(o));
      && Open(r, os) && r.out == st.out + [5, 0] && r.objs == st.objs + [o] && r.tags == st.tags + [|st.out|]
      && r.marked == st.marked
  {
    hide *;
    Tables();
    Known(1); Known(2); Known(3); Known(4); Known(5); KnownScalar();
    TableFine(o);
    NotOpen(st, os, o);
    PackItems(TWINS, st, o, []);
    PackNothing(TWINS, Opened(st, o));
    OpensOne(st, os, o);
    Closes(TWINS, st, os, o);
  }

  lemma PackNothing(h: Heap, st: Enc)
    requires HeapOk(h) && st.Valid(h)
    ensures ValuesOk(h, []) && PackSeq(h, st, []) == st
  {
  }

  lemma PackFive(st: Enc, os: seq<nat>)
    requires HeapOk(TWINS) && st.Valid(TWINS) && Open(st, os) && os == [0, 2, 3] && st.objs == [0, 1, 2, 3, 4]
    ensures var r := PackOne(TWINS, st, TableRef(5));
      && Open(r, os) && r.out == st.out + [5, 16, 23, 0] && r.objs == [0, 1, 2, 3, 4, 5] && r.tags == st.tags + [|st.out|]
      && r.marked == st.marked
  {
    hide *;
    Tables();
    Known(1); Known(2); Known(3); Known(4); Known(5); KnownScalar();
    TableFine(5);
    NotOpen(st, os, 5);
    PackItems(TWINS, st, 5, [Boolean(true), TableRef(3)]);
    var s1 := Opened(st, 5);
    OpensOne(st, os, 5);
    PackTwo(TWINS, s1, Boolean(true), TableRef(3));
    PackScalarTrue(TWINS, s1);
    var s2 := Emit(s1, [16]);
    EmitOpen(TWINS, s1, os + [5], [16]);
    OpenSize(s2, os + [5]);
    IsOpen(s2, os + [5], 2);
    PackOpen(TWINS, s2, 3, 2);
    EmitOpen(TWINS, s2, os + [5], [23]);
    Closes(TWINS, st, os, 5);
  }

  lemma EmitOpen(h: Heap, st: Enc, os: seq<nat>, bytes: seq<byte>)
    requires Open(st, os) && st.Valid(h)
    ensures Open(Emit(st, bytes), os) && Emit(st, bytes).Valid(h)
    ensures var r := Emit(st, bytes);
      r.out == st.out + bytes && r.objs == st.objs && r.tags == st.tags && r.marked == st.marked
  {
    EmitKeeps(h, st, bytes);
  }

  lemma OpenSize(st: Enc, os: seq<nat>)
    requires Open(st, os)
    ensures |st.anc| == 31 == MAX_DEPTH
  {
  }

  // Table 3, under its twin
  lemma PackThree(st: Enc, os: seq<nat>)
    requires HeapOk(TWINS) && st.Valid(TWINS) && Open(st, os) && os == [0, 2] && st.objs == [0, 1, 2]
    ensures var r, n := PackOne(TWINS, st, TableRef(3)), |st.out|;
      && Open(r, os) && r.out == st.out + [5, 5, 0, 15, 15, 5, 16, 23, 0, 0] && r.objs == [0, 1, 2, 3, 4, 5]
      && r.tags == st.tags + [n, n + 1, n + 5] && r.marked == st.marked
  {
    hide *;
    Tables();
    Known(1); Known(2); Known(3); Known(4); Known(5);
    TableFine(3);
    NotOpen(st, os, 3);
    PackItems(TWINS, st, 3, [TableRef(4), TableRef(2), TableRef(2), TableRef(5)]);
    var s1, o1 := Opened(st, 3), os + [3];
    OpensOne(st, os, 3);
    PackFour(TWINS, s1, TableRef(4), TableRef(2), TableRef(2), TableRef(5));
    PackEmpty(s1, o1, 4);
    var s2 := PackOne(TWINS, s1, TableRef(4));
    OpenSize(s2, o1);
    IsOpen(s2, o1, 1);
    PackOpen(TWINS, s2, 2, 1);
    var s3 := Emit(s2, [15]);
    EmitOpen(TWINS, s2, o1, [15]);
    OpenSize(s3, o1);
    IsOpen(s3, o1, 1);
    PackOpen(TWINS, s3, 2, 1);
    var s4 := Emit(s3, [15]);
    EmitOpen(TWINS, s3, o1, [15]);
    PackFive(s4, o1);
    Closes(TWINS, st, os, 3);
  }

  // A tag is turned in the middle of what was written.
  lemma Turned(a: seq<byte>, b: seq<byte>, c: seq<byte>, i: nat)
    requires |a| <= i < |a| + |b|
    ensures (a + b + c)[i := 6] == a + b[i - |a| := 6] + c
  {
  }

  // Table 2, with the twin packed in it
  lemma PackSecond(st: Enc, os: seq<nat>)
    requires HeapOk(TWINS) && st.Valid(TWINS) && Open(st, os) && os == [0] && st.objs == [0, 1]
    requires st.tags == [0, 1] && st.marked == {} && st.out == [5, 5, 0]
    ensures var r := PackOne(TWINS, st, TableRef(2));
      && Open(r, os) && r.objs == [0, 1, 2, 3, 4, 5] && r.tags == [0, 1, 3, 7, 8, 12] && r.marked == {1, 3, 5}
      && r.out == [5, 6, 0, 5, 255, 9, 2] + [6, 5, 0, 15, 15, 6, 16, 23, 0, 0] + [255, 9, 4, 255, 9, 6, 0]
  {
    hide *;
    Tables();
    Known(1); Known(2); Known(3); Known(5);
    TableFine(2);
    NotOpen(st, os, 2);
    PackItems(TWINS, st, 2, [TableRef(1), TableRef(3), TableRef(3), TableRef(5)]);
    var s1, o1 := Opened(st, 2), os + [2];
    OpensOne(st, os, 2);
    PackFour(TWINS, s1, TableRef(1), TableRef(3), TableRef(3), TableRef(5));
    var s2 := PackOne(TWINS, s1, TableRef(1));
    ById(s1, o1, 1, 1);
    var first: seq<byte> := [5, 6, 0, 5, 255, 9, 2];
    assert s2.out == first;
    var s3 := PackOne(TWINS, s2, TableRef(3));
    PackThree(s2, o1);
    PackBack(s3, o1);
    Closes(TWINS, st, os, 2);
  }

  // Back in table 2: the twin as a key, and table 5
  lemma PackBack(st: Enc, os: seq<nat>)
    requires HeapOk(TWINS) && st.Valid(TWINS) && Open(st, os) && os == [0, 2] && st.objs == [0, 1, 2, 3, 4, 5]
    requires st.tags == [0, 1, 3, 7, 8, 12] && st.marked == {1}
    requires st.out == [5, 6, 0, 5, 255, 9, 2] + [5, 5, 0, 15, 15, 5, 16, 23, 0, 0]
    requires ValueOk(TWINS, TableRef(3)) && ValueOk(TWINS, TableRef(5))
    ensures var r := PackOne(TWINS, PackOne(TWINS, st, TableRef(3)), TableRef(5));
      && r.objs == st.objs && r.tags == st.tags && r.marked == {1, 3, 5}
      && r.out == [5, 6, 0, 5, 255, 9, 2] + [6, 5, 0, 15, 15, 6, 16, 23, 0, 0] + [255, 9, 4, 255, 9, 6]
  {
    hide *;
    var first: seq<byte> := [5, 6, 0, 5, 255, 9, 2];
    var twin: seq<byte> := [5, 5, 0, 15, 15, 5, 16, 23, 0, 0];
    Turned(first, twin, [], 7);
    var s2 := PackOne(TWINS, st, TableRef(3));
    ById(st, os, 3, 3);
    assert s2.out == first + twin[0 := 6] + [255, 9, 4];
    Turned(first, twin[0 := 6], [255, 9, 4], 12);
    ById(s2, os, 5, 5);
    assert twin[0 := 6][5 := 6] == [6, 5, 0, 15, 15, 6, 16, 23, 0, 0];
  }

  lemma ById(st: Enc, os: seq<nat>, o: nat, k: nat)
    requires HeapOk(TWINS) && st.Valid(TWINS) && ValueOk(TWINS, TableRef(o)) && Open(st, os) && o !in os
    requires k < |st.objs| && k < 255 && st.objs[k] == o && k < |st.tags| && st.tags[k] < |st.out|
    requires st.out[st.tags[k]] == if k in st.marked then 6 else 5
    ensures var r := PackOne(TWINS, st, TableRef(o));
      && Open(r, os) && r.out == st.out[st.tags[k] := 6] + [255, 9, k + 1] && r.marked == st.marked + {k}
      && r.objs == st.objs && r.tags == st.tags
  {
    hide *;
    OpenSize(st, os);
    NotOpen(st, os, o);
    PackById(TWINS, st, o, k);
    NamedAgainIs(st, k);
    Closes(TWINS, st, os, o);
  }

  lemma StartIs()
    ensures START.Valid(TWINS) && Open(START, []) && START.objs == [] && START.tags == [] && START.out == [] && START.marked == {}
  {
  }

  lemma PackAll()
    requires HeapOk(TWINS) && ValuesOk(TWINS, [TableRef(0)])
    ensures Pack(TWINS, [TableRef(0)]).out == PACKED && Pack(TWINS, [TableRef(0)]).objs == [0, 1, 2, 3, 4, 5]
  {
    hide *;
    StartIs();
    Tables();
    Known(0); Known(1); Known(2); Known(3); Known(4);
    TableFine(0);
    NotOpen(START, [], 0);
    PackItems(TWINS, START, 0, [TableRef(1), TableRef(2), TableRef(4), TableRef(3)]);
    var s1, o1 := Opened(START, 0), [0];
    OpensOne(START, [], 0);
    assert [] + [0] == o1;
    PackFour(TWINS, s1, TableRef(1), TableRef(2), TableRef(4), TableRef(3));
    var s2 := PackOne(TWINS, s1, TableRef(1));
    PackEmpty(s1, o1, 1);
    assert s2.out == [5, 5, 0] && s2.tags == [0, 1] && s2.objs == [0, 1];
    PackSecond(s2, o1);
    PackRest(PackOne(TWINS, s2, TableRef(2)), o1);
    PackIs();
  }

  // Back in table 0: the other key and the twin
  lemma PackRest(st: Enc, os: seq<nat>)
    requires HeapOk(TWINS) && st.Valid(TWINS) && Open(st, os) && os == [0] && st.objs == [0, 1, 2, 3, 4, 5]
    requires st.tags == [0, 1, 3, 7, 8, 12] && st.marked == {1, 3, 5}
    requires st.out == [5, 6, 0, 5, 255, 9, 2] + [6, 5, 0, 15, 15, 6, 16, 23, 0, 0] + [255, 9, 4, 255, 9, 6, 0]
    requires ValueOk(TWINS, TableRef(4)) && ValueOk(TWINS, TableRef(3))
    ensures var r := PackOne(TWINS, PackOne(TWINS, st, TableRef(4)), TableRef(3));
      && r.objs == st.objs
      && r.out == [5, 6, 0, 5, 255, 9, 2] + [6, 6, 0, 15, 15, 6, 16, 23, 0, 0] +
                  [255, 9, 4, 255, 9, 6, 0, 255, 9, 5, 255, 9, 4]
  {
    hide *;
    var first: seq<byte> := [5, 6, 0, 5, 255, 9, 2];
    var twin: seq<byte> := [6, 5, 0, 15, 15, 6, 16, 23, 0, 0];
    var last: seq<byte> := [255, 9, 4, 255, 9, 6, 0];
    Turned(first, twin, last, 8);
    var s2 := PackOne(TWINS, st, TableRef(4));
    ById(st, os, 4, 4);
    assert twin[1 := 6] == [6, 6, 0, 15, 15, 6, 16, 23, 0, 0];
    assert s2.out == first + twin[1 := 6] + (last + [255, 9, 5]);
    Turned(first, twin[1 := 6], last + [255, 9, 5], 7);
    assert twin[1 := 6][0 := 6] == twin[1 := 6];
    ById(s2, os, 3, 3);
  }

  lemma PackIs()
    requires HeapOk(TWINS) && ValuesOk(TWINS, [TableRef(0)]) && ValueOk(TWINS, TableRef(0)) && START.Valid(TWINS)
    ensures Pack(TWINS, [TableRef(0)]) == PackOne(TWINS, START, TableRef(0))
    ensures PACKED == [5, 6, 0, 5, 255, 9, 2] + [6, 6, 0, 15, 15, 6, 16, 23, 0, 0] +
      [255, 9, 4, 255, 9, 6, 0, 255, 9, 5, 255, 9, 4] + [0]
  {
    hide Encoder.PackOne, HeapOk, Enc.Valid, TWINS, Extends;
    PackSingle(TWINS, START, TableRef(0));
    assert [255, 9, 4, 255, 9, 6, 0, 255, 9, 5, 255, 9, 4] + [0] == LAST;
  }

  lemma PackSingle(h: Heap, st: Enc, v: Value)
    requires HeapOk(h) && st.Valid(h) && ValueOk(h, v)
    ensures ValuesOk(h, [v]) && PackSeq(h, st, [v]) == PackOne(h, st, v)
  {
    hide HeapOk, Enc.Valid, Extends, Encoder.PackOne;
    var vs := [v];
    assert vs[0] == v && vs[1..] == [];
    assert PackSeq(h, PackOne(h, st, v), []) == PackOne(h, st, v);
  }

  // Unpacking, by the shapes that occur

  lemma ReadNil(f: seq<byte>, d: D.Dec)
    requires d.pos < |f| && |d.anc| == 31 && f[d.pos] == 0
    ensures D.UnpackOne(f, d) == Ok((Nil, d.(pos := d.pos + 1)))
  {
  }

  lemma ReadTrue(f: seq<byte>, d: D.Dec)
    requires d.pos < |f| && |d.anc| == 31 && f[d.pos] == 16
    ensures D.UnpackOne(f, d) == Ok((Boolean(true), d.(pos := d.pos + 1)))
  {
  }

  lemma ReadOpen(f: seq<byte>, d: D.Dec, i: nat)
    requires d.pos < |f| && |d.anc| == 31 && i < d.depth && i < 30 && f[d.pos] == 7 + 8 * i
    ensures D.UnpackOne(f, d) == Ok((D.StackAt(d.stack, d.anc[i]), d.(pos := d.pos + 1)))
  {
    hide D.UnpackTable, D.StackAt, Wire.GetExtendInteger, Wire.UnpackScalar;
    assert (7 + 8 * i) % 8 == 7 && (7 + 8 * i) / 8 == i;
    assert D.UnpackRef(f, d.(pos := d.pos + 1), i) == Ok((D.StackAt(d.stack, d.anc[i]), d.(pos := d.pos + 1)));
  }

  lemma ReadById(f: seq<byte>, d: D.Dec, k: nat)
    requires d.pos + 2 < |f| && |d.anc| == 31 && f[d.pos..d.pos + 3] == [255, 9, k + 1] && k < 255
    requires k + 1 in d.refs && d.refs[k + 1] == k
    ensures D.UnpackOne(f, d) == Ok((TableRef(k), d.(pos := d.pos + 3)))
  {
    hide D.UnpackOne, Wire.GetExtendInteger, EncInteger;
    SmallInteger(k + 1);
    assert f[d.pos + 1..d.pos + 3] == f[d.pos..d.pos + 3][1..] == [9, k + 1];
    ExtendIntegerRoundTrip(f, d.pos + 1, k + 1);
    assert f[d.pos] == f[d.pos..d.pos + 3][0];
    UnpackRefStep(f, d, k, d.pos + 3);
  }

  // A table without an array part, given what its hash part comes to
  lemma ReadTable(f: seq<byte>, d: D.Dec, d3: D.Dec)
    requires d.pos < |f| && |d.anc| == 31 && (f[d.pos] == 5 || f[d.pos] == 6)
    requires D.UnpackHash(f, D.Create(d.(pos := d.pos + 1), f[d.pos]), |d.tables|) == Ok(d3)
    ensures D.UnpackOne(f, d) == Ok((TableRef(|d.tables|), d3.(stack := d.stack)))
  {
    hide D.UnpackHash, D.UnpackOne;
    var d1 := D.Create(d.(pos := d.pos + 1), f[d.pos]);
    var d2 := d1.(depth := d.depth + 1);
    assert D.UnpackArray(f, d2, |d.tables|, 1, 0) == Ok(d2);
    assert d2.(depth := d.depth) == d1;
    UnpackTableSteps(f, d, f[d.pos], 0, d.pos + 1, d2, d3);
  }

  lemma HashEnds(f: seq<byte>, d: D.Dec, id: nat)
    requires d.pos < |f| && |d.anc| == 31 && f[d.pos] == 0 && id < |d.tables|
    ensures D.UnpackHash(f, d, id) == Ok(d.(pos := d.pos + 1))
  {
    hide D.UnpackOne;
    ReadNil(f, d);
  }

  lemma ReadEmpty(f: seq<byte>, d: D.Dec)
    requires d.pos + 1 < |f| && |d.anc| == 31 && (f[d.pos] == 5 || f[d.pos] == 6) && f[d.pos + 1] == 0
    ensures D.UnpackOne(f, d) == Ok((TableRef(|d.tables|), D.Create(d, f[d.pos]).(pos := d.pos + 2, stack := d.stack)))
  {
    hide D.UnpackHash, D.UnpackOne;
    var d1 := D.Create(d.(pos := d.pos + 1), f[d.pos]);
    HashEnds(f, d1, |d.tables|);
    ReadTable(f, d, d1.(pos := d.pos + 2));
  }

  lemma FirstBytes()
    ensures |FIRST| == 7 && FIRST[0] == 5 && FIRST[1] == 6 && FIRST[2] == 0 && FIRST[3] == 5
    ensures FIRST[4] == 255 && FIRST[5] == 9 && FIRST[6] == 2
  {
  }

  lemma TwinBytes()
    ensures |TWIN| == 10 && TWIN[0] == 6 && TWIN[1] == 6 && TWIN[2] == 0 && TWIN[3] == 15 && TWIN[4] == 15
    ensures TWIN[5] == 6 && TWIN[6] == 16 && TWIN[7] == 23 && TWIN[8] == 0 && TWIN[9] == 0
  {
  }

  lemma LastBytes()
    ensures |LAST| == 14 && LAST[0] == 255 && LAST[1] == 9 && LAST[2] == 4 && LAST[3] == 255 && LAST[4] == 9
    ensures LAST[5] == 6 && LAST[6] == 0 && LAST[7] == 255 && LAST[8] == 9 && LAST[9] == 5
    ensures LAST[10] == 255 && LAST[11] == 9 && LAST[12] == 4 && LAST[13] == 0
  {
  }

  lemma Joined(a: seq<byte>, b: seq<byte>, c: seq<byte>, i: nat)
    requires i < |a| + |b| + |c|
    ensures (a + b + c)[i] == if i < |a| then a[i] else if i < |a| + |b| then b[i - |a|] else c[i - |a| - |b|]
  {
  }

  lemma PackedAt(i: nat)
    requires |FIRST| == 7 && |TWIN| == 10 && |LAST| == 14 && i < 31
    ensures |PACKED| == 31 && PACKED[i] == if i < 7 then FIRST[i] else if i < 17 then TWIN[i - 7] else LAST[i - 17]
  {
    hide FIRST, TWIN, LAST;
    Joined(FIRST, TWIN, LAST, i);
  }

  lemma Bytes()
    ensures |PACKED| == 31 && PACKED[0] == 5 && PACKED[1] == 6 && PACKED[2] == 0 && PACKED[3] == 5
    ensures PACKED[4..7] == [255, 9, 2] && PACKED[7] == 6 && PACKED[8] == 6 && PACKED[9] == 0 && PACKED[10] == 15
    ensures PACKED[11] == 15 && PACKED[12] == 6 && PACKED[13] == 16 && PACKED[14] == 23 && PACKED[15] == 0
    ensures PACKED[16] == 0 && PACKED[17..20] == [255, 9, 4] && PACKED[20..23] == [255, 9, 6] && PACKED[23] == 0
    ensures PACKED[24..27] == [255, 9, 5] && PACKED[27..30] == [255, 9, 4] && PACKED[30] == 0
  {
    hide *;
    FirstBytes();
    TwinBytes();
    LastBytes();
    forall i: nat | i < 31
      ensures |PACKED| == 31 && PACKED[i] == if i < 7 then FIRST[i] else if i < 17 then TWIN[i - 7] else LAST[i - 17]
    {
      PackedAt(i);
    }
    Three(PACKED, 4); Three(PACKED, 17); Three(PACKED, 20); Three(PACKED, 24); Three(PACKED, 27);
  }

  lemma Three(f: seq<byte>, i: nat)
    requires i + 2 < |f|
    ensures f[i..i + 3] == [f[i], f[i + 1], f[i + 2]]
  {
  }

  // One entry read and stored
  lemma ReadEntry(f: seq<byte>, d: D.Dec, id: nat, k: Value, d1: D.Dec, v: Value, d2: D.Dec)
    requires d.pos <= |f| && |d.anc| == 31 && id < |d.tables| && k != Nil && v != Nil
    requires D.UnpackOne(f, d) == Ok((k, d1)) && d1.pos <= |f| && |d1.anc| == 31 && d1.stack == d.stack && d1.depth == d.depth
    requires D.UnpackOne(f, D.AtValue(d1, k)) == Ok((v, d2)) && id < |d2.tables| && d2.pos <= |f| && |d2.anc| == 31
    ensures D.UnpackHash(f, d, id) == D.UnpackHash(f,
      d2.(depth := d.depth, stack := d.stack, tables := d2.tables[id := d2.tables[id][k := v]]), id)
  {
    hide D.UnpackOne, D.UnpackHash;
    UnpackHashStep(f, d, id, k, d1, v, d2);
  }

  ghost predicate SameBelow(a: seq<nat>, b: seq<nat>, n: nat) {
    |a| == |b| == 31 && forall i :: 0 <= i < n && i < 31 ==> a[i] == b[i]
  }

  lemma ReadFive(d: D.Dec)
    requires d.pos == 12 && d.depth == 3 && |d.tables| == 5 && |d.anc| == 31
    requires d.anc[2] < |d.stack| && d.stack[d.anc[2]] == TableRef(2)
    ensures D.UnpackOne(PACKED, d).Ok?
    ensures var (w, r) := D.UnpackOne(PACKED, d).value;
      && w == TableRef(5) && r.pos == 16 && r.depth == 3 && r.stack == d.stack && SameBelow(r.anc, d.anc, 3)
      && r.tables == d.tables + [map[Boolean(true) := TableRef(2)]] && r.refs == d.refs[6 := 5]
  {
    hide PACKED, D.UnpackOne, D.UnpackHash;
    Bytes();
    var d1 := D.Create(d.(pos := 13), 6);
    ReadTrue(PACKED, d1);
    var d2 := D.AtValue(d1.(pos := 14), Boolean(true));
    ReadOpen(PACKED, d2, 2);
    assert D.StackAt(d2.stack, d2.anc[2]) == TableRef(2);
    ReadEntry(PACKED, d1, 5, Boolean(true), d1.(pos := 14), TableRef(2), d2.(pos := 15));
    var d3 := d1.(pos := 15, tables := d1.tables[5 := d1.tables[5][Boolean(true) := TableRef(2)]]);
    HashEnds(PACKED, d3, 5);
    ReadTable(PACKED, d, d3.(pos := 16));
  }

  lemma ReadThree(d: D.Dec)
    requires d.pos == 7 && d.depth == 2 && |d.tables| == 3 && |d.anc| == 31
    requires d.anc[1] < |d.stack| && d.stack[d.anc[1]] == TableRef(2)
    ensures D.UnpackOne(PACKED, d).Ok?
    ensures var (w, r) := D.UnpackOne(PACKED, d).value;
      && w == TableRef(3) && r.pos == 17 && r.depth == 2 && r.stack == d.stack && SameBelow(r.anc, d.anc, 2)
      && r.tables == d.tables + [map[TableRef(4) := TableRef(2), TableRef(2) := TableRef(5)], map[], map[Boolean(true) := TableRef(2)]]
      && r.refs == d.refs[4 := 3][5 := 4][6 := 5]
  {
    hide PACKED, D.UnpackOne, D.UnpackHash;
    Bytes();
    var d1 := D.Create(d.(pos := 8), 6);
    ReadEmpty(PACKED, d1);
    var d2 := D.Create(d1, 6).(pos := 10, stack := d1.stack);
    var d3 := D.AtValue(d2, TableRef(4));
    ReadOpen(PACKED, d3, 1);
    assert D.StackAt(d3.stack, d3.anc[1]) == TableRef(2);
    ReadEntry(PACKED, d1, 3, TableRef(4), d2, TableRef(2), d3.(pos := 11));
    var d4 := d2.(pos := 11, tables := d2.tables[3 := map[TableRef(4) := TableRef(2)]]);
    ReadOpen(PACKED, d4, 1);
    assert D.StackAt(d4.stack, d4.anc[1]) == TableRef(2);
    var d5 := D.AtValue(d4.(pos := 12), TableRef(2));
    ReadFive(d5);
    var d6 := D.UnpackOne(PACKED, d5).value.1;
    ReadEntry(PACKED, d4, 3, TableRef(2), d4.(pos := 12), TableRef(5), d6);
    var d7 := d6.(depth := 2, stack := d4.stack, tables := d6.tables[3 := d6.tables[3][TableRef(2) := TableRef(5)]]);
    HashEnds(PACKED, d7, 3);
    ReadTable(PACKED, d, d7.(pos := 17));
  }

  lemma ReadSecond(d: D.Dec)
    requires d.pos == 3 && d.depth == 1 && |d.tables| == 2 && |d.anc| == 31 && d.refs == map[2 := 1]
    ensures D.UnpackOne(PACKED, d).Ok?
    ensures var (w, r) := D.UnpackOne(PACKED, d).value;
      && w == TableRef(2) && r.pos == 24 && r.depth == 1 && r.stack == d.stack && SameBelow(r.anc, d.anc, 1)
      && r.tables == d.tables + [
        map[TableRef(1) := TableRef(3), TableRef(3) := TableRef(5)],
        map[TableRef(4) := TableRef(2), TableRef(2) := TableRef(5)], map[], map[Boolean(true) := TableRef(2)]]
      && r.refs == map[2 := 1, 4 := 3, 5 := 4, 6 := 5]
  {
    hide PACKED, D.UnpackOne, D.UnpackHash;
    Bytes();
    var d1 := D.Create(d.(pos := 4), 5);
    ReadById(PACKED, d1, 1);
    var d2 := d1.(pos := 7);
    var d3 := D.AtValue(d2, TableRef(1));
    ReadThree(d3);
    var d4 := D.UnpackOne(PACKED, d3).value.1;
    ReadEntry(PACKED, d1, 2, TableRef(1), d2, TableRef(3), d4);
    var d5 := d4.(depth := 1, stack := d1.stack, tables := d4.tables[2 := d4.tables[2][TableRef(1) := TableRef(3)]]);
    ReadById(PACKED, d5, 3);
    var d6 := D.AtValue(d5.(pos := 20), TableRef(3));
    ReadById(PACKED, d6, 5);
    ReadEntry(PACKED, d5, 2, TableRef(3), d5.(pos := 20), TableRef(5), d6.(pos := 23));
    var d7 := d5.(pos := 23, tables := d5.tables[2 := d5.tables[2][TableRef(3) := TableRef(5)]]);
    HashEnds(PACKED, d7, 2);
    ReadTable(PACKED, d, d7.(pos := 24));
  }

  // The second entry of table 0
  lemma ReadRest(d: D.Dec, r: D.Dec)
    requires d.pos == 24 && d.depth == 0 && |d.tables| == 6 && |d.anc| == 31 && d.refs == map[2 := 1, 4 := 3, 5 := 4, 6 := 5]
    requires r == d.(pos := 31, tables := d.tables[0 := d.tables[0][TableRef(4) := TableRef(3)]])
    ensures D.UnpackHash(PACKED, d, 0) == Ok(r)
  {
    hide PACKED, D.UnpackOne, D.UnpackHash;
    Bytes();
    ReadById(PACKED, d, 4);
    var d6 := D.AtValue(d.(pos := 27), TableRef(4));
    ReadById(PACKED, d6, 3);
    ReadEntry(PACKED, d, 0, TableRef(4), d.(pos := 27), TableRef(3), d6.(pos := 30));
    var d7 := d.(pos := 30, tables := d.tables[0 := d.tables[0][TableRef(4) := TableRef(3)]]);
    HashEnds(PACKED, d7, 0);
  }

  lemma ReadFirst(d: D.Dec)
    requires d.pos == 0 && d.depth == 0 && |d.tables| == 0 && |d.anc| == 31 && d.refs == map[]
    ensures D.UnpackOne(PACKED, d).Ok?
    ensures var (w, r) := D.UnpackOne(PACKED, d).value;
      && w == TableRef(0) && r.pos == 31 && r.depth == 0 && r.stack == d.stack && |r.anc| == 31
      && r.tables == [
        map[TableRef(1) := TableRef(2), TableRef(4) := TableRef(3)], map[],
        map[TableRef(1) := TableRef(3), TableRef(3) := TableRef(5)],
        map[TableRef(4) := TableRef(2), TableRef(2) := TableRef(5)], map[], map[Boolean(true) := TableRef(2)]]
  {
    hide PACKED, D.UnpackOne, D.UnpackHash;
    Bytes();
    var d1 := D.Create(d.(pos := 1), 5);
    ReadEmpty(PACKED, d1);
    var d2 := D.Create(d1, 6).(pos := 3, stack := d1.stack);
    var d3 := D.AtValue(d2, TableRef(1));
    ReadSecond(d3);
    var d4 := D.UnpackOne(PACKED, d3).value.1;
    ReadEntry(PACKED, d1, 0, TableRef(1), d2, TableRef(2), d4);
    var d5 := d4.(depth := 0, stack := d1.stack, tables := d4.tables[0 := map[TableRef(1) := TableRef(2)]]);
    var d6 := d5.(pos := 31, tables := d5.tables[0 := d5.tables[0][TableRef(4) := TableRef(3)]]);
    ReadRest(d5, d6);
    ReadTable(PACKED, d, d6);
  }

  lemma ReadAll()
    ensures D.Unpack(PACKED).Ok?
    ensures D.Unpack(PACKED).value.0 == [TableRef(0)] && D.Unpack(PACKED).value.1.tables == DECODED
  {
    hide PACKED, D.UnpackOne;
    Bytes();
    ReadFirst(D.START);
    UnpackAllStep(PACKED, D.START);
  }

  // The order they were packed in pairs 5 with a table that refers to the other twin; with
  // the twins swapped every table has its copy.
  lemma TwinsAreSwapped()
    ensures HeapOk(TWINS) && ValuesOk(TWINS, [TableRef(0)]) && GoesAstray(TWINS, [TableRef(0)])
    ensures D.Unpack(Pack(TWINS, [TableRef(0)]).out).Ok?
    ensures var (ws, d) := D.Unpack(Pack(TWINS, [TableRef(0)]).out).value;
      && !Isomorphic(TWINS, [TableRef(0)], Pack(TWINS, [TableRef(0)]).objs, ws, d.tables)
      && Isomorphic(TWINS, [TableRef(0)], [0, 4, 3, 2, 1, 5], ws, d.tables)
  {
    hide *;
    HeapFine();
    PackAll();
    ReadAll();
    InOrderDiffers();
    SwappedAgrees();
    Messages.RoundTripExactly(TWINS, [TableRef(0)]);
  }

  lemma Decoded()
    ensures |DECODED| == 6 && DECODED[1] == map[] && DECODED[4] == map[]
    ensures DECODED[0] == map[TableRef(1) := TableRef(2), TableRef(4) := TableRef(3)]
    ensures DECODED[2] == map[TableRef(1) := TableRef(3), TableRef(3) := TableRef(5)]
    ensures DECODED[3] == map[TableRef(4) := TableRef(2), TableRef(2) := TableRef(5)]
    ensures DECODED[5] == map[Boolean(true) := TableRef(2)]
  {
  }

  lemma InOrderDiffers()
    ensures !Isomorphic(TWINS, [TableRef(0)], [0, 1, 2, 3, 4, 5], [TableRef(0)], DECODED)
  {
    hide TWINS, DECODED, Filled, Image;
    Tables();
    Decoded();
    var objs := [0, 1, 2, 3, 4, 5];
    if Isomorphic(TWINS, [TableRef(0)], objs, [TableRef(0)], DECODED) {
      assert TableCorr(objs, TWINS[objs[5]], DECODED[5]);
      WrongOne(objs, Boolean(true), TableRef(3), TableRef(2));
    }
  }

  lemma WrongOne(objs: seq<nat>, k: Value, v: Value, w: Value)
    requires Distinct(objs) && !k.TableRef? && !Corr(objs, v, w)
    ensures !TableCorr(objs, One(k, v), map[k := w])
  {
    CorrIsImage(objs, v, w);
    var t, m := One(k, v), map[k := w];
    assert k in t.entries.Keys && Image(objs, k) == k;
  }

  lemma TwoCorr(objs: seq<nat>, a: Value, v: Value, b: Value, w: Value, a': Value, v': Value, b': Value, w': Value)
    requires Distinct(objs) && a != b && Nil !in {a, v, b, w}
    requires Corr(objs, a, a') && Corr(objs, v, v') && Corr(objs, b, b') && Corr(objs, w, w')
    ensures TableCorr(objs, Two(a, v, b, w), map[a' := v', b' := w'])
  {
    hide Filled, Corr;
    var t := Two(a, v, b, w);
    NoneFilled(objs, t);
    FillOne(objs, t, map[], {}, a, a', v');
    FillOne(objs, t, D.RawSet(map[], a', v'), {} + {a}, b, b', w');
    assert {} + {a} + {b} == t.entries.Keys;
    NeverNil(objs, v, v');
    NeverNil(objs, w, w');
    assert map[a' := v'][b' := w'] == map[a' := v', b' := w'];
  }

  lemma OneCorr(objs: seq<nat>, a: Value, v: Value, a': Value, v': Value)
    requires Distinct(objs) && Nil !in {a, v} && Corr(objs, a, a') && Corr(objs, v, v')
    ensures TableCorr(objs, One(a, v), map[a' := v'])
  {
    hide Filled, Corr;
    NoneFilled(objs, One(a, v));
    FillOne(objs, One(a, v), map[], {}, a, a', v');
    assert {} + {a} == One(a, v).entries.Keys;
    NeverNil(objs, v, v');
  }

  lemma NeverNil(objs: seq<nat>, v: Value, w: Value)
    requires Corr(objs, v, w) && v != Nil
    ensures w != Nil
  {
  }

  lemma NoneFilled(objs: seq<nat>, t: LuaTable)
    ensures Filled(objs, t, map[], {})
  {
  }

  lemma SwappedAgrees()
    ensures Isomorphic(TWINS, [TableRef(0)], [0, 4, 3, 2, 1, 5], [TableRef(0)], DECODED)
  {
    hide TWINS, DECODED, Filled;
    Tables();
    Decoded();
    var objs := [0, 4, 3, 2, 1, 5];
    TwoCorr(objs, TableRef(1), TableRef(2), TableRef(4), TableRef(3), TableRef(4), TableRef(3), TableRef(1), TableRef(2));
    assert map[TableRef(4) := TableRef(3), TableRef(1) := TableRef(2)] == DECODED[0];
    TwoCorr(objs, TableRef(4), TableRef(2), TableRef(2), TableRef(5), TableRef(1), TableRef(3), TableRef(3), TableRef(5));
    TwoCorr(objs, TableRef(1), TableRef(3), TableRef(3), TableRef(5), TableRef(4), TableRef(2), TableRef(2), TableRef(5));
    OneCorr(objs, Boolean(true), TableRef(3), Boolean(true), TableRef(2));
    NoneFilled(objs, NOTHING);
    assert NOTHING.entries.Keys == {};
    forall k | 0 <= k < 6 ensures TableCorr(objs, TWINS[objs[k]], DECODED[k]) {
    }
  }
}
