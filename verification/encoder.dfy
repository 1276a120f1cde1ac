// The graph encoder on values: what a write_block holds, and how pack_one
// changes it. The imperative writer is proved against these functions.
module Encoder {
  import opened Wire
  import opened Graph

  // out      the bytes so far
  // depth    s.depth; anc: s.ancestor, the open table at each depth
  // objs     the tables met, in creation order (id k + 1 is objs[k])
  // tags     where the tag byte of each of them lies in out
  // marked   the indices whose recorded address change_mark has consumed
  // named    the indices by-id references have named, in order of emission
  datatype Enc = Enc(
    out: seq<byte>, depth: nat, anc: seq<nat>,
    objs: seq<nat>, tags: seq<nat>, marked: set<nat>, named: seq<nat>)
  {
    ghost predicate Valid(h: Heap) {
      && |anc| == MAX_DEPTH
      && Distinct(objs)
      && (forall o :: o in objs ==> o in h)
      && |tags| == |objs|
      && (forall j, k :: 0 <= j < k < |tags| ==> tags[j] < tags[k])
      && (forall k :: 0 <= k < |tags| ==> tags[k] < |out|)
      && (forall k :: 0 <= k < |tags| ==> out[tags[k]] % 8 == MarkType(k, marked))
      && (forall k :: k in marked <==> k in named)
      && (forall k :: k in marked ==> k < |objs|)
    }
  }

  function MarkType(k: nat, marked: set<nat>): int {
    if k in marked then TYPE_TABLE_MARK else TYPE_TABLE
  }

  const START := Enc([], 0, ZEROS, [], [], {}, [])

  const ZEROS: seq<nat> := [0, 0, 0, 0, 0, 0, 0, 0, 0, 0, 0, 0, 0, 0, 0, 0, 0, 0, 0, 0, 0, 0, 0, 0, 0, 0, 0, 0, 0, 0, 0]

  // The tables not met yet: what bounds the recursion on a cyclic graph.
  ghost function Unmet(h: Heap, st: Enc): set<nat> {
    h.Keys - (set o | o in st.objs)
  }

  // st packed further: nothing already written changes, except the type bits
  // of tag bytes.
  ghost predicate Extends(st: Enc, r: Enc) {
    && r.depth == st.depth
    && st.objs <= r.objs && st.tags <= r.tags && st.marked <= r.marked
    && |st.out| <= |r.out|
    && (forall k :: |st.tags| <= k < |r.tags| ==> |st.out| <= r.tags[k])
    && (forall p :: 0 <= p < |st.out| ==> r.out[p] / 8 == st.out[p] / 8)
    && (forall p :: 0 <= p < |st.out| && p !in st.tags ==> r.out[p] == st.out[p])
    && (forall i :: 0 <= i < st.depth && i < |st.anc| == |r.anc| ==> r.anc[i] == st.anc[i])
  }

  lemma ExtendsTransitive(a: Enc, b: Enc, c: Enc)
    requires Extends(a, b) && Extends(b, c) && |a.anc| == |b.anc| == |c.anc|
    ensures Extends(a, c)
  {
    forall p | 0 <= p < |a.out| && p !in a.tags
      ensures c.out[p] == a.out[p]
    {
      assert p !in b.tags;
    }
    forall k | |a.tags| <= k < |c.tags|
      ensures |a.out| <= c.tags[k]
    {
      if k < |b.tags| {
        assert c.tags[k] == b.tags[k];
      }
    }
  }

  function Emit(st: Enc, bytes: seq<byte>): Enc {
    st.(out := st.out + bytes)
  }

  // ref_ancestor's search, from the innermost open table outwards.
  function FindAncestor(anc: seq<nat>, o: nat, n: nat): (r: Option<nat>)
    requires n <= |anc|
    ensures r.Some? ==> r.value < n && anc[r.value] == o
    ensures r.None? ==> o !in anc[..n]
  {
    if n == 0 then None
    else if anc[n - 1] == o then Some(n - 1)
    else FindAncestor(anc, o, n - 1)
  }

  function RefAncestor(st: Enc, o: nat): (r: Option<nat>)
    requires |st.anc| == MAX_DEPTH
    ensures r.Some? ==> r.value < st.depth && r.value <= 29 && st.anc[r.value] == o
  {
    if st.depth == 0 || st.depth >= MAX_DEPTH then None else FindAncestor(st.anc, o, st.depth)
  }

  function IndexOf(objs: seq<nat>, o: nat): (r: Option<nat>)
    ensures r.Some? ==> r.value < |objs| && objs[r.value] == o
    ensures r.Some? <==> o in objs
  {
    if objs == [] then None
    else if objs[0] == o then Some(0)
    else match IndexOf(objs[1..], o)
      case None => None
      case Some(k) => Some(k + 1)
  }

  lemma {:induction false} DistinctCount(objs: seq<nat>, keys: set<nat>)
    requires Distinct(objs) && forall o :: o in objs ==> o in keys
    ensures |objs| <= |keys|
  {
    if objs != [] {
      var last := |objs| - 1;
      DistinctCount(objs[..last], keys - {objs[last]});
    }
  }

  // lookup_ref on a recorded table: patch its tag byte unless that was done
  // before.
  function LookupRef(h: Heap, st: Enc, k: nat): (r: Enc)
    requires st.Valid(h) && k < |st.objs|
    ensures r.Valid(h) && Extends(st, r) && r.objs == st.objs && |r.out| == |st.out| && k in r.marked
  {
    var patched := if k in st.marked then st.out
                   else st.out[st.tags[k] := Tag(TYPE_TABLE_MARK, st.out[st.tags[k]] / 8)];
    st.(out := patched, marked := st.marked + {k}, named := st.named + [k])
  }

  // ref_object on a recorded table.
  function RefObject(h: Heap, st: Enc, k: nat): (r: Enc)
    requires HeapOk(h) && st.Valid(h) && k < |st.objs|
    ensures r.Valid(h) && Extends(st, r) && r.objs == st.objs
  {
    DistinctCount(st.objs, h.Keys);
    var found := LookupRef(h, st, k);
    var bytes := [Tag(TYPE_REF, EXTEND_NUMBER)] + EncInteger(k + 1);
    EmitKeeps(h, found, bytes);
    ExtendsTransitive(st, found, Emit(found, bytes));
    Emit(found, bytes)
  }

  function Header(n: nat): (r: seq<byte>)
    requires n < INT_LIMIT
    ensures |r| > 0 && r[0] % 8 == TYPE_TABLE
  {
    if n >= EXTEND_NUMBER then [Tag(TYPE_TABLE, EXTEND_NUMBER)] + EncInteger(n)
    else [Tag(TYPE_TABLE, n)]
  }

  // mark_table and the header wb_table_array writes.
  function OpenTable(h: Heap, st: Enc, o: nat, n: nat): (r: Enc)
    requires st.Valid(h) && o in h && o !in st.objs && n < INT_LIMIT
    ensures r.Valid(h) && Extends(st, r) && r.objs == st.objs + [o]
  {
    st.(objs := st.objs + [o], tags := st.tags + [|st.out|], out := st.out + Header(n))
  }

  function Enter(st: Enc, o: nat): Enc {
    st.(depth := st.depth + 1,
        anc := if st.depth < |st.anc| then st.anc[st.depth := o] else st.anc)
  }

  function PackOne(h: Heap, st: Enc, v: Value): (r: Enc)
    requires HeapOk(h) && st.Valid(h) && ValueOk(h, v)
    ensures r.Valid(h) && Extends(st, r)
    decreases Unmet(h, st), 1, 0
  {
    match v
    case TableRef(o) =>
      (match RefAncestor(st, o)
       case Some(i) =>
         EmitKeeps(h, st, [Tag(TYPE_REF, i)]);
         Emit(st, [Tag(TYPE_REF, i)])
       case None =>
         match IndexOf(st.objs, o)
         case Some(k) => RefObject(h, st, k)
         case None =>
           EnterKeeps(h, st, o);
           var inner := PackTable(h, Enter(st, o), o);
           LeaveKeeps(h, st, o, inner);
           inner.(depth := st.depth))
    case _ =>
      EmitKeeps(h, st, EncScalar(v));
      Emit(st, EncScalar(v))
  }

  // wb_table
  function PackTable(h: Heap, st: Enc, o: nat): (r: Enc)
    requires HeapOk(h) && st.Valid(h) && o in h && o !in st.objs
    ensures r.Valid(h) && Extends(st, r)
    decreases Unmet(h, st), 0, 0
  {
    ItemsOk(h, h[o]);
    var st1 := OpenTable(h, st, o, h[o].objlen);
    OpeningMeets(h, st, o);
    var st2 := PackSeq(h, st1, ArrayItems(h[o]));
    UnmetShrinks(h, st1, st2);
    var st3 := PackSeq(h, st2, ItemsOf(h[o]));
    ClosingKeeps(h, st, st1, st2, st3);
    Emit(st3, EncScalar(Nil))
  }

  lemma OpeningMeets(h: Heap, st: Enc, o: nat)
    requires HeapOk(h) && st.Valid(h) && o in h && o !in st.objs
    ensures Unmet(h, OpenTable(h, st, o, h[o].objlen)) < Unmet(h, st)
  {
    assert o in Unmet(h, st);
    assert Unmet(h, OpenTable(h, st, o, h[o].objlen)) == Unmet(h, st) - {o};
  }

  lemma EnterKeeps(h: Heap, st: Enc, o: nat)
    requires st.Valid(h)
    ensures Enter(st, o).Valid(h) && Unmet(h, Enter(st, o)) == Unmet(h, st)
  {
  }

  lemma LeaveKeeps(h: Heap, st: Enc, o: nat, inner: Enc)
    requires st.Valid(h) && inner.Valid(h) && Extends(Enter(st, o), inner)
    ensures inner.(depth := st.depth).Valid(h) && Extends(st, inner.(depth := st.depth))
  {
    var slots := Enter(st, o).anc;
    assert forall i :: 0 <= i < st.depth && i < MAX_DEPTH ==> slots[i] == st.anc[i];
  }

  lemma EmitKeeps(h: Heap, st: Enc, bytes: seq<byte>)
    requires st.Valid(h)
    ensures Emit(st, bytes).Valid(h) && Extends(st, Emit(st, bytes))
  {
  }

  lemma ClosingKeeps(h: Heap, st: Enc, st1: Enc, st2: Enc, st3: Enc)
    requires st.Valid(h) && st1.Valid(h) && st2.Valid(h) && st3.Valid(h)
    requires Extends(st, st1) && Extends(st1, st2) && Extends(st2, st3)
    ensures Emit(st3, EncScalar(Nil)).Valid(h) && Extends(st, Emit(st3, EncScalar(Nil)))
  {
    EmitKeeps(h, st3, EncScalar(Nil));
    ExtendsTransitive(st, st1, st2);
    ExtendsTransitive(st, st2, st3);
    ExtendsTransitive(st, st3, Emit(st3, EncScalar(Nil)));
  }

  function PackSeq(h: Heap, st: Enc, vs: seq<Value>): (r: Enc)
    requires HeapOk(h) && st.Valid(h) && ValuesOk(h, vs)
    ensures r.Valid(h) && Extends(st, r)
    decreases Unmet(h, st), 2, |vs|
  {
    if vs == [] then st
    else
      var st1 := PackOne(h, st, vs[0]);
      UnmetShrinks(h, st, st1);
      var st2 := PackSeq(h, st1, vs[1..]);
      ExtendsTransitive(st, st1, st2);
      st2
  }

  lemma UnmetShrinks(h: Heap, st: Enc, r: Enc)
    requires Extends(st, r)
    ensures st.objs <= r.objs && Unmet(h, r) <= Unmet(h, st)
  {
  }

  lemma PackPair(h: Heap, st: Enc, k: Value, v: Value, rest: seq<Value>)
    requires HeapOk(h) && st.Valid(h) && ValuesOk(h, [k, v] + rest)
    ensures ValueOk(h, k) && ValueOk(h, v) && ValuesOk(h, rest)
    ensures PackSeq(h, st, [k, v] + rest) == PackSeq(h, PackOne(h, PackOne(h, st, k), v), rest)
  {
    var vs := [k, v] + rest;
    assert vs[0] == k && vs[1..][0] == v && vs[1..][1..] == rest;
    assert k in vs && v in vs;
  }

  // pack_from
  function Pack(h: Heap, args: seq<Value>): (r: Enc)
    requires HeapOk(h) && ValuesOk(h, args)
    ensures r.Valid(h) && r.depth == 0
  {
    PackSeq(h, START, args)
  }
}
