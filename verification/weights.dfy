// What a packed message weighs. Whatever the order and the values bytes are read with, an
// entry of a table costs a key and a value: the tags of a message bound how many entries
// decoding can leave, and a packed message has just the tags for the entries it was made of.
module Weights {
  import opened Wire
  import opened Graph
  import opened Encoder
  import opened Decoder
  import opened RoundTrip
  import Misdirection

  // Where one tag and what belongs to it end, and what it weighs: an entry takes two, so that
  // a value counts one, nil takes one away, and a table pays for itself and for its array part.
  function Token(f: seq<byte>, pos: nat): (r: Option<(nat, int)>)
    requires pos < |f|
    ensures r.Some? ==> pos < r.value.0 <= |f|
  {
    var t, cookie := f[pos] % 8, f[pos] / 8;
    if t == TYPE_TABLE || t == TYPE_TABLE_MARK then
      match TableSize(f, pos + 1, cookie)
      case Ok((n, p)) => Some((p, 2 + if n > 0 then n else 0))
      case Err(_) => None
    else if t == TYPE_REF then
      if cookie != EXTEND_NUMBER then Some((pos + 1, 1))
      else
        match GetExtendInteger(f, pos + 1)
        case Ok((_, p)) => Some((p, 1))
        case Err(_) => None
    else
      match UnpackScalar(f, pos + 1, t, cookie)
      case Ok((v, p)) => Some((p, if v == Nil then -1 else 1))
      case Err(_) => None
  }

  // All that from pos on
  function Weight(f: seq<byte>, pos: nat): int
    decreases |f| - pos
  {
    if pos >= |f| then 0
    else
      match Token(f, pos)
      case None => 0
      case Some((p, w)) => w + Weight(f, p)
  }

  // How many entries the tables hold
  function Stored(tables: seq<Contents>): nat {
    if tables == [] then 0 else Stored(tables[..|tables| - 1]) + |tables[|tables| - 1]|
  }

  function One(w: Value): nat {
    if w == Nil then 0 else 1
  }

  function Ones(ws: seq<Value>): nat {
    if ws == [] then 0 else One(ws[0]) + Ones(ws[1..])
  }

  lemma StoredMore(tables: seq<Contents>, m: Contents)
    ensures Stored(tables + [m]) == Stored(tables) + |m|
  {
    assert (tables + [m])[..|tables|] == tables;
  }

  lemma {:induction false} StoredSet(tables: seq<Contents>, id: nat, m: Contents)
    requires id < |tables|
    ensures Stored(tables[id := m]) == Stored(tables) - |tables[id]| + |m|
    decreases |tables|
  {
    var last := |tables| - 1;
    if id == last {
      assert tables[id := m][..last] == tables[..last];
    } else {
      StoredSet(tables[..last], id, m);
      assert tables[id := m][..last] == tables[..last][id := m];
    }
  }

  // A store adds one entry at most, and that only under a new key; nil adds none.
  lemma StoreAdds(d: Dec, id: nat, c: Value, w: Value)
    requires id < |d.tables|
    ensures Stored(Assign(d, id, c, w).tables) <= Stored(d.tables) + One(w)
    ensures c in d.tables[id] ==> Stored(Assign(d, id, c, w).tables) < Stored(d.tables) + One(w)
  {
    var m := d.tables[id];
    StoredSet(d.tables, id, RawSet(m, c, w));
    Misdirection.RawSetSize(m, c, w);
    if w == Nil && c in m {
      assert (m - {c}).Keys + {c} == m.Keys;
    }
  }

  // On any bytes

  // How much of the weight read by unpack_one is left unused
  function SlackOne(f: seq<byte>, d: Dec): int
    requires d.pos <= |f| && |d.anc| == MAX_DEPTH && UnpackOne(f, d).Ok?
  {
    var (w, r) := UnpackOne(f, d).value;
    Weight(f, d.pos) - Weight(f, r.pos) + 1 - 2 * (Stored(r.tables) - Stored(d.tables)) - 2 * One(w)
  }

  function SlackArray(f: seq<byte>, d: Dec, id: nat, i: nat, n: int): int
    requires d.pos <= |f| && |d.anc| == MAX_DEPTH && id < |d.tables| && UnpackArray(f, d, id, i, n).Ok?
  {
    var r := UnpackArray(f, d, id, i, n).value;
    Weight(f, d.pos) - Weight(f, r.pos) + (if i <= n then n + 1 - i else 0) - 2 * (Stored(r.tables) - Stored(d.tables))
  }

  function SlackHash(f: seq<byte>, d: Dec, id: nat): int
    requires d.pos <= |f| && |d.anc| == MAX_DEPTH && id < |d.tables| && UnpackHash(f, d, id).Ok?
  {
    var r := UnpackHash(f, d, id).value;
    Weight(f, d.pos) - Weight(f, r.pos) + 1 - 2 * (Stored(r.tables) - Stored(d.tables))
  }

  function SlackAll(f: seq<byte>, d: Dec): int
    requires d.pos <= |f| && |d.anc| == MAX_DEPTH && UnpackAll(f, d).Ok?
  {
    var (ws, r) := UnpackAll(f, d).value;
    Weight(f, d.pos) + |ws| - 2 * (Stored(r.tables) - Stored(d.tables)) - 2 * Ones(ws)
  }

  // A reference, or a scalar, is worth what it weighs.
  lemma SlackLeaf(f: seq<byte>, d: Dec)
    requires d.pos <= |f| && |d.anc| == MAX_DEPTH && UnpackOne(f, d).Ok?
    requires f[d.pos] % 8 != TYPE_TABLE && f[d.pos] % 8 != TYPE_TABLE_MARK
    ensures SlackOne(f, d) == if f[d.pos] % 8 == TYPE_REF && UnpackOne(f, d).value.0 == Nil then 2 else 0
  {
    hide Wire.GetExtendInteger, Wire.UnpackScalar, Stored;
  }

  // A table is its array part and its hash part.
  lemma SlackTable(f: seq<byte>, d: Dec)
    requires d.pos < |f| && |d.anc| == MAX_DEPTH && UnpackOne(f, d).Ok?
    requires f[d.pos] % 8 == TYPE_TABLE || f[d.pos] % 8 == TYPE_TABLE_MARK
    ensures TableSize(f, d.pos + 1, f[d.pos] / 8).Ok?
    ensures var (n, p) := TableSize(f, d.pos + 1, f[d.pos] / 8).value;
      var d1 := Create(d.(pos := p), f[d.pos] % 8).(depth := d.depth + 1);
      && UnpackArray(f, d1, |d.tables|, 1, n).Ok?
      && var d2 := UnpackArray(f, d1, |d.tables|, 1, n).value;
         && |d2.anc| == MAX_DEPTH && d2.pos <= |f| && |d.tables| < |d2.tables|
         && UnpackHash(f, d2.(depth := d.depth), |d.tables|).Ok?
         && SlackOne(f, d) == SlackArray(f, d1, |d.tables|, 1, n) + SlackHash(f, d2.(depth := d.depth), |d.tables|)
  {
    hide UnpackArray, UnpackHash, TableSize, Stored;
    var t, cookie, dp := f[d.pos] % 8, f[d.pos] / 8, d.(pos := d.pos + 1);
    assert UnpackOne(f, d) == UnpackTable(f, dp, cookie, t);
    var (n, p) := TableSize(f, d.pos + 1, cookie).value;
    assert dp.(pos := p) == d.(pos := p);
    StoredMore(d.tables, map[]);
  }

  lemma SlackItem(f: seq<byte>, d: Dec, id: nat, i: nat, n: int)
    requires d.pos <= |f| && |d.anc| == MAX_DEPTH && id < |d.tables| && i <= n && UnpackArray(f, d, id, i, n).Ok?
    ensures UnpackOne(f, d).Ok?
    ensures var (w, d1) := UnpackOne(f, d).value;
      && id < |d1.tables| && d1.pos <= |f| && |d1.anc| == MAX_DEPTH && d1.tables[id] == d.tables[id]
      && var c := Number(IntegerToDouble(i));
         var d2 := Assign(d1, id, c, w);
         && UnpackArray(f, d2, id, i + 1, n).Ok? && UnpackArray(f, d, id, i, n) == UnpackArray(f, d2, id, i + 1, n)
         && SlackArray(f, d, id, i, n) >= SlackOne(f, d) + SlackArray(f, d2, id, i + 1, n)
         && (c in d.tables[id] ==> SlackArray(f, d, id, i, n) > SlackOne(f, d) + SlackArray(f, d2, id, i + 1, n))
  {
    hide UnpackOne, Stored, Weight, Assign;
    Misdirection.UnpackArrayFails(f, d, id, i, n);
    var (w, d1) := UnpackOne(f, d).value;
    Misdirection.OneKeepsTables(f, d, id);
    UnpackArrayStep(f, d, id, i, n);
    var c := Number(IntegerToDouble(i));
    StoreAdds(d1, id, c, w);
    Misdirection.AssignOne(d1, id, c, w);
  }

  // The nil that ends a hash part
  lemma SlackEnd(f: seq<byte>, d: Dec, id: nat)
    requires d.pos <= |f| && |d.anc| == MAX_DEPTH && id < |d.tables| && UnpackHash(f, d, id).Ok?
    requires UnpackOne(f, d).Ok? && UnpackOne(f, d).value.0 == Nil
    ensures SlackHash(f, d, id) == SlackOne(f, d)
  {
    hide UnpackOne, Stored, Weight;
    Misdirection.KeyFails(f, d, id);
  }

  lemma SlackEntry(f: seq<byte>, d: Dec, id: nat)
    requires d.pos <= |f| && |d.anc| == MAX_DEPTH && id < |d.tables| && UnpackHash(f, d, id).Ok?
    requires UnpackOne(f, d).Ok? && UnpackOne(f, d).value.0 != Nil
    ensures var (c, d1) := UnpackOne(f, d).value;
      && d1.pos <= |f| && |d1.anc| == MAX_DEPTH && UnpackOne(f, AtValue(d1, c)).Ok?
      && var (w, d2) := UnpackOne(f, AtValue(d1, c)).value;
         && id < |d2.tables| && d2.tables[id] == d.tables[id]
         && var d3 := Assign(d2.(depth := d.depth, stack := d.stack), id, c, w);
            && d3.pos <= |f| && |d3.anc| == MAX_DEPTH && id < |d3.tables| && UnpackHash(f, d3, id).Ok?
            && UnpackHash(f, d, id) == UnpackHash(f, d3, id) && d.pos < d3.pos
            && SlackHash(f, d, id) >= SlackOne(f, d) + SlackOne(f, AtValue(d1, c)) + SlackHash(f, d3, id)
            && (c in d.tables[id] ==>
                  SlackHash(f, d, id) > SlackOne(f, d) + SlackOne(f, AtValue(d1, c)) + SlackHash(f, d3, id))
  {
    hide UnpackOne, Stored, Weight, Assign, AtValue;
    Misdirection.KeyFails(f, d, id);
    Misdirection.OneKeepsTables(f, d, id);
    var (c, d1) := UnpackOne(f, d).value;
    Misdirection.AtValueIs(d1, c);
    AtValuePos(d1, c);
    var (w, d2) := UnpackOne(f, AtValue(d1, c)).value;
    Misdirection.OneKeepsTables(f, AtValue(d1, c), id);
    UnpackHashStep(f, d, id, c, d1, w, d2);
    var e := d2.(depth := d.depth, stack := d.stack);
    StoreAdds(e, id, c, w);
    Misdirection.AssignOne(e, id, c, w);
  }

  lemma AtValuePos(d: Dec, c: Value)
    ensures AtValue(d, c).pos == d.pos && AtValue(d, c).tables == d.tables && AtValue(d, c).anc == d.anc
  {
  }

  // No bytes yield more entries than they pay for.

  lemma {:induction false} BoundOne(f: seq<byte>, d: Dec)
    requires d.pos <= |f| && |d.anc| == MAX_DEPTH && UnpackOne(f, d).Ok?
    ensures SlackOne(f, d) >= 0
    decreases |f| - d.pos, 2
  {
    hide *;
    OneReads(f, d);
    if f[d.pos] % 8 == TYPE_TABLE || f[d.pos] % 8 == TYPE_TABLE_MARK {
      SlackTable(f, d);
      var (n, p) := TableSize(f, d.pos + 1, f[d.pos] / 8).value;
      var d1 := Create(d.(pos := p), f[d.pos] % 8).(depth := d.depth + 1);
      CreatePlaces(d.(pos := p), f[d.pos] % 8);
      BoundArray(f, d1, |d.tables|, 1, n);
      var d2 := UnpackArray(f, d1, |d.tables|, 1, n).value;
      ArrayAdvances(f, d1, |d.tables|, 1, n);
      BoundHash(f, d2.(depth := d.depth), |d.tables|);
    } else {
      SlackLeaf(f, d);
    }
  }

  lemma OneReads(f: seq<byte>, d: Dec)
    requires d.pos <= |f| && |d.anc| == MAX_DEPTH && UnpackOne(f, d).Ok?
    ensures d.pos < |f| && d.pos < UnpackOne(f, d).value.1.pos
  {
    hide PushValue;
  }

  lemma CreatePlaces(d: Dec, t: int)
    requires |d.anc| == MAX_DEPTH
    ensures var r := Create(d, t); r.pos == d.pos && |r.anc| == MAX_DEPTH && r.tables == d.tables + [map[]]
  {
  }

  lemma {:induction false} BoundArray(f: seq<byte>, d: Dec, id: nat, i: nat, n: int)
    requires d.pos <= |f| && |d.anc| == MAX_DEPTH && id < |d.tables| && UnpackArray(f, d, id, i, n).Ok?
    ensures SlackArray(f, d, id, i, n) >= 0
    decreases |f| - d.pos, 3
  {
    hide *;
    if i <= n {
      SlackItem(f, d, id, i, n);
      OneReads(f, d);
      BoundOne(f, d);
      var (w, d1) := UnpackOne(f, d).value;
      Misdirection.AssignOne(d1, id, Number(IntegerToDouble(i)), w);
      BoundArray(f, Assign(d1, id, Number(IntegerToDouble(i)), w), id, i + 1, n);
    } else {
      SlackNoItems(f, d, id, i, n);
    }
  }

  lemma SlackNoItems(f: seq<byte>, d: Dec, id: nat, i: nat, n: int)
    requires d.pos <= |f| && |d.anc| == MAX_DEPTH && id < |d.tables| && n < i
    ensures UnpackArray(f, d, id, i, n).Ok? && SlackArray(f, d, id, i, n) == 0
  {
  }

  lemma {:induction false} BoundHash(f: seq<byte>, d: Dec, id: nat)
    requires d.pos <= |f| && |d.anc| == MAX_DEPTH && id < |d.tables| && UnpackHash(f, d, id).Ok?
    ensures SlackHash(f, d, id) >= 0
    decreases |f| - d.pos, 3
  {
    hide *;
    Misdirection.KeyFails(f, d, id);
    OneReads(f, d);
    BoundOne(f, d);
    var (c, d1) := UnpackOne(f, d).value;
    if c == Nil {
      SlackEnd(f, d, id);
    } else {
      SlackEntry(f, d, id);
      AtValuePos(d1, c);
      BoundOne(f, AtValue(d1, c));
      var (w, d2) := UnpackOne(f, AtValue(d1, c)).value;
      BoundHash(f, Assign(d2.(depth := d.depth, stack := d.stack), id, c, w), id);
    }
  }

  lemma SlackArgument(f: seq<byte>, d: Dec)
    requires d.pos < |f| && |d.anc| == MAX_DEPTH && UnpackAll(f, d).Ok?
    ensures UnpackOne(f, d).Ok?
    ensures var (w, d1) := UnpackOne(f, d).value;
      && d.pos < d1.pos <= |f| && |d1.anc| == MAX_DEPTH
      && var d1' := d1.(stack := d1.stack + [w]);
         && UnpackAll(f, d1').Ok?
         && UnpackAll(f, d).value == ([w] + UnpackAll(f, d1').value.0, UnpackAll(f, d1').value.1)
         && SlackAll(f, d) == SlackOne(f, d) + SlackAll(f, d1')
  {
    hide UnpackOne, Stored, Weight;
    var (w, d1) := UnpackOne(f, d).value;
    var ws := UnpackAll(f, d1.(stack := d1.stack + [w])).value.0;
    assert ([w] + ws)[0] == w && ([w] + ws)[1..] == ws;
  }

  lemma {:induction false} BoundAll(f: seq<byte>, d: Dec)
    requires d.pos <= |f| && |d.anc| == MAX_DEPTH && UnpackAll(f, d).Ok?
    ensures SlackAll(f, d) >= 0
    decreases |f| - d.pos
  {
    hide *;
    if d.pos < |f| {
      SlackArgument(f, d);
      BoundOne(f, d);
      var (w, d1) := UnpackOne(f, d).value;
      BoundAll(f, d1.(stack := d1.stack + [w]));
    } else {
      SlackNothing(f, d);
    }
  }

  lemma SlackNothing(f: seq<byte>, d: Dec)
    requires d.pos == |f| && |d.anc| == MAX_DEPTH
    ensures UnpackAll(f, d) == Ok(([], d)) && SlackAll(f, d) == 0
  {
  }

  // On packed bytes

  // How many entries the tables have
  ghost function Owed(h: Heap, objs: seq<nat>): nat {
    if objs == [] then 0
    else Owed(h, objs[..|objs| - 1]) + if objs[|objs| - 1] in h then |h[objs[|objs| - 1]].entries| else 0
  }

  lemma OwedMore(h: Heap, objs: seq<nat>, o: nat)
    requires o in h
    ensures Owed(h, objs + [o]) == Owed(h, objs) + |h[o].entries|
  {
    assert (objs + [o])[..|objs|] == objs;
  }

  // Of the array part, what is no hole
  lemma {:induction false} OnesOfArray(h: Heap, t: LuaTable, i: nat)
    requires TableOk(h, t) && i <= t.objlen
    ensures |ArrayKeys(t, i)| + Ones(ArrayItems(t)[i..]) == |ArrayKeys(t, t.objlen)|
    decreases t.objlen - i
  {
    hide InArray, ArrayItems, ArrayKeys, TableOk;
    TableSizeOk(h, t);
    if i < t.objlen {
      OnesOfArray(h, t, i + 1);
      Misdirection.ItemAt(t, i + 1);
      NextItem(h, t, i);
      assert ArrayItems(t)[i..][1..] == ArrayItems(t)[i + 1..];
    }
  }

  lemma NextItem(h: Heap, t: LuaTable, i: nat)
    requires TableOk(h, t) && i < t.objlen && t.objlen < INT_LIMIT
    ensures |ArrayKeys(t, i + 1)| == |ArrayKeys(t, i)| + One(RawGetI(t, i + 1))
  {
    hide InArray, ArrayKeys;
    NextArrayKey(t, i + 1);
  }

  ghost predicate EntriesOf(t: LuaTable, order: seq<Value>) {
    Distinct(order) && forall k :: k in order ==> k in t.entries && k != Nil && t.entries[k] != Nil
  }

  lemma EntriesTail(t: LuaTable, order: seq<Value>)
    requires EntriesOf(t, order) && order != []
    ensures EntriesOf(t, order[1..]) && order[0] != Nil && order[0] in t.entries && t.entries[order[0]] != Nil
  {
    Misdirection.DistinctTail(order);
    assert order[0] in order && forall k :: k in order[1..] ==> k in order;
  }

  lemma {:induction false} OnesOfHash(t: LuaTable, order: seq<Value>)
    requires EntriesOf(t, order)
    ensures forall k :: k in order ==> k in t.entries
    ensures var vs := HashItems(t.entries, t.objlen, order);
      Ones(vs) == |vs| && |vs| == 2 * |HashKeys(order, t.objlen)|
  {
    hide InArray, HashKeys, Ones, HashItems, Distinct;
    if order == [] {
      NoHashKeys(t);
    } else {
      EntriesTail(t, order);
      OnesOfHash(t, order[1..]);
      var k, rest := order[0], HashItems(t.entries, t.objlen, order[1..]);
      if InArray(k, t.objlen) {
        SkippedKey(t, order);
      } else {
        FirstHashKey(order, t.objlen);
        EntryItems(t, order);
        PairOnes(k, t.entries[k], rest);
      }
    }
  }

  lemma NoHashKeys(t: LuaTable)
    ensures HashItems(t.entries, t.objlen, []) == [] && Ones([]) == 0 && |HashKeys([], t.objlen)| == 0
  {
    assert HashKeys([], t.objlen) == {};
  }

  lemma FirstHashKey(order: seq<Value>, n: nat)
    requires Distinct(order) && order != [] && !InArray(order[0], n)
    ensures |HashKeys(order, n)| == |HashKeys(order[1..], n)| + 1
  {
    hide InArray;
    assert HashKeys(order, n) == HashKeys(order[1..], n) + {order[0]};
  }

  lemma EntryItems(t: LuaTable, order: seq<Value>)
    requires order != [] && !InArray(order[0], t.objlen) && forall k :: k in order ==> k in t.entries
    ensures HashItems(t.entries, t.objlen, order) ==
      [order[0], t.entries[order[0]]] + HashItems(t.entries, t.objlen, order[1..])
  {
  }

  lemma PairOnes(k: Value, v: Value, rest: seq<Value>)
    requires k != Nil && v != Nil
    ensures Ones([k, v] + rest) == 2 + Ones(rest)
  {
    var vs := [k, v] + rest;
    assert vs[1..] == [v] + rest && vs[1..][1..] == rest;
  }

  lemma NoArrayKeys(t: LuaTable)
    ensures ArrayKeys(t, 0) == {}
  {
  }

  lemma EntryCount(h: Heap, t: LuaTable)
    requires TableOk(h, t)
    ensures Ones(ItemsOf(t)) == |ItemsOf(t)| && 2 * Ones(ArrayItems(t)) + |ItemsOf(t)| == 2 * |t.entries|
  {
    hide InArray, ArrayItems;
    assert ArrayItems(t)[0..] == ArrayItems(t);
    NoArrayKeys(t);
    OnesOfArray(h, t, 0);
    OnesOfHash(t, t.order);
    AllKeys(t);
    Misdirection.DisjointKeys(t);
    assert |ArrayKeys(t, t.objlen) + HashKeys(t.order, t.objlen)| == |ArrayKeys(t, t.objlen)| + |HashKeys(t.order, t.objlen)|;
  }

  lemma WeightStep(f: seq<byte>, pos: nat)
    requires pos < |f| && Token(f, pos).Some?
    ensures var (p, w) := Token(f, pos).value; Weight(f, pos) == w + Weight(f, p)
  {
    hide Token;
  }

  lemma TokenScalar(h: Heap, st: Enc, v: Value, f: seq<byte>, m: set<nat>)
    requires st.Valid(h) && EncodableScalar(v) && Agrees(Emit(st, EncScalar(v)), f, m)
    ensures |st.out| < |f|
    ensures Token(f, |st.out|) == Some((|st.out + EncScalar(v)|, if v == Nil then -1 else 1))
  {
    hide UnpackScalar, EncScalar, Agrees, Wire.GetExtendInteger, TableSize;
    EmittedAt(st, EncScalar(v), f, m);
    ScalarRoundTrip(f, |st.out|, v);
  }

  lemma TokenAncestor(h: Heap, st: Enc, i: nat, f: seq<byte>, m: set<nat>)
    requires st.Valid(h) && i < EXTEND_NUMBER && Agrees(Emit(st, [Tag(TYPE_REF, i)]), f, m)
    ensures |st.out| < |f| && Token(f, |st.out|) == Some((|st.out| + 1, 1))
  {
    EmittedAt(st, [Tag(TYPE_REF, i)], f, m);
    FirstOf(f, |st.out|, [Tag(TYPE_REF, i)]);
  }

  lemma TokenRef(h: Heap, st: Enc, k: nat, f: seq<byte>, m: set<nat>)
    requires HeapOk(h) && st.Valid(h) && k < |st.objs| && Agrees(RefObject(h, st, k), f, m)
    ensures |st.out| < |f| && Token(f, |st.out|) == Some((|RefObject(h, st, k).out|, 1))
  {
    hide Agrees, Wire.GetExtendInteger, HeapOk, Enc.Valid, EncInteger, RefObject, At;
    SmallId(h, st, k);
    RefBytesAt(h, st, k, f, m);
    RefByte(f, |st.out|);
    ExtendIntegerRoundTrip(f, |st.out| + 1, k + 1);
  }

  lemma TokenHeader(h: Heap, st: Enc, o: nat, n: nat, f: seq<byte>, m: set<nat>)
    requires st.Valid(h) && o in h && o !in st.objs && n < INT_LIMIT && Agrees(OpenTable(h, st, o, n), f, m)
    ensures |st.out| < |f| && Token(f, |st.out|) == Some((|OpenTable(h, st, o, n).out|, 2 + n))
  {
    hide Agrees, TableSize, OpenTable, Enc.Valid;
    SimHeader(h, st, o, n, f, m, Decoder.START.(pos := |st.out|));
  }

  // A packed value weighs what it and the entries of the tables first met in it take.
  lemma {:induction false} WeighOne(h: Heap, st: Enc, v: Value, f: seq<byte>, m: set<nat>)
    requires HeapOk(h) && st.Valid(h) && ValueOk(h, v) && Agrees(PackOne(h, st, v), f, m)
    ensures var r := PackOne(h, st, v);
      Weight(f, |st.out|) - Weight(f, |r.out|) + 1 == 2 * (Owed(h, r.objs) - Owed(h, st.objs)) + 2 * One(v)
    decreases Unmet(h, st), 1, 0
  {
    hide *;
    OneIs(v);
    if v.TableRef? {
      PackOneCases(h, st, v);
      if RefAncestor(st, v.id).Some? {
        RefAncestorBound(st, v.id);
        TokenAncestor(h, st, RefAncestor(st, v.id).value, f, m);
        WeightStep(f, |st.out|);
        AncestorIs(st, RefAncestor(st, v.id).value);
      } else if IndexOf(st.objs, v.id).Some? {
        var k := IndexOf(st.objs, v.id).value;
        Misdirection.IndexedIs(st.objs, v.id);
        TokenRef(h, st, k, f, m);
        WeightStep(f, |st.out|);
        RefObjs(h, st, k);
      } else {
        WeighTable(h, st, v.id, f, m);
      }
    } else {
      PackScalar(h, st, v);
      ScalarOk(h, v);
      TokenScalar(h, st, v, f, m);
      WeightStep(f, |st.out|);
      EmitIs(st, EncScalar(v));
    }
  }

  lemma AncestorIs(st: Enc, i: nat)
    requires i < EXTEND_NUMBER
    ensures var r := Emit(st, [Tag(TYPE_REF, i)]); r.objs == st.objs && |r.out| == |st.out| + 1
  {
  }

  lemma OneIs(v: Value)
    ensures One(v) == if v == Nil then 0 else 1
  {
  }

  lemma EmitIs(st: Enc, bytes: seq<byte>)
    ensures Emit(st, bytes).objs == st.objs && Emit(st, bytes).out == st.out + bytes
  {
  }

  lemma RefObjs(h: Heap, st: Enc, k: nat)
    requires HeapOk(h) && st.Valid(h) && k < |st.objs|
    ensures RefObject(h, st, k).objs == st.objs
  {
  }

  lemma ScalarOk(h: Heap, v: Value)
    requires ValueOk(h, v) && !v.TableRef?
    ensures EncodableScalar(v)
  {
  }

  lemma {:induction false} WeighTable(h: Heap, st: Enc, o: nat, f: seq<byte>, m: set<nat>)
    requires HeapOk(h) && st.Valid(h) && o in h && o !in st.objs && Enter(st, o).Valid(h)
    requires Agrees(PackTable(h, Enter(st, o), o).(depth := st.depth), f, m)
    ensures var r := PackTable(h, Enter(st, o), o);
      Weight(f, |st.out|) - Weight(f, |r.out|) + 1 == 2 * (Owed(h, r.objs) - Owed(h, st.objs)) + 2
    decreases Unmet(h, st), 0, 0
  {
    hide *;
    PackTableSteps(h, st, o, f, m);
    var t, st0 := h[o], Enter(st, o);
    var st1 := OpenTable(h, st0, o, t.objlen);
    var st2 := PackSeq(h, st1, ArrayItems(t));
    var st3 := PackSeq(h, st2, ItemsOf(t));
    TokenHeader(h, st0, o, t.objlen, f, m);
    WeightStep(f, |st.out|);
    OpenObjs(h, st0, o, t.objlen);
    OwedMore(h, st.objs, o);
    WeighSeq(h, st1, ArrayItems(t), f, m);
    ItemCount(t);
    LastBack(h, st3, f, m);
    WeighSeq(h, st2, ItemsOf(t), f, m);
    EntryCount(h, t);
    NilOk();
    TokenScalar(h, st3, Nil, f, m);
    WeightStep(f, |st3.out|);
    EmitIs(st3, EncScalar(Nil));
  }

  lemma NilOk()
    ensures EncodableScalar(Nil)
  {
  }

  lemma ItemCount(t: LuaTable)
    requires t.objlen < INT_LIMIT
    ensures |ArrayItems(t)| == t.objlen
  {
  }

  lemma OpenObjs(h: Heap, st: Enc, o: nat, n: nat)
    requires st.Valid(h) && o in h && o !in st.objs && n < INT_LIMIT
    ensures OpenTable(h, st, o, n).objs == st.objs + [o]
  {
  }

  lemma LastBack(h: Heap, st: Enc, f: seq<byte>, m: set<nat>)
    requires st.Valid(h) && Agrees(Emit(st, EncScalar(Nil)), f, m)
    ensures Agrees(st, f, m)
  {
    EmitKeeps(h, st, EncScalar(Nil));
    AgreesBack(st, Emit(st, EncScalar(Nil)), f, m);
  }

  lemma {:induction false} WeighSeq(h: Heap, st: Enc, vs: seq<Value>, f: seq<byte>, m: set<nat>)
    requires HeapOk(h) && st.Valid(h) && ValuesOk(h, vs) && Agrees(PackSeq(h, st, vs), f, m)
    ensures var r := PackSeq(h, st, vs);
      Weight(f, |st.out|) - Weight(f, |r.out|) + |vs| == 2 * (Owed(h, r.objs) - Owed(h, st.objs)) + 2 * Ones(vs)
    decreases Unmet(h, st), 2, |vs|
  {
    hide *;
    OnesAre(vs);
    PackSeqExtends(h, st, vs, f, m);
    if vs != [] {
      PackSeqStep(h, st, vs, f, m);
      WeighOne(h, st, vs[0], f, m);
      WeighSeq(h, PackOne(h, st, vs[0]), vs[1..], f, m);
    }
  }

  lemma OnesAre(vs: seq<Value>)
    ensures Ones(vs) == if vs == [] then 0 else One(vs[0]) + Ones(vs[1..])
  {
  }

  // A message has just the weight of what was packed.
  lemma PackedWeight(h: Heap, args: seq<Value>)
    requires HeapOk(h) && ValuesOk(h, args)
    ensures var r := Pack(h, args);
      Weight(r.out, 0) + |args| == 2 * Owed(h, r.objs) + 2 * Ones(args)
  {
    hide PackSeq, Agrees, HeapOk, Token;
    var r := Pack(h, args);
    PackAgreesWithItself(h, r);
    WeighSeq(h, Encoder.START, args, r.out, r.marked);
  }
}
