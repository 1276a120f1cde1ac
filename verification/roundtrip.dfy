// unpack(pack(v)): the encoder and the decoder in lock-step, and the round
// trip up to graph isomorphism.
module RoundTrip {
  import opened Wire
  import opened Graph
  import opened Encoder
  import opened Decoder
  import opened Drifting

  // Source value v and decoded value w name the same thing: scalars are equal,
  // and decoded table k stands for source table objs[k].
  ghost predicate Corr(objs: seq<nat>, v: Value, w: Value) {
    if v.TableRef? then w.TableRef? && w.id < |objs| && objs[w.id] == v.id else w == v
  }

  ghost predicate Known(objs: seq<nat>, v: Value) {
    v.TableRef? ==> v.id in objs
  }

  // What v is decoded to
  ghost function Image(objs: seq<nat>, v: Value): Value {
    if v.TableRef? && IndexOf(objs, v.id).Some? then TableRef(IndexOf(objs, v.id).value) else v
  }

  // m holds the images of the entries of t at the keys ks, and nothing else.
  ghost predicate Filled(objs: seq<nat>, t: LuaTable, m: Contents, ks: set<Value>) {
    && (forall k :: k in ks ==> k in t.entries && Known(objs, k) && Known(objs, t.entries[k]))
    && (forall k :: k in ks ==> Image(objs, k) in m && m[Image(objs, k)] == Image(objs, t.entries[k]))
    && (forall w :: w in m ==> exists k :: k in ks && w == Image(objs, k))
  }

  ghost predicate TableCorr(objs: seq<nat>, t: LuaTable, m: Contents) {
    Filled(objs, t, m, t.entries.Keys)
  }

  // The final buffer f, with final marks m, agrees with the bytes of r.
  ghost predicate Agrees(r: Enc, f: seq<byte>, m: set<nat>) {
    && |r.out| <= |f|
    && r.marked <= m
    && (forall p :: 0 <= p < |r.out| ==> f[p] / 8 == r.out[p] / 8)
    && (forall p :: 0 <= p < |r.out| && p !in r.tags ==> f[p] == r.out[p])
    && (forall k :: 0 <= k < |r.tags| ==> 0 <= r.tags[k] < |f| && f[r.tags[k]] % 8 == MarkType(k, m))
  }

  // Lock-step: same place, same counter, depths apart by the keys around; the recorded ids
  // are the marked ones.
  ghost predicate InStep(st: Enc, lag: nat, d: Dec, m: set<nat>) {
    && d.pos == |st.out|
    && d.depth + lag == st.depth
    && |d.tables| == |st.objs|
    && |d.anc| == |st.anc| == MAX_DEPTH
    && (forall k :: k in d.refs <==> 0 < k <= |st.objs| && k - 1 in m)
    && (forall k :: k in d.refs ==> d.refs[k] == k - 1)
  }

  ghost predicate Stands(objs: seq<nat>, w: Value, o: nat) {
    w.TableRef? && w.id < |objs| && objs[w.id] == o
  }

  // The open tables of the encoder and the stack of the decoder: places are those of the
  // open tables. A clean slot names the place of its table, any other a place above it; and
  // a table whose slot is not clean is on the stack at its own place only.
  ghost predicate Slots(st: Enc, a: Drift, depth: nat, anc: seq<nat>, stack: seq<Value>, places: seq<nat>) {
    && |places| == st.depth && depth + a.lag == st.depth && |anc| == |st.anc| == |a.clean| == MAX_DEPTH
    && (forall i, j :: 0 <= i < j < |places| ==> places[i] < places[j])
    && (forall i :: 0 <= i < |places| ==> places[i] < |stack|)
    && (forall q :: 0 <= q < |stack| && stack[q].TableRef? ==> stack[q].id < |st.objs|)
    && (forall i :: 0 <= i < st.depth && i < MAX_DEPTH ==> Stands(st.objs, stack[places[i]], st.anc[i]))
    && (forall i :: 0 <= i < depth && i < MAX_DEPTH ==>
          if a.clean[i] then anc[i] == places[i] else anc[i] > places[i])
    && (forall i, q :: 0 <= i < st.depth && i < MAX_DEPTH && 0 <= q < places[i] ==> !Stands(st.objs, stack[q], st.anc[i]))
    && (st.depth < MAX_DEPTH ==>
          forall i, q :: 0 <= i < st.depth && 0 <= q < |stack| && q != places[i] && (!a.clean[i] || i >= depth) ==>
            !Stands(st.objs, stack[q], st.anc[i]))
  }

  // d2 is in step with r and differs from d only by complete new tables and,
  // when filling is an index, by the contents of that table.
  ghost predicate Follows(h: Heap, d: Dec, r: Enc, lag: nat, d2: Dec, m: set<nat>, filling: int) {
    && InStep(r, lag, d2, m)
    && |d.tables| <= |d2.tables|
    && (forall k :: 0 <= k < |d.tables| && k != filling ==> d2.tables[k] == d.tables[k])
    && (forall k :: |d.tables| <= k < |d2.tables| ==>
          r.objs[k] in h && TableCorr(r.objs, h[r.objs[k]], d2.tables[k]))
  }

  // Images

  lemma {:induction false} IndexIs(objs: seq<nat>, i: nat)
    requires Distinct(objs) && i < |objs|
    ensures IndexOf(objs, objs[i]) == Some(i)
  {
    var k := IndexOf(objs, objs[i]).value;
    assert objs[k] == objs[i];
  }

  lemma CorrIsImage(objs: seq<nat>, v: Value, w: Value)
    requires Distinct(objs)
    ensures Corr(objs, v, w) <==> Known(objs, v) && w == Image(objs, v)
  {
    if Corr(objs, v, w) && v.TableRef? {
      IndexIs(objs, w.id);
    }
  }

  lemma ImageInjective(objs: seq<nat>, v: Value, u: Value)
    requires Known(objs, v) && Known(objs, u) && Image(objs, v) == Image(objs, u)
    ensures v == u
  {
  }

  lemma ImageGrows(objs: seq<nat>, objs2: seq<nat>, v: Value)
    requires objs <= objs2 && Distinct(objs2) && Known(objs, v)
    ensures Known(objs2, v) && Image(objs2, v) == Image(objs, v)
  {
    if v.TableRef? {
      var i := IndexOf(objs, v.id).value;
      assert objs2[i] == v.id;
      IndexIs(objs2, i);
    }
  }

  lemma AgreesBack(a: Enc, b: Enc, f: seq<byte>, m: set<nat>)
    requires Extends(a, b) && Agrees(b, f, m)
    ensures Agrees(a, f, m)
  {
    forall p | 0 <= p < |a.out| && p !in a.tags
      ensures f[p] == a.out[p]
    {
      assert p !in b.tags;
    }
    assert a.tags == b.tags[..|a.tags|];
  }

  lemma FilledGrows(objs: seq<nat>, objs2: seq<nat>, t: LuaTable, m: Contents, ks: set<Value>)
    requires objs <= objs2 && Distinct(objs2) && Filled(objs, t, m, ks)
    ensures Filled(objs2, t, m, ks)
  {
    hide Image, Known;
    forall k | k in ks
      ensures Known(objs2, k) && Known(objs2, t.entries[k])
      ensures Image(objs2, k) == Image(objs, k) && Image(objs2, t.entries[k]) == Image(objs, t.entries[k])
    {
      ImageGrows(objs, objs2, k);
      ImageGrows(objs, objs2, t.entries[k]);
    }
  }

  lemma FollowsTransitive(h: Heap, d: Dec, r: Enc, d2: Dec, r3: Enc, lag: nat, d3: Dec, m: set<nat>, filling: int)
    requires Follows(h, d, r, lag, d2, m, filling) && Follows(h, d2, r3, lag, d3, m, filling)
    requires r.objs <= r3.objs && Distinct(r3.objs) && (filling == NO_TABLE || filling < |d.tables|)
    ensures Follows(h, d, r3, lag, d3, m, filling)
  {
    hide Filled;
    forall k | |d.tables| <= k < |d3.tables|
      ensures r3.objs[k] in h && TableCorr(r3.objs, h[r3.objs[k]], d3.tables[k])
    {
      if k < |d2.tables| {
        assert r3.objs[k] == r.objs[k];
        FilledGrows(r.objs, r3.objs, h[r.objs[k]], d2.tables[k], h[r.objs[k]].entries.Keys);
      }
    }
  }

  // How the slots and the stack go along

  // A table is opened.
  lemma OpenSlots(
    st: Enc, a: Drift, o: nat, r: Enc, depth: nat, anc: seq<nat>, stack: seq<Value>, places: seq<nat>)
    requires Slots(st, a, depth, anc, stack, places) && o !in st.objs
    requires r.depth == st.depth + 1 && r.objs == st.objs + [o] && r.anc == Enter(st, o).anc
    ensures var b := EnterDrift(st, a);
      var anc1 := if depth < |anc| then anc[depth := |stack|] else anc;
      && Slots(r, b, depth + 1, anc1, stack + [TableRef(|st.objs|)], places + [|stack|])
      && Top(b, depth + 1, stack + [TableRef(|st.objs|)], places + [|stack|])
  {
    hide Stands, EnterDrift, Drifting.Set, Enter;
    EnteredSlots(st, a, o);
    var after := stack + [TableRef(|st.objs|)];
    forall q, i | 0 <= q < |after| && 0 <= i < st.depth && i < MAX_DEPTH
      ensures Stands(r.objs, after[q], r.anc[i]) <==> q < |stack| && Stands(st.objs, stack[q], st.anc[i])
    {
      StandsStays(st, o, r.objs, after[q], st.anc[i], stack, places, i, q);
    }
    forall q | 0 <= q < |after|
      ensures Stands(r.objs, after[q], o) <==> q == |stack|
    {
      StandsForNew(st.objs, o, after, stack, q);
    }
  }

  lemma EnteredSlots(st: Enc, a: Drift, o: nat)
    requires |st.anc| == |a.clean| == MAX_DEPTH && a.lag <= st.depth
    ensures var b, anc := EnterDrift(st, a), Enter(st, o).anc;
      && b.lag == a.lag && |anc| == |b.clean| == MAX_DEPTH
      && (forall i :: 0 <= i < MAX_DEPTH ==> anc[i] == if i == st.depth then o else st.anc[i])
      && (forall i :: 0 <= i < MAX_DEPTH ==>
            b.clean[i] == if i == st.depth then a.lag == 0 else i != st.depth - a.lag && a.clean[i])
  {
  }

  lemma StandsForNew(objs: seq<nat>, o: nat, after: seq<Value>, stack: seq<Value>, q: nat)
    requires o !in objs && after == stack + [TableRef(|objs|)] && q < |after|
    requires forall p :: 0 <= p < |stack| && stack[p].TableRef? ==> stack[p].id < |objs|
    ensures Stands(objs + [o], after[q], o) <==> q == |stack|
  {
  }

  lemma StandsStays(
    st: Enc, o: nat, objs: seq<nat>, w: Value, x: nat, stack: seq<Value>, places: seq<nat>, i: nat, q: nat)
    requires o !in st.objs && objs == st.objs + [o] && q <= |stack| && |places| == st.depth && i < st.depth && i < |st.anc|
    requires x == st.anc[i] && places[i] < |stack| && Stands(st.objs, stack[places[i]], x)
    requires w == (if q < |stack| then stack[q] else TableRef(|st.objs|))
    requires q < |stack| && w.TableRef? ==> w.id < |st.objs|
    ensures Stands(objs, w, x) <==> q < |stack| && Stands(st.objs, w, x)
  {
  }

  // The innermost table is on top of the stack; if there are keys around it, the slot it
  // has in the decoder is not clean.
  ghost predicate Top(a: Drift, depth: nat, stack: seq<Value>, places: seq<nat>) {
    && |places| > 0 && places[|places| - 1] + 1 == |stack|
    && (a.lag > 0 && 0 < depth <= |a.clean| ==> !a.clean[depth - 1])
  }

  // Something is packed and read, and gone from the stack again.
  lemma SlotsKept(
    st: Enc, a: Drift, depth: nat, anc: seq<nat>, stack: seq<Value>, places: seq<nat>, r: Enc, b: Drift, anc2: seq<nat>)
    requires Slots(st, a, depth, anc, stack, places) && Extends(st, r) && |r.anc| == |st.anc| && Drifts(st, a, b, 0)
    requires |anc2| == |anc| && forall i :: 0 <= i < depth && i < |anc| ==> anc2[i] == anc[i]
    ensures Slots(r, b, depth, anc2, stack, places)
    ensures Top(a, depth, stack, places) ==> Top(b, depth, stack, places)
  {
  }

  // The decoder reads a key one level lower.
  lemma KeySlots(st: Enc, a: Drift, depth: nat, anc: seq<nat>, stack: seq<Value>, places: seq<nat>)
    requires Slots(st, a, depth + 1, anc, stack, places) && Top(a, depth + 1, stack, places)
    ensures Slots(st, a.(lag := a.lag + 1), depth, anc, stack, places)
  {
    if st.depth < MAX_DEPTH && (a.lag == 0 || depth >= MAX_DEPTH) {
      var last := st.depth - 1;
      forall q | 0 <= q < |stack| && q != places[last] ensures !Stands(st.objs, stack[q], st.anc[last]) {
        assert q < places[last];
      }
    }
  }

  // The key is on the stack while its value is read.
  lemma ValueSlots(
    st: Enc, a: Drift, depth: nat, anc: seq<nat>, stack: seq<Value>, places: seq<nat>, r: Enc, b: Drift, anc2: seq<nat>, c: Value)
    requires Slots(st, a, depth + 1, anc, stack, places) && Top(a, depth + 1, stack, places)
    requires Slots(st, a.(lag := a.lag + 1), depth, anc, stack, places)
    requires Extends(st, r) && |r.anc| == |st.anc| && Drifts(st, a, b, 1)
    requires |anc2| == |anc| && forall i :: 0 <= i < depth && i < |anc| ==> anc2[i] == anc[i]
    requires depth < MAX_DEPTH ==>
      (b.clean[depth] == a.clean[depth] && anc2[depth] == anc[depth]) || (!b.clean[depth] && anc2[depth] >= |stack|)
    requires c.TableRef? ==> c.id < |r.objs|
    requires st.depth < MAX_DEPTH ==>
      forall i :: 0 <= i < st.depth && (!b.clean[i] || i > depth) ==> !Stands(r.objs, c, st.anc[i])
    ensures Slots(r, b, depth + 1, anc2, stack + [c], places)
    ensures Top(b, depth + 1, stack, places)
  {
    hide Stands;
    forall q, i | 0 <= q < |stack| && 0 <= i < st.depth && i < MAX_DEPTH
      ensures r.anc[i] == st.anc[i] && (Stands(r.objs, stack[q], st.anc[i]) <==> Stands(st.objs, stack[q], st.anc[i]))
    {
      StandsGrows(st.objs, r.objs, stack[q], st.anc[i]);
    }
  }

  lemma StandsGrows(objs: seq<nat>, objs2: seq<nat>, w: Value, x: nat)
    requires objs <= objs2 && (w.TableRef? ==> w.id < |objs|)
    ensures Stands(objs2, w, x) <==> Stands(objs, w, x)
  {
  }

  lemma PopSlots(st: Enc, a: Drift, depth: nat, anc: seq<nat>, stack: seq<Value>, c: Value, places: seq<nat>)
    requires Slots(st, a, depth, anc, stack + [c], places) && |places| > 0 && places[|places| - 1] + 1 == |stack|
    ensures Slots(st, a, depth, anc, stack, places)
  {
    var whole := stack + [c];
    assert forall q :: 0 <= q < |stack| ==> stack[q] == whole[q];
    assert forall i :: 0 <= i < |places| ==> places[i] <= places[|places| - 1];
  }

  // A table that is a key and found in its slot is not one whose slot is not clean.
  lemma SoundKeyApart(
    h: Heap, st: Enc, a: Drift, depth: nat, anc: seq<nat>, stack: seq<Value>, places: seq<nat>, k: Value, objs: seq<nat>, c: Value, i: nat)
    requires st.Valid(h) && HeapOk(h) && ValueOk(h, k) && Slots(st, a, depth + 1, anc, stack, places) && a.lag < st.depth < MAX_DEPTH
    requires !DriftKey(h, st, a, k).astray && Corr(objs, k, c)
    requires i < st.depth && (!DriftKey(h, st, a, k).clean[i] || i > depth)
    ensures !Stands(objs, c, st.anc[i])
  {
    hide Enc.Valid, HeapOk, DriftTable;
  }

  lemma EmittedAt(st: Enc, bytes: seq<byte>, f: seq<byte>, m: set<nat>)
    requires forall k :: 0 <= k < |st.tags| ==> st.tags[k] < |st.out|
    requires Agrees(Emit(st, bytes), f, m)
    ensures At(f, |st.out|, bytes)
  {
    var out := st.out + bytes;
    forall p | |st.out| <= p < |out|
      ensures f[p] == out[p]
    {
      assert p !in st.tags;
    }
    assert f[|st.out|..|out|] == bytes;
  }

  lemma UnpackOneScalar(f: seq<byte>, d: Dec, v: Value, p: nat)
    requires d.pos < |f| && |d.anc| == MAX_DEPTH && f[d.pos] % 8 < TYPE_TABLE
    requires UnpackScalar(f, d.pos + 1, f[d.pos] % 8, f[d.pos] / 8) == Ok((v, p))
    ensures UnpackOne(f, d) == Ok((v, d.(pos := p)))
  {
    hide UnpackScalar;
    assert PushValue(f, d.(pos := d.pos + 1), f[d.pos] % 8, f[d.pos] / 8) == Ok((v, d.(pos := p)));
  }

  lemma SimScalar(h: Heap, st: Enc, v: Value, f: seq<byte>, m: set<nat>, d: Dec)
    requires st.Valid(h) && EncodableScalar(v)
    requires d.pos == |st.out| && |d.anc| == MAX_DEPTH
    requires Agrees(Emit(st, EncScalar(v)), f, m)
    ensures d.pos <= |f|
    ensures UnpackOne(f, d) == Ok((v, d.(pos := |st.out + EncScalar(v)|)))
  {
    hide UnpackOne, UnpackScalar, EncScalar, Agrees;
    EmittedAt(st, EncScalar(v), f, m);
    ScalarRoundTrip(f, |st.out|, v);
    UnpackOneScalar(f, d, v, |st.out| + |EncScalar(v)|);
  }

  // The bytes a by-id reference adds, after the patch.
  lemma RefBytesAt(h: Heap, st: Enc, k: nat, f: seq<byte>, m: set<nat>)
    requires HeapOk(h) && st.Valid(h) && k < |st.objs| && k + 1 < INT_LIMIT
    requires Agrees(RefObject(h, st, k), f, m)
    ensures At(f, |st.out|, [Tag(TYPE_REF, EXTEND_NUMBER)]) && At(f, |st.out| + 1, EncInteger(k + 1))
    ensures |RefObject(h, st, k).out| == |st.out| + 1 + |EncInteger(k + 1)|
  {
    hide LookupRef, EncInteger;
    var ref, id := [Tag(TYPE_REF, EXTEND_NUMBER)], EncInteger(k + 1);
    EmittedAt(LookupRef(h, st, k), ref + id, f, m);
    AtConcat(f, |st.out|, ref, id);
  }

  lemma SmallId(h: Heap, st: Enc, k: nat)
    requires HeapOk(h) && st.Valid(h) && k < |st.objs|
    ensures k + 1 < INT_LIMIT <= 0x8000_0000
  {
    DistinctCount(st.objs, h.Keys);
  }

  lemma RefByte(f: seq<byte>, pos: nat)
    requires At(f, pos, [Tag(TYPE_REF, EXTEND_NUMBER)])
    ensures pos < |f| && f[pos] == Tag(TYPE_REF, EXTEND_NUMBER)
  {
    FirstOf(f, pos, [Tag(TYPE_REF, EXTEND_NUMBER)]);
  }

  lemma MarkedByRef(h: Heap, st: Enc, k: nat, f: seq<byte>, m: set<nat>)
    requires HeapOk(h) && st.Valid(h) && k < |st.objs| && Agrees(RefObject(h, st, k), f, m)
    ensures k in m
  {
    assert k in LookupRef(h, st, k).marked;
  }

  lemma UnpackRefStep(f: seq<byte>, d: Dec, k: nat, p: nat)
    requires d.pos < |f| && |d.anc| == MAX_DEPTH && f[d.pos] == Tag(TYPE_REF, EXTEND_NUMBER)
    requires GetExtendInteger(f, d.pos + 1) == Ok((k + 1, p)) && k + 1 in d.refs && d.refs[k + 1] == k
    ensures UnpackOne(f, d) == Ok((TableRef(k), d.(pos := p)))
  {
    hide GetExtendInteger;
    var dp := d.(pos := d.pos + 1);
    assert PushValue(f, dp, TYPE_REF, EXTEND_NUMBER) == UnpackRef(f, dp, EXTEND_NUMBER);
  }

  // The header of a table is read back whichever type bits its tag ends with.
  lemma SimHeader(h: Heap, st: Enc, o: nat, n: nat, f: seq<byte>, m: set<nat>, d: Dec)
    requires st.Valid(h) && d.pos == |st.out| && o in h && o !in st.objs && n < INT_LIMIT
    requires Agrees(OpenTable(h, st, o, n), f, m)
    ensures d.pos < |f| && f[d.pos] % 8 == MarkType(|st.objs|, m)
    ensures TableSize(f, d.pos + 1, f[d.pos] / 8) == Ok((n, |OpenTable(h, st, o, n).out|))
  {
    hide EncInteger, GetExtendInteger, At, Distinct;
    var r := OpenTable(h, st, o, n);
    assert r.tags[|st.objs|] == d.pos && r.out[d.pos] == Header(n)[0];
    if n >= EXTEND_NUMBER {
      HeaderSizeAt(h, st, o, n, f, m);
      ExtendIntegerRoundTrip(f, d.pos + 1, n);
    }
  }

  // And it is the shortest that says its size.
  lemma HeaderShortest(f: seq<byte>, pos: nat, cookie: nat, n: nat)
    requires pos <= |f| && cookie < MAX_COOKIE && n < INT_LIMIT
    requires TableSize(f, pos, cookie).Ok? && TableSize(f, pos, cookie).value.0 == n
    ensures |Header(n)| <= 1 + TableSize(f, pos, cookie).value.1 - pos
  {
    hide EncInteger, Wire.GetExtendInteger;
    if cookie == EXTEND_NUMBER {
      ExtendShortest(f, pos, n);
    }
  }

  lemma HeaderSizeAt(h: Heap, st: Enc, o: nat, n: nat, f: seq<byte>, m: set<nat>)
    requires st.Valid(h) && o in h && o !in st.objs && EXTEND_NUMBER <= n < INT_LIMIT
    requires Agrees(OpenTable(h, st, o, n), f, m)
    ensures At(f, |st.out| + 1, EncInteger(n))
  {
    hide EncInteger, Distinct;
    var r := OpenTable(h, st, o, n);
    forall p | |st.out| + 1 <= p < |r.out|
      ensures f[p] == r.out[p]
    {
      assert p !in r.tags;
    }
    assert r.out[|st.out| + 1..] == EncInteger(n);
    assert f[|st.out| + 1..|r.out|] == r.out[|st.out| + 1..];
  }

  // The keys of the array part up to i
  ghost function ArrayKeys(t: LuaTable, i: nat): set<Value> {
    set k | k in t.entries && InArray(k, i)
  }

  lemma NextArrayKey(t: LuaTable, i: nat)
    requires 0 < i < INT_LIMIT
    ensures ArrayKeys(t, i) == ArrayKeys(t, i - 1) + (if IndexKey(i) in t.entries then {IndexKey(i)} else {})
    ensures IndexKey(i) !in ArrayKeys(t, i - 1)
  {
    forall k
      ensures InArray(k, i) <==> InArray(k, i - 1) || k == IndexKey(i)
    {
      ArrayKey(k, i);
      ArrayKey(k, i - 1);
    }
    if InArray(IndexKey(i), i - 1) {
      ArrayKey(IndexKey(i), i - 1);
      var j :| 0 < j <= i - 1 && IndexKey(i) == IndexKey(j);
      IndexKeyInjective(i, j);
    }
  }

  // The three ways pack_one treats a table
  lemma PackOneCases(h: Heap, st: Enc, v: Value)
    requires HeapOk(h) && st.Valid(h) && ValueOk(h, v) && v.TableRef?
    ensures |st.anc| == MAX_DEPTH && v.id in h
    ensures RefAncestor(st, v.id).Some? ==>
      PackOne(h, st, v) == Emit(st, [Tag(TYPE_REF, RefAncestor(st, v.id).value)])
    ensures RefAncestor(st, v.id).None? && IndexOf(st.objs, v.id).Some? ==>
      PackOne(h, st, v) == RefObject(h, st, IndexOf(st.objs, v.id).value)
    ensures RefAncestor(st, v.id).None? && IndexOf(st.objs, v.id).None? ==>
      && v.id !in st.objs && Enter(st, v.id).Valid(h)
      && PackOne(h, st, v) == PackTable(h, Enter(st, v.id), v.id).(depth := st.depth)
  {
    hide PackTable, RefObject;
  }

  // The stages wb_table goes through, all of them seen in the final buffer.
  lemma PackTableSteps(h: Heap, st: Enc, o: nat, f: seq<byte>, m: set<nat>)
    requires HeapOk(h) && st.Valid(h) && o in h && o !in st.objs
    requires Agrees(PackTable(h, Enter(st, o), o).(depth := st.depth), f, m)
    ensures var t, st0 := h[o], Enter(st, o);
      && TableOk(h, t) && t.objlen < INT_LIMIT
      && (forall k :: k in t.order <==> k in t.entries)
      && ValuesOk(h, ArrayItems(t)) && ValuesOk(h, ItemsOf(t))
      && ItemsOf(t) == HashItems(t.entries, t.objlen, t.order)
      && st0.Valid(h) && st0.objs == st.objs && st0.out == st.out
      && var st1 := OpenTable(h, st0, o, t.objlen);
      && var st2 := PackSeq(h, st1, ArrayItems(t));
      && var st3 := PackSeq(h, st2, ItemsOf(t));
      && var st4 := Emit(st3, EncScalar(Nil));
      && PackTable(h, st0, o) == st4
      && st1.depth == st2.depth == st4.depth == st.depth + 1
      && st.objs + [o] <= st1.objs && st1.objs <= st2.objs && st2.objs <= st4.objs
      && st.objs + [o] <= st4.objs
      && Unmet(h, st1) < Unmet(h, st) && Unmet(h, st2) < Unmet(h, st)
      && Agrees(st1, f, m) && Agrees(st2, f, m) && Agrees(st4, f, m)
  {
    hide PackSeq, Extends, Agrees, OpenTable, Header;
    var t, st0 := h[o], Enter(st, o);
    ItemsOk(h, t);
    EnterKeeps(h, st, o);
    OpeningMeets(h, st0, o);
    var st1 := OpenTable(h, st0, o, t.objlen);
    var st2 := PackSeq(h, st1, ArrayItems(t));
    var st3 := PackSeq(h, st2, ItemsOf(t));
    var st4 := Emit(st3, EncScalar(Nil));
    UnmetShrinks(h, st1, st2);
    UnmetShrinks(h, st2, st3);
    EmitKeeps(h, st3, EncScalar(Nil));
    DepthIrrelevant(st4, st.depth, f, m);
    AgreesBack(st3, st4, f, m);
    AgreesBack(st2, st3, f, m);
    AgreesBack(st1, st2, f, m);
    DepthKept(st0, st1);
    DepthKept(st1, st2);
    DepthKept(st2, st3);
  }

  lemma MarkTypes(k: nat, m: set<nat>)
    ensures MarkType(k, m) == TYPE_TABLE || MarkType(k, m) == TYPE_TABLE_MARK
  {
  }

  lemma HashDepth(f: seq<byte>, d: Dec, id: nat)
    requires d.pos <= |f| && |d.anc| == MAX_DEPTH && id < |d.tables| && UnpackHash(f, d, id).Ok?
    ensures UnpackHash(f, d, id).value.depth == d.depth
    ensures |UnpackHash(f, d, id).value.tables| > id
  {
    hide UnpackHash;
  }

  lemma DepthIrrelevant(r: Enc, depth: nat, f: seq<byte>, m: set<nat>)
    requires Agrees(r.(depth := depth), f, m)
    ensures Agrees(r, f, m)
  {
  }

  lemma DepthKept(a: Enc, b: Enc)
    requires Extends(a, b)
    ensures a.depth == b.depth
  {
  }

  ghost function HashKeys(order: seq<Value>, n: nat): set<Value> {
    set k | k in order && !InArray(k, n)
  }

  // Array part and hash part together are the whole table.
  lemma AllKeys(t: LuaTable)
    requires forall k :: k in t.order <==> k in t.entries
    ensures ArrayKeys(t, t.objlen) + HashKeys(t.order, t.objlen) == t.entries.Keys
  {
  }

  lemma TableSizeOk(h: Heap, t: LuaTable)
    requires TableOk(h, t)
    ensures t.objlen < INT_LIMIT
  {
  }

  lemma PackSeqExtends(h: Heap, st: Enc, vs: seq<Value>, f: seq<byte>, m: set<nat>)
    requires HeapOk(h) && st.Valid(h) && ValuesOk(h, vs) && Agrees(PackSeq(h, st, vs), f, m)
    ensures Agrees(st, f, m) && |st.out| <= |f|
    ensures vs == [] ==> PackSeq(h, st, vs) == st
  {
    AgreesBack(st, PackSeq(h, st, vs), f, m);
  }

  lemma PackSeqStep(h: Heap, st: Enc, vs: seq<Value>, f: seq<byte>, m: set<nat>)
    requires HeapOk(h) && st.Valid(h) && ValuesOk(h, vs) && vs != [] && Agrees(PackSeq(h, st, vs), f, m)
    ensures ValueOk(h, vs[0]) && ValuesOk(h, vs[1..])
    ensures var st1 := PackOne(h, st, vs[0]);
      && PackSeq(h, st, vs) == PackSeq(h, st1, vs[1..])
      && Agrees(st1, f, m) && Extends(st, st1) && st.objs <= st1.objs
      && Unmet(h, st1) <= Unmet(h, st)
      && st1.objs <= PackSeq(h, st1, vs[1..]).objs
  {
    var st1 := PackOne(h, st, vs[0]);
    UnmetShrinks(h, st, st1);
    UnmetShrinks(h, st1, PackSeq(h, st1, vs[1..]));
    AgreesBack(st1, PackSeq(h, st1, vs[1..]), f, m);
  }

  lemma UnpackArrayStep(f: seq<byte>, d: Dec, id: nat, i: nat, n: int)
    requires d.pos <= |f| && |d.anc| == MAX_DEPTH && id < |d.tables| && i <= n && UnpackOne(f, d).Ok?
    ensures var (w, d1) := UnpackOne(f, d).value;
      && id < |d1.tables| && d1.pos <= |f| && |d1.anc| == MAX_DEPTH
      && UnpackArray(f, d, id, i, n) == UnpackArray(f, Assign(d1, id, Number(IntegerToDouble(i)), w), id, i + 1, n)
  {
  }

  lemma NoItems(h: Heap, st: Enc, t: LuaTable)
    requires HeapOk(h) && st.Valid(h)
    ensures HashItems(t.entries, t.objlen, []) == [] && PackSeq(h, st, []) == st
  {
  }

  lemma SkippedKey(t: LuaTable, order: seq<Value>)
    requires order != [] && InArray(order[0], t.objlen)
    requires forall k :: k in order ==> k in t.entries
    ensures HashItems(t.entries, t.objlen, order) == HashItems(t.entries, t.objlen, order[1..])
    ensures HashKeys(order, t.objlen) == HashKeys(order[1..], t.objlen)
  {
  }

  lemma NextHashKey(order: seq<Value>, n: nat, ks: set<Value>)
    requires order != [] && !InArray(order[0], n)
    ensures ks + {order[0]} + HashKeys(order[1..], n) == ks + HashKeys(order, n)
  {
  }

  lemma RefFollows(h: Heap, st: Enc, k: nat, lag: nat, d: Dec, m: set<nat>)
    requires HeapOk(h) && st.Valid(h) && InStep(st, lag, d, m) && k < |st.objs| && k in m
    ensures k + 1 in d.refs && d.refs[k + 1] == k
    ensures Corr(RefObject(h, st, k).objs, TableRef(st.objs[k]), TableRef(k))
    ensures Follows(h, d, RefObject(h, st, k), lag, d.(pos := |RefObject(h, st, k).out|), m, NO_TABLE)
  {
    hide EncInteger;
    assert k + 1 in d.refs;
  }

  lemma SimRefObject(h: Heap, st: Enc, k: nat, f: seq<byte>, m: set<nat>, lag: nat, d: Dec)
    requires HeapOk(h) && st.Valid(h) && InStep(st, lag, d, m) && k < |st.objs|
    requires Agrees(RefObject(h, st, k), f, m)
    ensures d.pos <= |f| && |d.anc| == MAX_DEPTH
    ensures UnpackOne(f, d) == Ok((TableRef(k), d.(pos := |RefObject(h, st, k).out|)))
    ensures Corr(RefObject(h, st, k).objs, TableRef(st.objs[k]), TableRef(k))
    ensures Follows(h, d, RefObject(h, st, k), lag, d.(pos := |RefObject(h, st, k).out|), m, NO_TABLE)
  {
    hide *;
    StepLengths(st, lag, d, m);
    SmallId(h, st, k);
    RefBytesAt(h, st, k, f, m);
    RefByte(f, d.pos);
    ExtendIntegerRoundTrip(f, d.pos + 1, k + 1);
    MarkedByRef(h, st, k, f, m);
    RefFollows(h, st, k, lag, d, m);
    UnpackRefStep(f, d, k, d.pos + 1 + |EncInteger(k + 1)|);
  }

  lemma StepLengths(st: Enc, lag: nat, d: Dec, m: set<nat>)
    requires InStep(st, lag, d, m)
    ensures |d.anc| == MAX_DEPTH && d.pos == |st.out| && |d.tables| == |st.objs| && d.depth + lag == st.depth
  {
  }

  // What the decoder makes of an ancestor reference, right or not
  lemma UnpackAncestor(st: Enc, i: nat, f: seq<byte>, m: set<nat>, lag: nat, d: Dec)
    requires InStep(st, lag, d, m) && i < EXTEND_NUMBER
    requires forall k :: 0 <= k < |st.tags| ==> st.tags[k] < |st.out|
    requires Agrees(Emit(st, [Tag(TYPE_REF, i)]), f, m)
    ensures d.pos < |f| && |d.anc| == MAX_DEPTH
    ensures UnpackOne(f, d) ==
      if i < d.depth then Ok((StackAt(d.stack, d.anc[i]), d.(pos := d.pos + 1))) else Err(InvalidRef)
    ensures InStep(Emit(st, [Tag(TYPE_REF, i)]), lag, d.(pos := d.pos + 1), m)
  {
    EmittedAt(st, [Tag(TYPE_REF, i)], f, m);
    FirstOf(f, d.pos, [Tag(TYPE_REF, i)]);
  }

  // A reference that lands finds its table.
  lemma SimAncestor(h: Heap, st: Enc, a: Drift, o: nat, f: seq<byte>, m: set<nat>, d: Dec, places: seq<nat>)
    requires st.Valid(h) && InStep(st, a.lag, d, m) && Slots(st, a, d.depth, d.anc, d.stack, places)
    requires RefAncestor(st, o).Some? && Lands(st, a, RefAncestor(st, o).value)
    requires Agrees(Emit(st, [Tag(TYPE_REF, RefAncestor(st, o).value)]), f, m)
    ensures d.pos <= |f| && |d.anc| == MAX_DEPTH && UnpackOne(f, d).Ok?
    ensures var (w, d2) := UnpackOne(f, d).value;
      var r := Emit(st, [Tag(TYPE_REF, RefAncestor(st, o).value)]);
      Corr(r.objs, TableRef(o), w) && Follows(h, d, r, a.lag, d2, m, NO_TABLE)
  {
    hide UnpackOne, Agrees, Distinct;
    UnpackAncestor(st, RefAncestor(st, o).value, f, m, a.lag, d);
  }

  lemma SimOneScalar(h: Heap, st: Enc, v: Value, f: seq<byte>, m: set<nat>, lag: nat, d: Dec)
    requires HeapOk(h) && st.Valid(h) && ValueOk(h, v) && InStep(st, lag, d, m) && !v.TableRef?
    requires Agrees(PackOne(h, st, v), f, m)
    ensures d.pos <= |f| && |d.anc| == MAX_DEPTH
    ensures UnpackOne(f, d) == Ok((v, d.(pos := |PackOne(h, st, v).out|)))
    ensures Follows(h, d, PackOne(h, st, v), lag, d.(pos := |PackOne(h, st, v).out|), m, NO_TABLE)
  {
    hide UnpackOne, Agrees;
    SimScalar(h, st, v, f, m, d);
  }

  lemma CreateInStep(h: Heap, st: Enc, o: nat, n: nat, lag: nat, d: Dec, m: set<nat>)
    requires st.Valid(h) && InStep(st, lag, d, m) && o in h && o !in st.objs && n < INT_LIMIT
    ensures var r := OpenTable(h, Enter(st, o), o, n);
      var d1 := Create(d.(pos := |r.out|), MarkType(|st.objs|, m)).(depth := d.depth + 1);
      && InStep(r, lag, d1, m) && d1.tables == d.tables + [map[]] && d1.stack == d.stack + [TableRef(|d.tables|)]
      && d1.anc == (if d.depth < |d.anc| then d.anc[d.depth := |d.stack|] else d.anc)
  {
    hide Header, Distinct;
  }

  lemma UnpackTableSteps(f: seq<byte>, d: Dec, t: int, n: int, p: nat, d2: Dec, d3: Dec)
    requires |d.anc| == MAX_DEPTH && d.pos < |f| && p <= |f|
    requires f[d.pos] % 8 == t && (t == TYPE_TABLE || t == TYPE_TABLE_MARK)
    requires TableSize(f, d.pos + 1, f[d.pos] / 8) == Ok((n, p))
    requires UnpackArray(f, Create(d.(pos := p), t).(depth := d.depth + 1), |d.tables|, 1, n) == Ok(d2)
    requires |d2.anc| == MAX_DEPTH && d2.pos <= |f| && |d.tables| < |d2.tables|
    requires UnpackHash(f, d2.(depth := d.depth), |d.tables|) == Ok(d3)
    ensures UnpackOne(f, d) == Ok((TableRef(|d.tables|), d3.(stack := d.stack)))
  {
    hide UnpackArray, UnpackHash, TableSize;
    var dp, cookie := d.(pos := d.pos + 1), f[d.pos] / 8;
    assert dp.(pos := p) == d.(pos := p);
    assert UnpackTable(f, dp, cookie, t) == Ok((TableRef(|d.tables|), d3.(stack := d.stack)));
    assert PushValue(f, dp, t, cookie) == Ok((TableRef(|d.tables|), d3.(stack := d.stack)));
  }

  lemma TableFollows(h: Heap, st: Enc, o: nat, lag: nat, d: Dec, d1: Dec, r: Enc, d3: Dec, m: set<nat>)
    requires o in h && InStep(st, lag, d, m) && st.objs + [o] <= r.objs && st.depth + 1 == r.depth
    requires d1.tables == d.tables + [map[]] && d3.depth == d.depth
    requires Follows(h, d1, r, lag, d3.(depth := d.depth + 1), m, |d.tables|)
    requires |d.tables| < |d3.tables| && Filled(r.objs, h[o], d3.tables[|d.tables|], h[o].entries.Keys)
    ensures Follows(h, d, r.(depth := st.depth), lag, d3.(stack := d.stack), m, NO_TABLE)
    ensures Corr(r.objs, TableRef(o), TableRef(|d.tables|))
  {
    assert r.objs[|st.objs|] == o;
  }

  lemma EmptyTable(objs: seq<nat>, t: LuaTable)
    ensures Filled(objs, t, map[], ArrayKeys(t, 0))
  {
    assert ArrayKeys(t, 0) == {};
  }

  lemma FollowsStep(h: Heap, d: Dec, r: Enc, lag: nat, d2: Dec, m: set<nat>, id: int)
    requires Follows(h, d, r, lag, d2, m, id)
    ensures |d.tables| <= |d2.tables| && InStep(r, lag, d2, m) && d2.depth + lag == r.depth && |d2.anc| == MAX_DEPTH
  {
  }
  // One entry more
  lemma FillOne(objs: seq<nat>, t: LuaTable, m: Contents, ks: set<Value>, k: Value, c: Value, w: Value)
    requires Distinct(objs) && Filled(objs, t, m, ks) && k in t.entries && t.entries[k] != Nil
    requires Corr(objs, k, c) && Corr(objs, t.entries[k], w)
    ensures Filled(objs, t, RawSet(m, c, w), ks + {k})
  {
    CorrIsImage(objs, k, c);
    CorrIsImage(objs, t.entries[k], w);
    assert w != Nil;
    var now := RawSet(m, c, w);
    forall k2 | k2 in ks + {k}
      ensures Image(objs, k2) in now && now[Image(objs, k2)] == Image(objs, t.entries[k2])
    {
      if k2 != k && Image(objs, k2) == c {
        ImageInjective(objs, k2, k);
      }
    }
    forall x | x in now ensures exists k2 :: k2 in ks + {k} && x == Image(objs, k2) {
      if x in m {
        var k2 :| k2 in ks && x == Image(objs, k2);
      }
    }
  }

  lemma FillArray(objs: seq<nat>, t: LuaTable, m: Contents, i: nat, w: Value)
    requires Distinct(objs) && 0 < i < INT_LIMIT && Filled(objs, t, m, ArrayKeys(t, i - 1)) && Corr(objs, RawGetI(t, i), w)
    requires forall k :: k in t.entries ==> t.entries[k] != Nil
    ensures IntegerToDouble(i) == DoubleOf(i)
    ensures Filled(objs, t, RawSet(m, Number(IntegerToDouble(i)), w), ArrayKeys(t, i))
  {
    hide Corr, Filled, InArray;
    NextArrayKey(t, i);
    var k := IndexKey(i);
    if k in t.entries {
      ScalarCorr(objs, k);
      FillOne(objs, t, m, ArrayKeys(t, i - 1), k, k, w);
    } else {
      NothingThere(objs, t, m, ArrayKeys(t, i - 1), k);
      NilCorr(objs, w);
      assert ArrayKeys(t, i) == ArrayKeys(t, i - 1);
    }
  }

  lemma ScalarCorr(objs: seq<nat>, k: Value)
    requires !k.TableRef?
    ensures Corr(objs, k, k)
  {
  }

  lemma NilCorr(objs: seq<nat>, w: Value)
    requires Corr(objs, Nil, w)
    ensures w == Nil
  {
  }

  lemma NothingThere(objs: seq<nat>, t: LuaTable, m: Contents, ks: set<Value>, k: Value)
    requires Filled(objs, t, m, ks) && !k.TableRef? && k !in ks
    ensures m - {k} == m
  {
    assert k !in m;
  }

  lemma {:induction false} SimOne(
    h: Heap, st: Enc, a: Drift, v: Value, f: seq<byte>, m: set<nat>, d: Dec, places: seq<nat>)
    requires HeapOk(h) && st.Valid(h) && ValueOk(h, v) && Sane(st, a) && InStep(st, a.lag, d, m)
    requires Slots(st, a, d.depth, d.anc, d.stack, places)
    requires Agrees(PackOne(h, st, v), f, m) && !DriftOne(h, st, a, v).astray
    ensures d.pos <= |f| && |d.anc| == MAX_DEPTH && UnpackOne(f, d).Ok?
    ensures var (w, d2) := UnpackOne(f, d).value;
      Corr(PackOne(h, st, v).objs, v, w) && Follows(h, d, PackOne(h, st, v), a.lag, d2, m, NO_TABLE)
    decreases Unmet(h, st), 1, 0
  {
    hide *;
    StepLengths(st, a.lag, d, m);
    if v.TableRef? {
      PackOneCases(h, st, v);
      DriftOneCases(h, st, a, v);
      if RefAncestor(st, v.id).Some? {
        SimAncestor(h, st, a, v.id, f, m, d, places);
      } else if IndexOf(st.objs, v.id).Some? {
        SimRefObject(h, st, IndexOf(st.objs, v.id).value, f, m, a.lag, d);
      } else {
        SimTable(h, st, a, v.id, f, m, d, places);
      }
    } else {
      SimOneScalar(h, st, v, f, m, a.lag, d);
      PackScalar(h, st, v);
      ScalarCorr(PackOne(h, st, v).objs, v);
    }
  }

  lemma PackScalar(h: Heap, st: Enc, v: Value)
    requires HeapOk(h) && st.Valid(h) && ValueOk(h, v) && !v.TableRef?
    ensures PackOne(h, st, v) == Emit(st, EncScalar(v))
  {
  }

  // The same three ways, as they drift
  lemma DriftOneCases(h: Heap, st: Enc, a: Drift, v: Value)
    requires HeapOk(h) && st.Valid(h) && ValueOk(h, v) && Sane(st, a) && v.TableRef?
    ensures |st.anc| == MAX_DEPTH && v.id in h
    ensures RefAncestor(st, v.id).Some? ==>
      var i := RefAncestor(st, v.id).value;
      DriftOne(h, st, a, v) == a.(astray := a.astray || !Lands(st, a, i)) && IndexOf(st.objs, st.anc[i]) == IndexOf(st.objs, v.id)
    ensures RefAncestor(st, v.id).None? && IndexOf(st.objs, v.id).Some? ==>
      DriftOne(h, st, a, v) == a && st.objs[IndexOf(st.objs, v.id).value] == v.id
    ensures RefAncestor(st, v.id).None? && IndexOf(st.objs, v.id).None? ==>
      && v.id !in st.objs && Enter(st, v.id).Valid(h) && Sane(Enter(st, v.id), EnterDrift(st, a))
      && a.lag < Enter(st, v.id).depth && Enter(st, v.id).objs == st.objs
      && DriftOne(h, st, a, v) == DriftTable(h, Enter(st, v.id), EnterDrift(st, a), v.id)
  {
    hide DriftTable, Distinct;
  }

  // The stages of DriftTable
  lemma DriftTableSteps(h: Heap, st: Enc, a: Drift, o: nat)
    requires HeapOk(h) && st.Valid(h) && o in h && o !in st.objs && Sane(st, a)
    requires Enter(st, o).Valid(h) && Sane(Enter(st, o), EnterDrift(st, a)) && a.lag < Enter(st, o).depth
    requires Enter(st, o).objs == st.objs
    ensures TableOk(h, h[o]) && h[o].objlen < INT_LIMIT
    ensures ValuesOk(h, ArrayItems(h[o])) && (forall k :: k in h[o].order ==> k in h[o].entries)
    ensures var t := h[o];
      var st1 := OpenTable(h, Enter(st, o), o, t.objlen);
      var st2 := PackSeq(h, st1, ArrayItems(t));
      var b := EnterDrift(st, a);
      && st1.Valid(h) && st2.Valid(h) && Sane(st1, b) && b.lag == a.lag && b.astray == a.astray
      && st1.depth == st.depth + 1 && st2.depth == st.depth + 1 && st1.objs == st.objs + [o] && st1.anc == Enter(st, o).anc
      && var c := DriftSeq(h, st1, b, ArrayItems(t));
         && Sane(st2, c) && c.lag == a.lag && a.lag < st2.depth && Drifts(st1, b, c, 0)
         && DriftTable(h, Enter(st, o), b, o) == DriftHash(h, st2, c, t, t.order)
         && (c.astray ==> DriftHash(h, st2, c, t, t.order).astray)
  {
    hide Drifts, Extends, Distinct, Enc.Valid, DriftSeq, DriftHash;
    var t, st0 := h[o], Enter(st, o);
    ItemsOk(h, t);
    OpeningMeets(h, st0, o);
    var st1 := OpenTable(h, st0, o, t.objlen);
    var st2 := PackSeq(h, st1, ArrayItems(t));
    PackSeqDepth(h, st1, ArrayItems(t));
    var b := EnterDrift(st, a);
    SeqDrifts(h, st1, b, ArrayItems(t));
    HashDrifts(h, st2, DriftSeq(h, st1, b, ArrayItems(t)), t, t.order);
    StaysAstray(st2, DriftSeq(h, st1, b, ArrayItems(t)), DriftTable(h, st0, b, o), 1);
  }

  lemma StaysAstray(st: Enc, a: Drift, b: Drift, own: nat)
    requires Drifts(st, a, b, own)
    ensures a.astray ==> b.astray
  {
  }

  // What reading leaves as it was
  lemma ArrayAdvances(f: seq<byte>, d: Dec, id: nat, i: nat, n: int)
    requires d.pos <= |f| && |d.anc| == MAX_DEPTH && id < |d.tables| && UnpackArray(f, d, id, i, n).Ok?
    ensures var r := UnpackArray(f, d, id, i, n).value;
      && d.pos <= r.pos && r.stack == d.stack && r.depth == d.depth && |r.anc| == |d.anc| && |r.tables| >= |d.tables|
      && forall j :: 0 <= j < d.depth && j < |d.anc| ==> r.anc[j] == d.anc[j]
  {
    hide UnpackArray;
  }

  lemma OneAdvances(f: seq<byte>, d: Dec)
    requires d.pos <= |f| && |d.anc| == MAX_DEPTH && UnpackOne(f, d).Ok?
    ensures var r := UnpackOne(f, d).value.1;
      && r.stack == d.stack && r.depth == d.depth && |r.anc| == |d.anc| && |r.tables| >= |d.tables| && r.pos <= |f|
      && forall j :: 0 <= j < d.depth && j < |d.anc| ==> r.anc[j] == d.anc[j]
  {
    hide UnpackOne;
  }

  lemma {:induction false} SimTable(
    h: Heap, st: Enc, a: Drift, o: nat, f: seq<byte>, m: set<nat>, d: Dec, places: seq<nat>)
    requires HeapOk(h) && st.Valid(h) && Sane(st, a) && InStep(st, a.lag, d, m) && o in h && o !in st.objs
    requires Slots(st, a, d.depth, d.anc, d.stack, places)
    requires Enter(st, o).Valid(h) && Sane(Enter(st, o), EnterDrift(st, a)) && a.lag < Enter(st, o).depth
    requires Enter(st, o).objs == st.objs
    requires Agrees(PackTable(h, Enter(st, o), o).(depth := st.depth), f, m)
    requires !DriftTable(h, Enter(st, o), EnterDrift(st, a), o).astray
    ensures d.pos <= |f| && UnpackOne(f, d).Ok?
    ensures var r := PackTable(h, Enter(st, o), o).(depth := st.depth);
      var (w, d2) := UnpackOne(f, d).value;
      Corr(r.objs, TableRef(o), w) && Follows(h, d, r, a.lag, d2, m, NO_TABLE)
    decreases Unmet(h, st), 0, 0
  {
    hide *;
    PackTableSteps(h, st, o, f, m);
    DriftTableSteps(h, st, a, o);
    StepLengths(st, a.lag, d, m);
    var t, st0, b := h[o], Enter(st, o), EnterDrift(st, a);
    var st1 := OpenTable(h, st0, o, t.objlen);
    var st2 := PackSeq(h, st1, ArrayItems(t));
    var st4 := Emit(PackSeq(h, st2, ItemsOf(t)), EncScalar(Nil));
    var c := DriftSeq(h, st1, b, ArrayItems(t));
    SimHeader(h, st0, o, t.objlen, f, m, d);
    CreateInStep(h, st, o, t.objlen, a.lag, d, m);
    OpenSlots(st, a, o, st1, d.depth, d.anc, d.stack, places);
    var id, ty := |d.tables|, MarkType(|st.objs|, m);
    var d1 := Create(d.(pos := |st1.out|), ty).(depth := d.depth + 1);
    var places1 := places + [|d.stack|];
    EmptyTable(st1.objs, t);
    assert ArrayItems(t)[0..] == ArrayItems(t);
    SimArray(h, st1, b, t, 1, f, m, d1, id, places1);
    var d2 := UnpackArray(f, d1, id, 1, t.objlen).value;
    FollowsStep(h, d1, st2, a.lag, d2, m, id);
    ArrayAdvances(f, d1, id, 1, t.objlen);
    PackSeqKeeps(h, st1, ArrayItems(t));
    SlotsKept(st1, b, d1.depth, d1.anc, d1.stack, places1, st2, c, d2.anc);
    var d2' := d2.(depth := d.depth);
    assert d2'.(depth := d2'.depth + 1) == d2;
    SimHash(h, st2, c, t, t.order, f, m, d2', id, places1, ArrayKeys(t, t.objlen));
    var d3 := UnpackHash(f, d2', id).value;
    MarkTypes(|st.objs|, m);
    HashDepth(f, d2', id);
    UnpackTableSteps(f, d, ty, t.objlen, |st1.out|, d2, d3);
    DistinctObjs(h, st4);
    FollowsTables(h, d2', d2, st4, a.lag, d3.(depth := d2.depth), m, id);
    FollowsTransitive(h, d1, st2, d2, st4, a.lag, d3.(depth := d2.depth), m, id);
    AllKeys(t);
    TableFollows(h, st, o, a.lag, d, d1, st4, d3, m);
  }

  lemma FollowsTables(h: Heap, d: Dec, e: Dec, r: Enc, lag: nat, d2: Dec, m: set<nat>, id: int)
    requires Follows(h, d, r, lag, d2, m, id) && e.tables == d.tables
    ensures Follows(h, e, r, lag, d2, m, id)
  {
  }

  lemma DistinctObjs(h: Heap, st: Enc)
    requires st.Valid(h)
    ensures Distinct(st.objs)
  {
  }

  lemma PackSeqKeeps(h: Heap, st: Enc, vs: seq<Value>)
    requires HeapOk(h) && st.Valid(h) && ValuesOk(h, vs)
    ensures Extends(st, PackSeq(h, st, vs)) && |PackSeq(h, st, vs).anc| == |st.anc|
  {
    hide PackSeq;
    assert PackSeq(h, st, vs).Valid(h);
  }

  lemma PackOneKeeps(h: Heap, st: Enc, v: Value)
    requires HeapOk(h) && st.Valid(h) && ValueOk(h, v)
    ensures Extends(st, PackOne(h, st, v)) && |PackOne(h, st, v).anc| == |st.anc|
    ensures PackOne(h, st, v).depth == st.depth && st.objs <= PackOne(h, st, v).objs
  {
    hide PackOne;
    assert PackOne(h, st, v).Valid(h);
  }

  // One array element read and stored
  lemma ArrayStep(h: Heap, st: Enc, d: Dec, r: Enc, lag: nat, d1: Dec, m: set<nat>, t: LuaTable, id: nat, i: nat, w: Value)
    requires st.objs <= r.objs && Distinct(r.objs) && Follows(h, d, r, lag, d1, m, NO_TABLE) && id < |d.tables| && 0 < i < INT_LIMIT
    requires TableOk(h, t) && i <= t.objlen && Corr(r.objs, ArrayItems(t)[i - 1..][0], w)
    requires Filled(st.objs, t, d.tables[id], ArrayKeys(t, i - 1))
    ensures id < |d1.tables|
    ensures var d2 := Assign(d1, id, Number(IntegerToDouble(i)), w);
      && |d2.anc| == MAX_DEPTH && InStep(r, lag, d2, m) && Follows(h, d, r, lag, d2, m, id)
      && Filled(r.objs, t, d2.tables[id], ArrayKeys(t, i))
  {
    hide Filled, Distinct, Corr, ArrayKeys, RawSet;
    FilledGrows(st.objs, r.objs, t, d.tables[id], ArrayKeys(t, i - 1));
    FillArray(r.objs, t, d.tables[id], i, w);
  }

  lemma AssignKeeps(d: Dec, id: nat, k: Value, v: Value)
    requires id < |d.tables|
    ensures var r := Assign(d, id, k, v);
      r.depth == d.depth && r.anc == d.anc && r.stack == d.stack && |r.tables| == |d.tables| && r.pos == d.pos
  {
  }

  lemma SlotsSane(st: Enc, a: Drift, depth: nat, anc: seq<nat>, stack: seq<Value>, places: seq<nat>)
    requires Slots(st, a, depth, anc, stack, places)
    ensures Sane(st, a)
  {
  }

  lemma {:induction false} SimArray(
    h: Heap, st: Enc, a: Drift, t: LuaTable, i: nat, f: seq<byte>, m: set<nat>, d: Dec, id: nat, places: seq<nat>)
    requires HeapOk(h) && st.Valid(h) && Sane(st, a) && InStep(st, a.lag, d, m) && TableOk(h, t)
    requires Slots(st, a, d.depth, d.anc, d.stack, places)
    requires 0 < i <= t.objlen + 1 && id < |d.tables|
    requires ValuesOk(h, ArrayItems(t)[i - 1..])
    requires Filled(st.objs, t, d.tables[id], ArrayKeys(t, i - 1))
    requires Agrees(PackSeq(h, st, ArrayItems(t)[i - 1..]), f, m)
    requires !DriftSeq(h, st, a, ArrayItems(t)[i - 1..]).astray
    ensures d.pos <= |f| && |d.anc| == MAX_DEPTH && UnpackArray(f, d, id, i, t.objlen).Ok?
    ensures var r := PackSeq(h, st, ArrayItems(t)[i - 1..]);
      var d2 := UnpackArray(f, d, id, i, t.objlen).value;
      Follows(h, d, r, a.lag, d2, m, id) && Filled(r.objs, t, d2.tables[id], ArrayKeys(t, t.objlen))
    decreases Unmet(h, st), 2, t.objlen + 1 - i
  {
    hide *;
    TableSizeOk(h, t);
    var vs := ArrayItems(t)[i - 1..];
    StepLengths(st, a.lag, d, m);
    PackSeqExtends(h, st, vs, f, m);
    if i <= t.objlen {
      PackSeqStep(h, st, vs, f, m);
      assert vs[1..] == ArrayItems(t)[i..];
      var st1 := PackOne(h, st, vs[0]);
      DriftSeqStep(h, st, a, vs);
      var b := DriftOne(h, st, a, vs[0]);
      SimOne(h, st, a, vs[0], f, m, d, places);
      var (w, d1) := UnpackOne(f, d).value;
      OneAdvances(f, d);
      UnpackArrayStep(f, d, id, i, t.objlen);
      var d1' := Assign(d1, id, Number(IntegerToDouble(i)), w);
      AssignKeeps(d1, id, Number(IntegerToDouble(i)), w);
      DistinctObjs(h, st1);
      ArrayStep(h, st, d, st1, a.lag, d1, m, t, id, i, w);
      PackOneKeeps(h, st, vs[0]);
      SlotsKept(st, a, d.depth, d.anc, d.stack, places, st1, b, d1.anc);
      SlotsSane(st1, b, d1'.depth, d1'.anc, d1'.stack, places);
      SimArray(h, st1, b, t, i + 1, f, m, d1', id, places);
      DistinctObjs(h, PackSeq(h, st1, vs[1..]));
      FollowsTransitive(h, d, st1, d1', PackSeq(h, st1, vs[1..]), a.lag,
                        UnpackArray(f, d1', id, i + 1, t.objlen).value, m, id);
    } else {
      SimArrayEnd(h, st, a.lag, t, i, f, m, d, id);
    }
  }

  lemma DriftSeqStep(h: Heap, st: Enc, a: Drift, vs: seq<Value>)
    requires HeapOk(h) && st.Valid(h) && ValuesOk(h, vs) && Sane(st, a) && vs != []
    ensures ValueOk(h, vs[0]) && ValuesOk(h, vs[1..]) && Sane(PackOne(h, st, vs[0]), DriftOne(h, st, a, vs[0]))
    ensures DriftSeq(h, st, a, vs) == DriftSeq(h, PackOne(h, st, vs[0]), DriftOne(h, st, a, vs[0]), vs[1..])
    ensures Drifts(st, a, DriftOne(h, st, a, vs[0]), 0) && DriftOne(h, st, a, vs[0]).lag == a.lag
    ensures DriftOne(h, st, a, vs[0]).astray ==> DriftSeq(h, st, a, vs).astray
    ensures a.astray ==> DriftOne(h, st, a, vs[0]).astray
  {
    hide Drifts, HeapOk, Enc.Valid;
    PackDepth(h, st, vs[0]);
    OneDrifts(h, st, a, vs[0]);
    var st1, b := PackOne(h, st, vs[0]), DriftOne(h, st, a, vs[0]);
    StaysAstray(st, a, b, 0);
    SeqDrifts(h, st1, b, vs[1..]);
    StaysAstray(st1, b, DriftSeq(h, st1, b, vs[1..]), 0);
  }

  lemma SimArrayEnd(h: Heap, st: Enc, lag: nat, t: LuaTable, i: nat, f: seq<byte>, m: set<nat>, d: Dec, id: nat)
    requires InStep(st, lag, d, m) && d.pos <= |f|
    requires id < |d.tables| && i == t.objlen + 1
    ensures UnpackArray(f, d, id, i, t.objlen) == Ok(d) && Follows(h, d, st, lag, d, m, id)
  {
  }
  lemma {:induction false} SimHash(
    h: Heap, st: Enc, a: Drift, t: LuaTable, order: seq<Value>, f: seq<byte>, m: set<nat>, d: Dec, id: nat, places: seq<nat>,
    ks: set<Value>)
    requires HeapOk(h) && st.Valid(h) && TableOk(h, t) && Sane(st, a) && a.lag < st.depth
    requires InStep(st, a.lag, d.(depth := d.depth + 1), m) && id < |d.tables|
    requires Slots(st, a, d.depth + 1, d.anc, d.stack, places) && Top(a, d.depth + 1, d.stack, places)
    requires forall k :: k in order ==> k in t.entries
    requires ValuesOk(h, HashItems(t.entries, t.objlen, order))
    requires Filled(st.objs, t, d.tables[id], ks)
    requires Agrees(Emit(PackSeq(h, st, HashItems(t.entries, t.objlen, order)), EncScalar(Nil)), f, m)
    requires !DriftHash(h, st, a, t, order).astray
    ensures d.pos <= |f| && |d.anc| == MAX_DEPTH && UnpackHash(f, d, id).Ok?
    ensures var r := Emit(PackSeq(h, st, HashItems(t.entries, t.objlen, order)), EncScalar(Nil));
      var d2 := UnpackHash(f, d, id).value;
      && Follows(h, d, r, a.lag, d2.(depth := d.depth + 1), m, id)
      && Filled(r.objs, t, d2.tables[id], ks + HashKeys(order, t.objlen))
    decreases Unmet(h, st), 2, |order|
  {
    hide *;
    if order == [] {
      NoItems(h, st, t);
      SimHashEnd(h, st, a.lag, t, f, m, d, id, ks);
    } else if InArray(order[0], t.objlen) {
      SkippedKey(t, order);
      SkippedDrift(h, st, a, t, order);
      SimHash(h, st, a, t, order[1..], f, m, d, id, places, ks);
    } else {
      SimEntry(h, st, a, t, order, f, m, d, id, places, ks);
    }
  }

  lemma SkippedDrift(h: Heap, st: Enc, a: Drift, t: LuaTable, order: seq<Value>)
    requires HeapOk(h) && st.Valid(h) && TableOk(h, t) && Sane(st, a) && a.lag < st.depth
    requires order != [] && InArray(order[0], t.objlen) && forall k :: k in order ==> k in t.entries
    ensures DriftHash(h, st, a, t, order) == DriftHash(h, st, a, t, order[1..])
  {
  }

  lemma SimHashEnd(h: Heap, st: Enc, lag: nat, t: LuaTable, f: seq<byte>, m: set<nat>, d: Dec, id: nat, ks: set<Value>)
    requires HeapOk(h) && st.Valid(h)
    requires InStep(st, lag, d.(depth := d.depth + 1), m) && id < |d.tables|
    requires Filled(st.objs, t, d.tables[id], ks) && Agrees(Emit(st, EncScalar(Nil)), f, m)
    ensures d.pos <= |f| && |d.anc| == MAX_DEPTH && UnpackHash(f, d, id).Ok?
    ensures var r := Emit(st, EncScalar(Nil));
      var d2 := UnpackHash(f, d, id).value;
      && Follows(h, d, r, lag, d2.(depth := d.depth + 1), m, id)
      && Filled(r.objs, t, d2.tables[id], ks + HashKeys([], t.objlen))
  {
    hide UnpackOne, EncScalar, Agrees, Filled;
    SimScalar(h, st, Nil, f, m, d);
    assert ks + HashKeys([], t.objlen) == ks;
  }

  // The stages of one entry, all of them seen in the final buffer
  lemma PackEntrySteps(h: Heap, st: Enc, t: LuaTable, order: seq<Value>, f: seq<byte>, m: set<nat>)
    requires HeapOk(h) && st.Valid(h) && TableOk(h, t)
    requires forall k :: k in order ==> k in t.entries
    requires order != [] && !InArray(order[0], t.objlen)
    requires ValuesOk(h, HashItems(t.entries, t.objlen, order))
    requires Agrees(Emit(PackSeq(h, st, HashItems(t.entries, t.objlen, order)), EncScalar(Nil)), f, m)
    ensures var k, v := order[0], t.entries[order[0]];
      var rest := HashItems(t.entries, t.objlen, order[1..]);
      && k in t.entries && k != Nil && v != Nil && ValueOk(h, k) && ValueOk(h, v) && ValuesOk(h, rest)
      && var st1 := PackOne(h, st, k);
      && var st2 := PackOne(h, st1, v);
      && PackSeq(h, st, HashItems(t.entries, t.objlen, order)) == PackSeq(h, st2, rest)
      && st1.depth == st.depth && st2.depth == st.depth && st.objs <= st1.objs && st1.objs <= st2.objs
      && st2.objs <= Emit(PackSeq(h, st2, rest), EncScalar(Nil)).objs
      && Emit(PackSeq(h, st2, rest), EncScalar(Nil)).Valid(h)
      && Unmet(h, st1) <= Unmet(h, st) && Unmet(h, st2) <= Unmet(h, st)
      && Agrees(st1, f, m) && Agrees(st2, f, m)
      && Extends(st, st1) && Extends(st1, st2) && |st.anc| == |st1.anc| == |st2.anc|
  {
    hide PackSeq, Extends, Agrees, PackOne;
    var k, v := order[0], t.entries[order[0]];
    var rest := HashItems(t.entries, t.objlen, order[1..]);
    PackPair(h, st, k, v, rest);
    var st1 := PackOne(h, st, k);
    var st2 := PackOne(h, st1, v);
    var r := PackSeq(h, st2, rest);
    UnmetShrinks(h, st, st1);
    UnmetShrinks(h, st1, st2);
    UnmetShrinks(h, st2, r);
    DepthKept(st, st1);
    DepthKept(st1, st2);
    EmitKeeps(h, r, EncScalar(Nil));
    AgreesBack(r, Emit(r, EncScalar(Nil)), f, m);
    AgreesBack(st2, r, f, m);
    AgreesBack(st1, st2, f, m);
  }

  lemma DriftEntrySteps(h: Heap, st: Enc, a: Drift, t: LuaTable, order: seq<Value>)
    requires HeapOk(h) && st.Valid(h) && TableOk(h, t) && Sane(st, a) && a.lag < st.depth
    requires order != [] && !InArray(order[0], t.objlen) && forall k :: k in order ==> k in t.entries
    ensures var k, v := order[0], t.entries[order[0]];
      && ValueOk(h, k) && ValueOk(h, v)
      && Sane(st, a.(lag := a.lag + 1))
      && var st1 := PackOne(h, st, k);
      && var b := DriftKey(h, st, a, k);
      && st1.depth == st.depth && Sane(st1, b) && b.lag == a.lag && Drifts(st, a, b, 1)
      && DriftOne(h, st, a.(lag := a.lag + 1), k).astray == b.astray
      && var st2 := PackOne(h, st1, v);
      && var c := DriftOne(h, st1, b, v);
      && st2.depth == st.depth && Sane(st2, c) && c.lag == a.lag && Drifts(st1, b, c, 0)
      && DriftHash(h, st, a, t, order) == DriftHash(h, st2, c, t, order[1..])
      && (a.astray ==> b.astray) && (b.astray ==> c.astray) && (c.astray ==> DriftHash(h, st, a, t, order).astray)
  {
    hide Drifts, Extends, HeapOk, Enc.Valid;
    var k, v := order[0], t.entries[order[0]];
    var st1 := PackOne(h, st, k);
    PackDepth(h, st, k);
    var st2 := PackOne(h, st1, v);
    PackDepth(h, st1, v);
    var b := DriftKey(h, st, a, k);
    OneDrifts(h, st, a.(lag := a.lag + 1), k);
    KeyDrifts(st, a, DriftOne(h, st, a.(lag := a.lag + 1), k));
    var c := DriftOne(h, st1, b, v);
    OneDrifts(h, st1, b, v);
    HashDrifts(h, st2, c, t, order[1..]);
    StaysAstray(st, a, b, 1);
    StaysAstray(st1, b, c, 0);
    StaysAstray(st2, c, DriftHash(h, st2, c, t, order[1..]), 1);
  }

  // A table that is read takes the slot at the depth.
  lemma TableTakesSlot(f: seq<byte>, d: Dec)
    requires d.pos < |f| && |d.anc| == MAX_DEPTH && d.depth < MAX_DEPTH && UnpackOne(f, d).Ok?
    requires f[d.pos] % 8 == TYPE_TABLE || f[d.pos] % 8 == TYPE_TABLE_MARK
    ensures UnpackOne(f, d).value.1.anc[d.depth] >= |d.stack|
  {
    hide UnpackArray, UnpackHash, GetExtendInteger;
    var dp, cookie, t := d.(pos := d.pos + 1), f[d.pos] / 8, f[d.pos] % 8;
    assert UnpackOne(f, d) == UnpackTable(f, dp, cookie, t);
  }

  // The slot of the table whose key it is: as it was, or another's and not clean
  lemma KeySlot(h: Heap, st: Enc, a: Drift, k: Value, f: seq<byte>, m: set<nat>, d: Dec)
    requires HeapOk(h) && st.Valid(h) && ValueOk(h, k) && Sane(st, a) && a.lag < st.depth && Sane(st, a.(lag := a.lag + 1))
    requires InStep(st, a.lag + 1, d, m) && d.depth < MAX_DEPTH && d.pos <= |f| && UnpackOne(f, d).Ok?
    requires Agrees(PackOne(h, st, k), f, m)
    ensures var b, d1 := DriftKey(h, st, a, k), UnpackOne(f, d).value.1;
      || (b.clean[d.depth] == a.clean[d.depth] && d1.anc[d.depth] == d.anc[d.depth])
      || (!b.clean[d.depth] && d1.anc[d.depth] >= |d.stack|)
  {
    hide *;
    StepLengths(st, a.lag + 1, d, m);
    if k.TableRef? {
      PackOneCases(h, st, k);
      DriftOneCases(h, st, a.(lag := a.lag + 1), k);
      if RefAncestor(st, k.id).Some? {
        RefAncestorBound(st, k.id);
        TagBounds(h, st);
        UnpackAncestor(st, RefAncestor(st, k.id).value, f, m, a.lag + 1, d);
        KeyDriftIs(h, st, a, k);
      } else if IndexOf(st.objs, k.id).Some? {
        SimRefObject(h, st, IndexOf(st.objs, k.id).value, f, m, a.lag + 1, d);
        KeyDriftIs(h, st, a, k);
      } else {
        KeyTableSlot(h, st, a, k.id, f, m, d);
      }
    } else {
      SimOneScalar(h, st, k, f, m, a.lag + 1, d);
      KeyDriftIs(h, st, a, k);
    }
  }

  lemma RefAncestorBound(st: Enc, o: nat)
    requires |st.anc| == MAX_DEPTH && RefAncestor(st, o).Some?
    ensures RefAncestor(st, o).value < EXTEND_NUMBER && RefAncestor(st, o).value < st.depth
  {
  }

  lemma TagBounds(h: Heap, st: Enc)
    requires st.Valid(h)
    ensures forall k :: 0 <= k < |st.tags| ==> st.tags[k] < |st.out|
  {
  }

  lemma KeyDriftIs(h: Heap, st: Enc, a: Drift, k: Value)
    requires HeapOk(h) && st.Valid(h) && ValueOk(h, k) && Sane(st, a) && a.lag < st.depth
    requires k.TableRef? ==> RefAncestor(st, k.id).Some? || IndexOf(st.objs, k.id).Some?
    ensures DriftKey(h, st, a, k).clean == a.clean && DriftKey(h, st, a, k).lag == a.lag
  {
    hide DriftTable;
  }

  lemma KeyTableSlot(h: Heap, st: Enc, a: Drift, o: nat, f: seq<byte>, m: set<nat>, d: Dec)
    requires HeapOk(h) && st.Valid(h) && o in h && o !in st.objs && Sane(st, a) && a.lag < st.depth
    requires Sane(st, a.(lag := a.lag + 1)) && RefAncestor(st, o).None? && IndexOf(st.objs, o).None?
    requires InStep(st, a.lag + 1, d, m) && d.depth < MAX_DEPTH && d.pos <= |f| && UnpackOne(f, d).Ok?
    requires Agrees(PackTable(h, Enter(st, o), o).(depth := st.depth), f, m) && Enter(st, o).Valid(h)
    ensures !DriftKey(h, st, a, TableRef(o)).clean[d.depth] && UnpackOne(f, d).value.1.anc[d.depth] >= |d.stack|
  {
    hide *;
    StepLengths(st, a.lag + 1, d, m);
    PackTableSteps(h, st, o, f, m);
    SimHeader(h, Enter(st, o), o, h[o].objlen, f, m, d);
    MarkTypes(|Enter(st, o).objs|, m);
    TableTakesSlot(f, d);
    KeyTableUnclean(h, st, a, o);
  }

  lemma KeyTableUnclean(h: Heap, st: Enc, a: Drift, o: nat)
    requires HeapOk(h) && st.Valid(h) && o in h && o !in st.objs && Sane(st, a) && a.lag < st.depth
    requires Sane(st, a.(lag := a.lag + 1)) && RefAncestor(st, o).None? && IndexOf(st.objs, o).None?
    ensures var s := st.depth - a.lag - 1; s < MAX_DEPTH ==> !DriftKey(h, st, a, TableRef(o)).clean[s]
  {
    hide DriftTable, HeapOk, Enc.Valid;
    EnterKeeps(h, st, o);
    var b := EnterDrift(st, a.(lag := a.lag + 1));
    TableDrifts(h, Enter(st, o), b, o);
  }

  lemma {:induction false} SimEntry(
    h: Heap, st: Enc, a: Drift, t: LuaTable, order: seq<Value>, f: seq<byte>, m: set<nat>, d: Dec, id: nat, places: seq<nat>,
    ks: set<Value>)
    requires HeapOk(h) && st.Valid(h) && TableOk(h, t) && Sane(st, a) && a.lag < st.depth
    requires InStep(st, a.lag, d.(depth := d.depth + 1), m) && id < |d.tables|
    requires Slots(st, a, d.depth + 1, d.anc, d.stack, places) && Top(a, d.depth + 1, d.stack, places)
    requires forall k :: k in order ==> k in t.entries
    requires order != [] && !InArray(order[0], t.objlen)
    requires ValuesOk(h, HashItems(t.entries, t.objlen, order))
    requires Filled(st.objs, t, d.tables[id], ks)
    requires Agrees(Emit(PackSeq(h, st, HashItems(t.entries, t.objlen, order)), EncScalar(Nil)), f, m)
    requires !DriftHash(h, st, a, t, order).astray
    ensures d.pos <= |f| && |d.anc| == MAX_DEPTH && UnpackHash(f, d, id).Ok?
    ensures var r := Emit(PackSeq(h, st, HashItems(t.entries, t.objlen, order)), EncScalar(Nil));
      var d2 := UnpackHash(f, d, id).value;
      && Follows(h, d, r, a.lag, d2.(depth := d.depth + 1), m, id)
      && Filled(r.objs, t, d2.tables[id], ks + HashKeys(order, t.objlen))
    decreases Unmet(h, st), 2, |order|, 0
  {
    hide *;
    PackEntrySteps(h, st, t, order, f, m);
    DriftEntrySteps(h, st, a, t, order);
    var k, v := order[0], t.entries[order[0]];
    var rest := HashItems(t.entries, t.objlen, order[1..]);
    var up := a.(lag := a.lag + 1);
    var st1, b := PackOne(h, st, k), DriftKey(h, st, a, k);
    var st2, e := PackOne(h, st1, v), DriftOne(h, st1, b, v);
    var r := Emit(PackSeq(h, st2, rest), EncScalar(Nil));
    KeyInStep(st, a.lag, d, m);
    KeySlots(st, a, d.depth, d.anc, d.stack, places);
    SimOne(h, st, up, k, f, m, d, places);
    var (c, d1) := UnpackOne(f, d).value;
    KeyRead(h, st, a, k, f, m, d, places);
    FollowsStep(h, d, st1, a.lag + 1, d1, m, NO_TABLE);
    ValueInStep(st1, a.lag, d1, m, c);
    SimOne(h, st1, b, v, f, m, AtValue(d1, c), places);
    var (w, d2) := UnpackOne(f, AtValue(d1, c)).value;
    EntryRead(h, st1, b, v, st2, e, f, d1, c, d.depth, d.stack, places);
    var d3 := Assign(d2.(depth := d.depth, stack := d.stack), id, c, w);
    DistinctObjs(h, st2);
    HashStep(h, st, d, st1, d1, st2, a.lag, d2, m, t, ks, id, k, c, w);
    SlotsSane(st2, e, d.depth + 1, d3.anc, d.stack, places);
    SimHash(h, st2, e, t, order[1..], f, m, d3, id, places, ks + {k});
    UnpackHashStep(f, d, id, c, d1, w, d2);
    var d4 := UnpackHash(f, d3, id).value;
    DistinctObjs(h, r);
    FollowsTables(h, d3, d3.(depth := d.depth + 1), r, a.lag, d4.(depth := d.depth + 1), m, id);
    FollowsTransitive(h, d, st2, d3.(depth := d.depth + 1), r, a.lag, d4.(depth := d.depth + 1), m, id);
    NextHashKey(order, t.objlen, ks);
  }

  lemma KeyInStep(st: Enc, lag: nat, d: Dec, m: set<nat>)
    requires InStep(st, lag, d.(depth := d.depth + 1), m)
    ensures InStep(st, lag + 1, d, m)
  {
  }

  lemma ValueInStep(st: Enc, lag: nat, d: Dec, m: set<nat>, c: Value)
    requires InStep(st, lag + 1, d, m)
    ensures InStep(st, lag, AtValue(d, c), m) && AtValue(d, c).depth == d.depth + 1
    ensures AtValue(d, c).anc == d.anc && AtValue(d, c).stack == d.stack + [c] && AtValue(d, c).tables == d.tables
  {
  }

  // The key is read: what is on the stack, in the slots and in the way
  lemma KeyRead(h: Heap, st: Enc, a: Drift, k: Value, f: seq<byte>, m: set<nat>, d: Dec, places: seq<nat>)
    requires HeapOk(h) && st.Valid(h) && ValueOk(h, k) && Sane(st, a) && a.lag < st.depth && Sane(st, a.(lag := a.lag + 1))
    requires Slots(st, a, d.depth + 1, d.anc, d.stack, places) && Top(a, d.depth + 1, d.stack, places)
    requires Slots(st, a.(lag := a.lag + 1), d.depth, d.anc, d.stack, places)
    requires InStep(st, a.lag + 1, d, m) && Agrees(PackOne(h, st, k), f, m) && d.pos <= |f| && |d.anc| == MAX_DEPTH
    requires k != Nil && !DriftKey(h, st, a, k).astray && Drifts(st, a, DriftKey(h, st, a, k), 1)
    requires UnpackOne(f, d).Ok? && Corr(PackOne(h, st, k).objs, k, UnpackOne(f, d).value.0)
    ensures var (c, d1) := UnpackOne(f, d).value;
      var b := DriftKey(h, st, a, k);
      && c != Nil && d1.depth == d.depth && d1.stack == d.stack && d1.pos <= |f| && |d1.anc| == MAX_DEPTH
      && Slots(PackOne(h, st, k), b, d.depth + 1, d1.anc, d.stack + [c], places) && Top(b, d.depth + 1, d.stack, places)
  {
    hide *;
    var (c, d1) := UnpackOne(f, d).value;
    var b, st1 := DriftKey(h, st, a, k), PackOne(h, st, k);
    OneAdvances(f, d);
    PackOneKeeps(h, st, k);
    CorrBounds(st1.objs, k, c);
    if d.depth < MAX_DEPTH {
      KeySlot(h, st, a, k, f, m, d);
    }
    SlotsDepth(st, a, d.depth + 1, d.anc, d.stack, places);
    if st.depth < MAX_DEPTH {
      forall i | 0 <= i < st.depth && (!b.clean[i] || i > d.depth) ensures !Stands(st1.objs, c, st.anc[i]) {
        SoundKeyApart(h, st, a, d.depth, d.anc, d.stack, places, k, st1.objs, c, i);
      }
    }
    ValueSlots(st, a, d.depth, d.anc, d.stack, places, st1, b, d1.anc, c);
  }

  lemma SlotsDepth(st: Enc, a: Drift, depth: nat, anc: seq<nat>, stack: seq<Value>, places: seq<nat>)
    requires Slots(st, a, depth, anc, stack, places)
    ensures depth + a.lag == st.depth == |places| && |anc| == |st.anc| == |a.clean| == MAX_DEPTH
  {
  }

  lemma CorrBounds(objs: seq<nat>, k: Value, c: Value)
    requires Corr(objs, k, c) && k != Nil
    ensures c != Nil && (c.TableRef? ==> c.id < |objs|)
  {
  }

  // The value is read and both are stored: the stack is back at the table.
  lemma EntryRead(
    h: Heap, st1: Enc, b: Drift, v: Value, st2: Enc, e: Drift, f: seq<byte>, d1: Dec, c: Value, depth: nat, stack: seq<Value>,
    places: seq<nat>)
    requires HeapOk(h) && st1.Valid(h) && ValueOk(h, v) && Sane(st1, b) && st2 == PackOne(h, st1, v) && Drifts(st1, b, e, 0)
    requires Slots(st1, b, depth + 1, d1.anc, stack + [c], places) && Top(b, depth + 1, stack, places)
    requires d1.depth == depth && d1.stack == stack && d1.pos <= |f| && |d1.anc| == MAX_DEPTH && UnpackOne(f, AtValue(d1, c)).Ok?
    ensures var d2 := UnpackOne(f, AtValue(d1, c)).value.1;
      && Slots(st2, e, depth + 1, d2.anc, stack, places) && Top(e, depth + 1, stack, places)
      && |d2.tables| >= |d1.tables| && d2.pos <= |f| && |d2.anc| == MAX_DEPTH && d2.depth == depth + 1 && d2.stack == stack + [c]
  {
    hide Slots, UnpackOne, PackOne, Extends, Drifts;
    OneAdvances(f, AtValue(d1, c));
    var d2 := UnpackOne(f, AtValue(d1, c)).value.1;
    PackOneKeeps(h, st1, v);
    SlotsDepth(st1, b, depth + 1, d1.anc, stack + [c], places);
    SlotsKept(st1, b, depth + 1, d1.anc, stack + [c], places, st2, e, d2.anc);
    TopKept(st1, b, e, depth + 1, stack, places);
    PopSlots(st2, e, depth + 1, d2.anc, stack, c, places);
  }

  lemma TopKept(st: Enc, a: Drift, b: Drift, depth: nat, stack: seq<Value>, places: seq<nat>)
    requires Top(a, depth, stack, places) && Drifts(st, a, b, 0) && depth + a.lag == st.depth
    ensures Top(b, depth, stack, places)
  {
  }

  lemma UnpackHashStep(f: seq<byte>, d: Dec, id: nat, k: Value, d1: Dec, w: Value, d2: Dec)
    requires d.pos <= |f| && |d.anc| == MAX_DEPTH && id < |d.tables| && k != Nil
    requires UnpackOne(f, d) == Ok((k, d1)) && d1.pos <= |f| && |d1.anc| == MAX_DEPTH && d1.stack == d.stack && d1.depth == d.depth
    requires UnpackOne(f, AtValue(d1, k)) == Ok((w, d2))
    ensures id < |d2.tables| && d2.pos <= |f| && |d2.anc| == MAX_DEPTH
    ensures UnpackHash(f, d, id) == UnpackHash(f, Assign(d2.(depth := d.depth, stack := d.stack), id, k, w), id)
  {
    hide UnpackOne, PushValue, UnpackTable, UnpackArray, Assign;
  }

  // One hash entry read and stored
  lemma HashStep(
    h: Heap, st: Enc, d: Dec, st1: Enc, d1: Dec, st2: Enc, lag: nat, d2: Dec, m: set<nat>, t: LuaTable, ks: set<Value>, id: nat,
    k: Value, c: Value, w: Value)
    requires st.objs <= st1.objs && st1.objs <= st2.objs && Distinct(st2.objs) && id < |d.tables|
    requires Follows(h, d, st1, lag + 1, d1, m, NO_TABLE)
    requires Follows(h, AtValue(d1, c), st2, lag, d2, m, NO_TABLE) && d2.depth == d.depth + 1
    requires Filled(st.objs, t, d.tables[id], ks)
    requires k in t.entries && t.entries[k] != Nil && Corr(st1.objs, k, c) && Corr(st2.objs, t.entries[k], w)
    ensures id < |d2.tables|
    ensures var d3 := Assign(d2.(depth := d.depth, stack := d.stack), id, c, w);
      && d3.depth == d.depth && d3.anc == d2.anc && d3.stack == d.stack && |d3.tables| == |d2.tables|
      && InStep(st2, lag, d3.(depth := d.depth + 1), m) && Follows(h, d, st2, lag, d3.(depth := d.depth + 1), m, id)
      && Filled(st2.objs, t, d3.tables[id], ks + {k})
  {
    hide Filled, Distinct, RawSet;
    FilledGrows(st.objs, st2.objs, t, d.tables[id], ks);
    FillOne(st2.objs, t, d.tables[id], ks, k, c, w);
    forall q | |d.tables| <= q < |d1.tables| ensures TableCorr(st2.objs, h[st2.objs[q]], d1.tables[q]) {
      FilledGrows(st1.objs, st2.objs, h[st1.objs[q]], d1.tables[q], h[st1.objs[q]].entries.Keys);
    }
  }

  // Whole messages

  // The decoded tables are the tables objs, one for one, with the same scalars,
  // the same keys and the same identities; so are the results.
  ghost predicate Isomorphic(h: Heap, args: seq<Value>, objs: seq<nat>, ws: seq<Value>, tables: seq<Contents>) {
    && Distinct(objs) && |objs| == |tables|
    && |ws| == |args|
    && (forall i :: 0 <= i < |args| ==> Corr(objs, args[i], ws[i]))
    && (forall k :: 0 <= k < |objs| ==> objs[k] in h && TableCorr(objs, h[objs[k]], tables[k]))
  }

  // Between two arguments nothing is open.
  lemma OuterSlots(st: Enc, a: Drift, anc: seq<nat>, stack: seq<Value>, r: Enc, b: Drift, anc2: seq<nat>, w: Value)
    requires Slots(st, a, 0, anc, stack, []) && st.depth == 0 && r.depth == 0 && b.lag == 0 && st.objs <= r.objs
    requires |anc2| == |r.anc| == |b.clean| == MAX_DEPTH && (w.TableRef? ==> w.id < |r.objs|)
    ensures Slots(r, b, 0, anc2, stack + [w], [])
  {
  }

  lemma {:induction false} SimAll(h: Heap, st: Enc, a: Drift, args: seq<Value>, f: seq<byte>, m: set<nat>, d: Dec)
    requires HeapOk(h) && st.Valid(h) && ValuesOk(h, args) && Sane(st, a) && InStep(st, a.lag, d, m)
    requires st.depth == 0 && d.depth == 0 && Slots(st, a, 0, d.anc, d.stack, [])
    requires Agrees(PackSeq(h, st, args), f, m) && |f| == |PackSeq(h, st, args).out|
    requires !DriftSeq(h, st, a, args).astray
    ensures d.pos <= |f| && |d.anc| == MAX_DEPTH && UnpackAll(f, d).Ok?
    ensures var (ws, d2) := UnpackAll(f, d).value;
      var r := PackSeq(h, st, args);
      && Follows(h, d, r, 0, d2, m, NO_TABLE) && |ws| == |args|
      && forall i :: 0 <= i < |args| ==> Corr(r.objs, args[i], ws[i])
    decreases |args|
  {
    hide *;
    StepLengths(st, a.lag, d, m);
    PackSeqExtends(h, st, args, f, m);
    if args == [] {
      SimNothing(h, st, a.lag, f, m, d);
    } else {
      PackSeqStep(h, st, args, f, m);
      DriftSeqStep(h, st, a, args);
      var st1, b := PackOne(h, st, args[0]), DriftOne(h, st, a, args[0]);
      SimOne(h, st, a, args[0], f, m, d, []);
      var (w, d1) := UnpackOne(f, d).value;
      OneAdvances(f, d);
      PackOneKeeps(h, st, args[0]);
      CorrInBounds(st1.objs, args[0], w);
      SlotsDepth(st, a, 0, d.anc, d.stack, []);
      OuterSlots(st, a, d.anc, d.stack, st1, b, d1.anc, w);
      FollowsStep(h, d, st1, a.lag, d1, m, NO_TABLE);
      var d1' := d1.(stack := d1.stack + [w]);
      PushResult(st1, a.lag, d1, m, w);
      SlotsSane(st1, b, 0, d1'.anc, d1'.stack, []);
      SimAll(h, st1, b, args[1..], f, m, d1');
      var (ws, d2) := UnpackAll(f, d1').value;
      var r := PackSeq(h, st1, args[1..]);
      DistinctObjs(h, r);
      FollowsTables(h, d1', d1, r, 0, d2, m, NO_TABLE);
      FollowsTransitive(h, d, st1, d1, r, 0, d2, m, NO_TABLE);
      UnpackAllStep(f, d);
      CorrGrows(st1.objs, r.objs, args[0], w);
      forall i | 0 <= i < |args|
        ensures Corr(r.objs, args[i], ([w] + ws)[i])
      {
        if i > 0 {
          assert args[i] == args[1..][i - 1];
        }
      }
    }
  }

  lemma SimNothing(h: Heap, st: Enc, lag: nat, f: seq<byte>, m: set<nat>, d: Dec)
    requires HeapOk(h) && st.Valid(h) && InStep(st, lag, d, m) && |f| == |PackSeq(h, st, []).out|
    ensures d.pos == |f| && UnpackAll(f, d) == Ok(([], d)) && PackSeq(h, st, []) == st
    ensures Follows(h, d, st, lag, d, m, NO_TABLE)
  {
  }

  lemma PushResult(st: Enc, lag: nat, d: Dec, m: set<nat>, w: Value)
    requires InStep(st, lag, d, m)
    ensures InStep(st, lag, d.(stack := d.stack + [w]), m)
  {
  }

  lemma CorrInBounds(objs: seq<nat>, v: Value, w: Value)
    requires Corr(objs, v, w)
    ensures w.TableRef? ==> w.id < |objs|
  {
  }

  lemma CorrGrows(objs: seq<nat>, objs2: seq<nat>, v: Value, w: Value)
    requires objs <= objs2 && Corr(objs, v, w)
    ensures Corr(objs2, v, w)
  {
  }

  lemma UnpackAllStep(f: seq<byte>, d: Dec)
    requires d.pos < |f| && |d.anc| == MAX_DEPTH && UnpackOne(f, d).Ok?
    requires var (w, d1) := UnpackOne(f, d).value; UnpackAll(f, d1.(stack := d1.stack + [w])).Ok?
    ensures var (w, d1) := UnpackOne(f, d).value;
      var (ws, d2) := UnpackAll(f, d1.(stack := d1.stack + [w])).value;
      UnpackAll(f, d) == Ok(([w] + ws, d2))
  {
    hide UnpackOne;
  }

  // The first half of the main theorem: if no reference goes astray, unpack(pack(args))
  // hits no error, uses up exactly the packed bytes, and rebuilds the graph.
  lemma UnpackOfPack(h: Heap, args: seq<Value>)
    requires HeapOk(h) && ValuesOk(h, args) && !GoesAstray(h, args)
    ensures Unpack(Pack(h, args).out).Ok?
    ensures var (ws, d) := Unpack(Pack(h, args).out).value;
      d.pos == |Pack(h, args).out| && Isomorphic(h, args, Pack(h, args).objs, ws, d.tables)
  {
    var r := Pack(h, args);
    PackAgreesWithItself(h, r);
    StartInStep(h, r.marked);
    SimAll(h, Encoder.START, STILL, args, r.out, r.marked, Decoder.START);
    assert PackSeq(h, Encoder.START, args) == r;
    FinishIsomorphic(h, args, r, r.marked);
  }

  lemma PackAgreesWithItself(h: Heap, r: Enc)
    requires r.Valid(h)
    ensures Agrees(r, r.out, r.marked)
  {
  }

  lemma StartInStep(h: Heap, m: set<nat>)
    ensures Encoder.START.Valid(h) && Sane(Encoder.START, STILL) && InStep(Encoder.START, 0, Decoder.START, m)
    ensures Slots(Encoder.START, STILL, 0, Decoder.START.anc, Decoder.START.stack, [])
  {
  }

  lemma FinishIsomorphic(h: Heap, args: seq<Value>, r: Enc, m: set<nat>)
    requires r.Valid(h) && Unpack(r.out).Ok?
    requires var (ws, d) := Unpack(r.out).value;
      && Follows(h, Decoder.START, r, 0, d, m, NO_TABLE) && |ws| == |args|
      && forall i :: 0 <= i < |args| ==> Corr(r.objs, args[i], ws[i])
    ensures var (ws, d) := Unpack(r.out).value; Isomorphic(h, args, r.objs, ws, d.tables)
  {
    hide UnpackAll, UnpackOne, Filled;
  }
}
