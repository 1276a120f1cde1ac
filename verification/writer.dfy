// The write_block: pack_one and its helpers run on the block chain, the
// directory and the ancestor stack, and do what the functions of encoder.dfy say.
module Writer {
  import opened Wire
  import opened Graph
  import opened Encoder
  import opened Blocks
  import D = Directory

  class WriteBlock {
    const bytes: BlockChain
    const dir: D.Directory<Address>
    const ancestor: array<nat>
    var depth: nat

    ghost var st: Enc
    ghost var Repr: set<object>

    ghost predicate Valid(h: Heap)
      reads this, Repr
      ensures Valid(h) ==> this in Repr && st.Valid(h)
    {
      && this in Repr && dir in Repr && Whole(h, dir.addrs)
    }

    // What the writer has written is st, where addrs are the tag addresses not given out
    ghost predicate Whole(h: Heap, addrs: seq<Option<Address>>)
      reads this, Repr
      ensures Whole(h, addrs) ==> this in Repr && st.Valid(h)
    {
      && this in Repr && bytes in Repr && dir in Repr && dir.r in Repr && ancestor in Repr
      && bytes.Repr <= Repr && {this, dir, dir.r, ancestor} !! bytes.Repr
      && dir.r as object != ancestor as object
      && st.Valid(h)
      && bytes.Valid() && bytes.contents == st.out
      && dir.Valid() && dir.objs == st.objs
      && ancestor[..] == st.anc && depth == st.depth
      && |addrs| == |st.objs|
      && (forall k :: 0 <= k < |st.objs| ==> (addrs[k].Some? <==> k !in st.marked))
      && (forall k :: 0 <= k < |st.objs| && addrs[k].Some? ==> bytes.Denotes(addrs[k].value, st.tags[k]))
    }

    constructor ()
      ensures fresh(Repr) && st == START && forall h :: Valid(h)
    {
      bytes := new BlockChain();
      dir := new D.Directory<Address>();
      ancestor := new nat[MAX_DEPTH](_ => 0);
      depth, st := 0, START;
      new;
      Repr := {this, bytes, dir, dir.r, ancestor} + bytes.Repr;
    }

    // wb_push of one encoded value
    method Write(buf: seq<byte>, ghost h: Heap)
      requires Valid(h)
      modifies Repr
      ensures Valid(h) && fresh(Repr - old(Repr)) && st == Emit(old(st), buf)
    {
      hide BlockChain.Valid, D.Directory.Valid, Enc.Valid, Extends;
      bytes.Push(buf);
      Repr := Repr + bytes.Repr;
      EmitKeeps(h, st, buf);
      st := Emit(st, buf);
    }

    // ref_ancestor's search
    method FindOpen(o: nat, ghost h: Heap) returns (found: Option<nat>)
      requires Valid(h)
      ensures found == RefAncestor(st, o)
    {
      if depth == 0 || depth >= MAX_DEPTH {
        return None;
      }
      var i := depth;
      while i > 0
        invariant 0 <= i <= depth
        invariant FindAncestor(st.anc, o, i) == RefAncestor(st, o)
      {
        i := i - 1;
        if ancestor[i] == o {
          return Some(i);
        }
      }
      return None;
    }

    // change_mark: its assertion holds.
    method ChangeMark(a: Address, ghost pos: nat)
      requires bytes.Valid() && bytes.Denotes(a, pos) && pos < |bytes.contents| && bytes.contents[pos] % 8 == TYPE_TABLE
      modifies bytes.Repr
      ensures bytes.Valid() && bytes.chain == old(bytes.chain) && bytes.Repr == old(bytes.Repr)
      ensures bytes.contents == old(bytes.contents)[pos := Tag(TYPE_TABLE_MARK, old(bytes.contents)[pos] / 8)]
    {
      hide BlockChain.Valid, BlockChain.Denotes;
      var tag := bytes.Load(a, pos);
      assert tag % 8 == TYPE_TABLE;
      bytes.Patch(a, Tag(TYPE_TABLE_MARK, tag / 8), pos);
    }

    // The part of lookup_ref after the search: the table found is marked, unless it was
    // named before.
    method MarkNamed(k: nat, mark: Option<Address>, ghost addrs: seq<Option<Address>>, ghost h: Heap)
      requires Whole(h, addrs) && k < |addrs| && mark == addrs[k] && dir.addrs == addrs[k := None]
      modifies bytes.Repr, this`st
      ensures Valid(h) && Repr == old(Repr) && st == Encoder.LookupRef(h, old(st), k)
    {
      hide BlockChain.Valid, D.Directory.Valid, Extends, Enc.Valid, Distinct;
      TagsLie(h, st);
      if mark.Some? {
        ChangeMark(mark.value, st.tags[k]);
      }
      st := Encoder.LookupRef(h, st, k);
    }

    // lookup_ref, and change_mark on the address it finds
    method LookupRef(o: nat, ghost h: Heap) returns (id: nat)
      requires Valid(h)
      modifies Repr
      ensures Valid(h) && fresh(Repr - old(Repr)) && (id > 0 <==> o in old(st).objs)
      ensures id == 0 ==> st == old(st)
      ensures id > 0 ==> IndexOf(old(st).objs, o) == Some(id - 1)
      ensures id > 0 ==> st == Encoder.LookupRef(h, old(st), id - 1)
    {
      hide BlockChain.Valid, BlockChain.Denotes, D.Directory.Valid, Extends, Enc.Valid, Distinct, Encoder.LookupRef;
      var mark: Option<Address>;
      ghost var addrs := dir.addrs;
      id, mark := dir.Lookup(o);
      if id > 0 {
        IndexUnique(h, st, o, id - 1);
        MarkNamed(id - 1, mark, addrs, h);
      }
    }

    // ref_object: whether o was already recorded, and if so its reference
    method RefObject(o: nat, ghost h: Heap) returns (found: bool)
      requires Valid(h) && HeapOk(h)
      modifies Repr
      ensures Valid(h) && fresh(Repr - old(Repr)) && found == (o in old(st).objs)
      ensures !found ==> st == old(st)
      ensures found ==> st == Encoder.RefObject(h, old(st), IndexOf(old(st).objs, o).value)
    {
      hide BlockChain.Valid, D.Directory.Valid, Enc.Valid, Extends, Encoder.LookupRef;
      var id := LookupRef(o, h);
      found := id > 0;
      if found {
        IdBound(h, st, id);
        Write([Tag(TYPE_REF, EXTEND_NUMBER)] + EncInteger(id), h);
      }
    }

    lemma IdBound(h: Heap, st: Enc, id: nat)
      requires HeapOk(h) && st.Valid(h) && id <= |st.objs|
      ensures id < INT_LIMIT
    {
      DistinctCount(st.objs, h.Keys);
    }

    lemma IndexUnique(h: Heap, st: Enc, o: nat, k: nat)
      requires st.Valid(h) && k < |st.objs| && st.objs[k] == o
      ensures IndexOf(st.objs, o) == Some(k)
    {
    }

    lemma TagsLie(h: Heap, st: Enc)
      requires st.Valid(h)
      ensures |st.tags| == |st.objs|
      ensures forall k :: 0 <= k < |st.tags| ==>
        st.tags[k] < |st.out| && st.out[st.tags[k]] % 8 == MarkType(k, st.marked)
      ensures forall k :: k in st.marked ==> k < |st.objs|
    {
    }

    // The header wb_table_array writes
    method WriteHeader(n: nat)
      requires bytes.Valid() && n < INT_LIMIT
      modifies bytes.Repr
      ensures bytes.Valid() && fresh(bytes.Repr - old(bytes.Repr))
      ensures bytes.contents == old(bytes.contents) + Header(n) && old(bytes.chain) <= bytes.chain
    {
      hide BlockChain.Valid, EncInteger;
      if n >= EXTEND_NUMBER {
        bytes.Push([Tag(TYPE_TABLE, EXTEND_NUMBER)] + EncInteger(n));
      } else {
        bytes.Push([Tag(TYPE_TABLE, n)]);
      }
    }

    // mark_table, then the header
    method OpenTable(o: nat, n: nat, ghost h: Heap)
      requires Valid(h) && o in h && o !in st.objs && n < INT_LIMIT
      modifies Repr
      ensures Valid(h) && fresh(Repr - old(Repr)) && st == Encoder.OpenTable(h, old(st), o, n)
    {
      hide BlockChain.Valid, D.Directory.Valid, Extends, EncInteger, Distinct, Enc.Valid;
      TagsLie(h, st);
      var addr := bytes.TakeAddress();
      dir.MarkTable(o, addr);
      ghost var marked := st.(objs := st.objs + [o], tags := st.tags + [|st.out|]);
      assert forall k :: 0 <= k < |marked.objs| ==> (dir.addrs[k].Some? <==> k !in marked.marked);
      WriteHeader(n);
      Repr := Repr + bytes.Repr;
      st := Encoder.OpenTable(h, st, o, n);
    }

    method PackOne(h: Heap, v: Value)
      requires HeapOk(h) && ValueOk(h, v) && Valid(h)
      modifies Repr
      ensures Valid(h) && fresh(Repr - old(Repr)) && st == Encoder.PackOne(h, old(st), v)
      decreases Unmet(h, st), 1, 0
    {
      hide BlockChain.Valid, D.Directory.Valid, Enc.Valid, Extends;
      if !v.TableRef? {
        Write(EncScalar(v), h);
        return;
      }
      var o := v.id;
      var open := FindOpen(o, h);
      if open.Some? {
        Write([Tag(TYPE_REF, open.value)], h);
        return;
      }
      var found := RefObject(o, h);
      if found {
        return;
      }
      Enter(o, h);
      WbTable(h, o);
      Leave(old(st), o, h);
    }

    // The push on the ancestor stack around wb_table
    method Enter(o: nat, ghost h: Heap)
      requires Valid(h)
      modifies Repr
      ensures Valid(h) && Repr == old(Repr) && st == Encoder.Enter(old(st), o)
      ensures Unmet(h, st) == Unmet(h, old(st))
    {
      hide BlockChain.Valid, D.Directory.Valid, Enc.Valid;
      EnterKeeps(h, st, o);
      AncestorLength(h);
      if depth < MAX_DEPTH {
        ancestor[depth] := o;
      }
      depth := depth + 1;
      st := Encoder.Enter(st, o);
    }

    method Leave(ghost before: Enc, o: nat, ghost h: Heap)
      requires Valid(h) && before.Valid(h) && Extends(Encoder.Enter(before, o), st)
      modifies Repr
      ensures Valid(h) && Repr == old(Repr) && st == old(st).(depth := before.depth)
    {
      hide BlockChain.Valid, D.Directory.Valid, Enc.Valid;
      LeaveKeeps(h, before, o, st);
      depth := depth - 1;
      st := st.(depth := before.depth);
    }

    lemma AncestorLength(h: Heap)
      requires Valid(h)
      ensures ancestor.Length == MAX_DEPTH == |st.anc|
    {
    }

    method WbTable(h: Heap, o: nat)
      requires HeapOk(h) && o in h && Valid(h) && o !in st.objs
      modifies Repr
      ensures Valid(h) && fresh(Repr - old(Repr)) && st == PackTable(h, old(st), o)
      decreases Unmet(h, st), 0, 0
    {
      hide BlockChain.Valid, D.Directory.Valid, Enc.Valid, Valid, Extends, PackSeq, Encoder.OpenTable, Unmet;
      ItemsOk(h, h[o]);
      OpeningMeets(h, st, o);
      OpenTable(o, h[o].objlen, h);
      ghost var st1 := st;
      WbTableArray(h, h[o]);
      UnmetShrinks(h, st1, st);
      WbTableHash(h, h[o]);
      Write(EncScalar(Nil), h);
    }

    method WbTableArray(h: Heap, t: LuaTable)
      requires HeapOk(h) && TableOk(h, t) && ValuesOk(h, ArrayItems(t)) && Valid(h)
      modifies Repr
      ensures Valid(h) && fresh(Repr - old(Repr)) && st == PackSeq(h, old(st), ArrayItems(t))
      decreases Unmet(h, st), 2, 0
    {
      hide BlockChain.Valid, D.Directory.Valid, Enc.Valid, Valid, Extends, Encoder.PackOne, Unmet, PackSeq, RawGetI;
      ghost var items := ArrayItems(t);
      var i := 0;
      assert items[0..] == items;
      while i < t.objlen
        invariant 0 <= i <= t.objlen && Valid(h) && fresh(Repr - old(Repr))
        invariant Unmet(h, st) <= Unmet(h, old(st))
        invariant PackSeq(h, old(st), items) == PackSeq(h, st, items[i..])
      {
        ghost var before := st;
        PackNext(h, st, items, i);
        PackOne(h, RawGetI(t, i + 1));
        UnmetShrinks(h, before, st);
        i := i + 1;
      }
      assert items[i..] == [];
      PackNothing(h, st);
    }

    lemma PackNext(h: Heap, st: Enc, items: seq<Value>, i: nat)
      requires HeapOk(h) && st.Valid(h) && ValuesOk(h, items) && i < |items|
      ensures ValueOk(h, items[i])
      ensures PackSeq(h, st, items[i..]) == PackSeq(h, Encoder.PackOne(h, st, items[i]), items[i + 1..])
    {
      hide HeapOk, Enc.Valid, Encoder.PackOne;
      assert items[i] in items;
      assert items[i..][0] == items[i] && items[i..][1..] == items[i + 1..];
    }

    method WbTableHash(h: Heap, t: LuaTable)
      requires HeapOk(h) && TableOk(h, t) && ValuesOk(h, ItemsOf(t)) && Valid(h)
      modifies Repr
      ensures Valid(h) && fresh(Repr - old(Repr)) && st == PackSeq(h, old(st), ItemsOf(t))
      decreases Unmet(h, st), 2, 0
    {
      hide BlockChain.Valid, D.Directory.Valid, Enc.Valid, Valid, Extends, Encoder.PackOne, Unmet, PackSeq,
        HashItems, InArray;
      var i := 0;
      KeysPresent(h, t);
      assert t.order[0..] == t.order;
      while i < |t.order|
        invariant 0 <= i <= |t.order| && Valid(h) && fresh(Repr - old(Repr))
        invariant Unmet(h, st) <= Unmet(h, old(st))
        invariant ValuesOk(h, HashItems(t.entries, t.objlen, t.order[i..]))
        invariant PackSeq(h, old(st), ItemsOf(t)) == PackSeq(h, st, HashItems(t.entries, t.objlen, t.order[i..]))
      {
        var k := t.order[i];
        HashItemsStep(t, i);
        if !InArray(k, t.objlen) {
          ghost var rest := HashItems(t.entries, t.objlen, t.order[i + 1..]);
          PackPair(h, st, k, t.entries[k], rest);
          WriteEntry(h, k, t.entries[k]);
        }
        i := i + 1;
      }
      assert t.order[i..] == [];
      PackNoItems(h, st, t);
    }

    // One iteration's two pack_one calls
    method WriteEntry(h: Heap, k: Value, v: Value)
      requires HeapOk(h) && ValueOk(h, k) && ValueOk(h, v) && Valid(h)
      modifies Repr
      ensures Valid(h) && fresh(Repr - old(Repr)) && Unmet(h, st) <= Unmet(h, old(st))
      ensures st == Encoder.PackOne(h, Encoder.PackOne(h, old(st), k), v)
      decreases Unmet(h, st), 1, 1
    {
      hide BlockChain.Valid, D.Directory.Valid, Enc.Valid, Valid, Extends, Encoder.PackOne, Unmet;
      PackOne(h, k);
      UnmetShrinks(h, old(st), st);
      ghost var mid := st;
      PackOne(h, v);
      UnmetShrinks(h, mid, st);
    }

    lemma KeysPresent(h: Heap, t: LuaTable)
      requires TableOk(h, t)
      ensures forall k :: k in t.order ==> k in t.entries
    {
    }

    lemma PackNothing(h: Heap, st: Enc)
      requires HeapOk(h) && st.Valid(h)
      ensures PackSeq(h, st, []) == st
    {
    }

    lemma PackNoItems(h: Heap, st: Enc, t: LuaTable)
      requires HeapOk(h) && st.Valid(h)
      ensures HashItems(t.entries, t.objlen, []) == [] && PackSeq(h, st, []) == st
    {
    }

    // pack_from
    method PackFrom(h: Heap, args: seq<Value>)
      requires HeapOk(h) && ValuesOk(h, args) && Valid(h) && st == START
      modifies Repr
      ensures Valid(h) && fresh(Repr - old(Repr)) && st == Pack(h, args)
    {
      hide BlockChain.Valid, D.Directory.Valid, Enc.Valid, Valid, Extends, Encoder.PackOne, Unmet, PackSeq;
      var i := 0;
      assert args[0..] == args;
      while i < |args|
        invariant 0 <= i <= |args| && Valid(h) && fresh(Repr - old(Repr))
        invariant PackSeq(h, START, args) == PackSeq(h, st, args[i..])
      {
        PackNext(h, st, args, i);
        PackOne(h, args[i]);
        i := i + 1;
      }
      assert args[i..] == [];
      PackNothing(h, st);
    }
  }

  // seri_pack: the packed message as one buffer, length first.
  method SeriPack(h: Heap, args: seq<Value>) returns (out: array<byte>)
    requires HeapOk(h) && ValuesOk(h, args) && |Pack(h, args).out| < INT_LIMIT
    ensures fresh(out) && out[..] == ToLE(|Pack(h, args).out|, 4) + Pack(h, args).out
  {
    var wb := new WriteBlock();
    wb.PackFrom(h, args);
    out := wb.bytes.Seri();
  }
}
