// Lua tables as the encoder sees them: a finite map, a border and a traversal
// order, and the split of its entries into an array part and a hash part.
module Graph {
  import opened Wire

  // objlen is what lua_objlen answers; order is the sequence in which lua_next
  // yields the keys.
  datatype LuaTable = LuaTable(entries: map<Value, Value>, objlen: nat, order: seq<Value>)

  type Heap = map<nat, LuaTable>

  ghost predicate Distinct<T>(s: seq<T>) {
    forall i, j :: 0 <= i < j < |s| ==> s[i] != s[j]
  }

  predicate ValueOk(h: Heap, v: Value) {
    match v
    case TableRef(o) => o in h
    case String(s) => |s| < INT_LIMIT
    case _ => true
  }

  ghost predicate TableOk(h: Heap, t: LuaTable) {
    && t.objlen < INT_LIMIT
    && Distinct(t.order)
    && (forall k :: k in t.order <==> k in t.entries)
    && (forall k :: k in t.entries ==> k != Nil && t.entries[k] != Nil)
    && (forall k :: k in t.entries ==> ValueOk(h, k) && ValueOk(h, t.entries[k]))
  }

  // What Lua guarantees of any object graph, with sizes below 2^31.
  ghost predicate HeapOk(h: Heap) {
    && |h| < INT_LIMIT
    && forall o :: o in h ==> TableOk(h, h[o])
  }

  ghost predicate ScalarKeys(h: Heap) {
    forall o, k :: o in h && k in h[o].entries ==> !k.TableRef?
  }

  // lua_rawgeti for a positive index
  function IndexKey(i: nat): Value
    requires 0 < i < INT_LIMIT
  {
    Number(DoubleOf(i))
  }

  function RawGetI(t: LuaTable, i: nat): (v: Value)
    requires 0 < i < INT_LIMIT
  {
    if IndexKey(i) in t.entries then t.entries[IndexKey(i)] else Nil
  }

  // What wb_table_array packs.
  function ArrayItems(t: LuaTable): (r: seq<Value>)
    requires t.objlen < INT_LIMIT
    ensures |r| == t.objlen
  {
    seq(t.objlen, i requires 0 <= i < t.objlen => RawGetI(t, i + 1))
  }

  // The keys wb_table_hash skips.
  predicate InArray(k: Value, n: nat) {
    k.Number? && AsInteger(k.bits).Some? && 0 < AsInteger(k.bits).value <= n
  }

  // What wb_table_hash packs: key, value, key, value ...
  function HashItems(entries: map<Value, Value>, n: nat, order: seq<Value>): (r: seq<Value>)
    requires forall k :: k in order ==> k in entries
  {
    if order == [] then []
    else if InArray(order[0], n) then HashItems(entries, n, order[1..])
    else [order[0], entries[order[0]]] + HashItems(entries, n, order[1..])
  }

  lemma HashItemsStep(t: LuaTable, i: nat)
    requires i < |t.order| && forall k :: k in t.order ==> k in t.entries
    ensures t.order[i] in t.entries
    ensures forall k :: k in t.order[i..] ==> k in t.entries
    ensures forall k :: k in t.order[i + 1..] ==> k in t.entries
    ensures var k, rest := t.order[i], HashItems(t.entries, t.objlen, t.order[i + 1..]);
      HashItems(t.entries, t.objlen, t.order[i..]) ==
      if InArray(k, t.objlen) then rest else [k, t.entries[k]] + rest
  {
    assert t.order[i..][1..] == t.order[i + 1..];
  }

  function ItemsOf(t: LuaTable): seq<Value>
    requires forall k :: k in t.order ==> k in t.entries
  {
    HashItems(t.entries, t.objlen, t.order)
  }

  ghost predicate ValuesOk(h: Heap, vs: seq<Value>) {
    forall v :: v in vs ==> ValueOk(h, v)
  }

  lemma {:induction false} HashItemsOk(h: Heap, entries: map<Value, Value>, n: nat, order: seq<Value>)
    requires forall k :: k in order ==> k in entries
    requires forall k :: k in entries ==> ValueOk(h, k) && ValueOk(h, entries[k])
    ensures ValuesOk(h, HashItems(entries, n, order))
  {
    if order != [] {
      HashItemsOk(h, entries, n, order[1..]);
    }
  }

  lemma ItemsOk(h: Heap, t: LuaTable)
    requires TableOk(h, t)
    ensures ValuesOk(h, ArrayItems(t)) && ValuesOk(h, ItemsOf(t))
  {
    HashItemsOk(h, t.entries, t.objlen, t.order);
  }

  // The array part holds exactly the keys the hash part skips: IndexKey(1..n).
  lemma ArrayKey(k: Value, n: nat)
    requires n < INT_LIMIT
    ensures InArray(k, n) <==> exists i :: 0 < i <= n && k == IndexKey(i)
  {
    if InArray(k, n) {
      AsIntegerSound(k.bits);
      assert k == IndexKey(AsInteger(k.bits).value);
    }
    forall i | 0 < i <= n && k == IndexKey(i)
      ensures InArray(k, n)
    {
      AsIntegerOfDouble(i);
    }
  }

  lemma IndexKeyInjective(i: nat, j: nat)
    requires 0 < i < INT_LIMIT && 0 < j < INT_LIMIT && IndexKey(i) == IndexKey(j)
    ensures i == j
  {
    DoubleInjective(i, j);
  }
}
