// The graph decoder on values: what a read_block and the Lua heap hold, and
// how unpack_one changes them. Total on every byte string.
module Decoder {
  import opened Wire
  import Encoder

  type Contents = map<Value, Value>

  // pos      rb.ptr
  // depth    s.depth; anc: s.ancestor, as places on the stack
  // stack    the Lua stack above the slot for the ref table: the results so far, and
  //          every open table with the key that is being given a value
  // tables   the tables created, in creation order; |tables| is s.objectid
  // refs     the slot for the ref table: id -> table
  datatype Dec = Dec(
    pos: nat, depth: nat, anc: seq<nat>, stack: seq<Value>, tables: seq<Contents>, refs: map<int, nat>)

  const START := Dec(0, 0, Encoder.ZEROS, [], [], map[])

  // Progress is what bounds the recursion on arbitrary bytes. Tables that are not open
  // stay as they are, and so do the ancestor slots below the depth; the slots from the
  // depth on name places further up the stack.
  ghost predicate Advances(buf: seq<byte>, d: Dec, r: Dec, open: int) {
    && d.pos <= r.pos <= |buf|
    && r.depth == d.depth && r.stack == d.stack
    && |r.anc| == |d.anc|
    && (forall i :: 0 <= i < |d.anc| ==> r.anc[i] == d.anc[i] || (d.depth <= i && |d.stack| <= r.anc[i]))
    && |d.tables| <= |r.tables|
    && (forall k :: 0 <= k < |d.tables| && k != open ==> r.tables[k] == d.tables[k])
  }

  const NO_TABLE := -1

  // lua_rawset: assigning nil leaves no entry.
  function RawSet(m: Contents, k: Value, v: Value): Contents {
    if v == Nil then m - {k} else m[k := v]
  }

  function Assign(d: Dec, id: nat, k: Value, v: Value): Dec
    requires id < |d.tables|
  {
    d.(tables := d.tables[id := RawSet(d.tables[id], k, v)])
  }

  function UnpackOne(buf: seq<byte>, d: Dec): (r: Result<(Value, Dec)>)
    requires d.pos <= |buf| && |d.anc| == MAX_DEPTH
    ensures r.Ok? ==> Advances(buf, d, r.value.1, NO_TABLE) && d.pos < r.value.1.pos
    decreases |buf| - d.pos, 0
  {
    if d.pos == |buf| then Err(InvalidStream)
    else
      var t, cookie := buf[d.pos] % 8, buf[d.pos] / 8;
      PushValue(buf, d.(pos := d.pos + 1), t, cookie)
  }

  function PushValue(buf: seq<byte>, d: Dec, t: int, cookie: int): (r: Result<(Value, Dec)>)
    requires d.pos <= |buf| && |d.anc| == MAX_DEPTH && 0 <= cookie < MAX_COOKIE
    ensures r.Ok? ==> Advances(buf, d, r.value.1, NO_TABLE)
    decreases |buf| - d.pos, 3
  {
    if t == TYPE_TABLE || t == TYPE_TABLE_MARK then UnpackTable(buf, d, cookie, t)
    else if t == TYPE_REF then UnpackRef(buf, d, cookie)
    else
      var (v, p) :- UnpackScalar(buf, d.pos, t, cookie);
      Ok((v, d.(pos := p)))
  }

  function UnpackRef(buf: seq<byte>, d: Dec, ref: nat): (r: Result<(Value, Dec)>)
    requires d.pos <= |buf| && |d.anc| == MAX_DEPTH && ref < MAX_COOKIE
    ensures r.Ok? ==> Advances(buf, d, r.value.1, NO_TABLE)
  {
    if ref == EXTEND_NUMBER then
      var (id, p) :- GetExtendInteger(buf, d.pos);
      if id !in d.refs then Err(InvalidRef)
      else Ok((TableRef(d.refs[id]), d.(pos := p)))
    else if ref >= d.depth then Err(InvalidRef)
    else Ok((StackAt(d.stack, d.anc[ref]), d))
  }

  // lua_pushvalue; a place above the top holds nil.
  function StackAt(stack: seq<Value>, place: nat): Value {
    if place < |stack| then stack[place] else Nil
  }

  // lua_createtable on top of the stack, with the record unpack_table keeps of a marked
  // table and of the place of the table at this depth.
  function Create(d: Dec, t: int): Dec {
    var id := |d.tables|;
    d.(tables := d.tables + [map[]],
       stack := d.stack + [TableRef(id)],
       refs := if t == TYPE_TABLE_MARK then d.refs[id + 1 := id] else d.refs,
       anc := if d.depth < |d.anc| then d.anc[d.depth := |d.stack|] else d.anc)
  }

  function TableSize(buf: seq<byte>, pos: nat, cookie: int): (r: Result<(int, nat)>)
    requires pos <= |buf|
    ensures r.Ok? ==> pos <= r.value.1 <= |buf|
  {
    if cookie == EXTEND_NUMBER then GetExtendInteger(buf, pos) else Ok((cookie, pos))
  }

  function UnpackTable(buf: seq<byte>, d: Dec, cookie: int, t: int): (r: Result<(Value, Dec)>)
    requires d.pos <= |buf| && |d.anc| == MAX_DEPTH
    ensures r.Ok? ==> Advances(buf, d, r.value.1, NO_TABLE)
    decreases |buf| - d.pos, 2
  {
    var (n, p) :- TableSize(buf, d.pos, cookie);
    var id := |d.tables|;
    var d1 := Create(d.(pos := p), t);
    var d2 :- UnpackArray(buf, d1.(depth := d.depth + 1), id, 1, n);
    var d3 :- UnpackHash(buf, d2.(depth := d.depth), id);
    Ok((TableRef(id), d3.(stack := d.stack)))
  }

  function UnpackArray(buf: seq<byte>, d: Dec, id: nat, i: nat, n: int): (r: Result<Dec>)
    requires d.pos <= |buf| && |d.anc| == MAX_DEPTH && id < |d.tables|
    ensures r.Ok? ==> Advances(buf, d, r.value, id)
    decreases |buf| - d.pos, 1
  {
    if i > n then Ok(d)
    else
      var (v, d1) :- UnpackOne(buf, d);
      UnpackArray(buf, Assign(d1, id, Number(IntegerToDouble(i)), v), id, i + 1, n)
  }

  // Keys are read at the table's own depth, values one level deeper, with the key on the
  // stack.
  function UnpackHash(buf: seq<byte>, d: Dec, id: nat): (r: Result<Dec>)
    requires d.pos <= |buf| && |d.anc| == MAX_DEPTH && id < |d.tables|
    ensures r.Ok? ==> Advances(buf, d, r.value, id)
    decreases |buf| - d.pos, 1
  {
    var (k, d1) :- UnpackOne(buf, d);
    if k == Nil then Ok(d1)
    else
      var (v, d2) :- UnpackOne(buf, AtValue(d1, k));
      UnpackHash(buf, Assign(d2.(depth := d.depth, stack := d.stack), id, k, v), id)
  }

  function AtValue(d: Dec, k: Value): Dec {
    d.(depth := d.depth + 1, stack := d.stack + [k])
  }

  // seri_unpack's loop: values until the buffer is used up.
  function UnpackAll(buf: seq<byte>, d: Dec): (r: Result<(seq<Value>, Dec)>)
    requires d.pos <= |buf| && |d.anc| == MAX_DEPTH
    ensures r.Ok? ==> r.value.1.pos == |buf| && |d.tables| <= |r.value.1.tables|
    ensures r.Ok? ==> forall k :: 0 <= k < |d.tables| ==> r.value.1.tables[k] == d.tables[k]
    decreases |buf| - d.pos
  {
    if d.pos == |buf| then Ok(([], d))
    else
      var (v, d1) :- UnpackOne(buf, d);
      var (vs, d2) :- UnpackAll(buf, d1.(stack := d1.stack + [v]));
      Ok(([v] + vs, d2))
  }

  function Unpack(buf: seq<byte>): Result<(seq<Value>, Dec)> {
    UnpackAll(buf, START)
  }
}
