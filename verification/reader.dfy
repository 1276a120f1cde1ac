// The read_block: unpack_one and its helpers run on a buffer with a moving
// pointer, leave what they read on the Lua stack, and do what the functions of
// decoder.dfy say. An error return stands for luaL_error, after which the block
// is dropped.
module Reader {
  import opened Wire
  import Decoder
  import opened Graph
  import opened Encoder
  import RT = RoundTrip

  class ReadBlock {
    const buffer: seq<byte>
    var len: nat
    var ptr: nat
    var depth: nat
    var objectid: nat
    const ancestor: array<nat>
    // The Lua stack: the slot for the ref table, and what lies above it.
    var refs: Option<map<int, nat>>
    var stack: seq<Value>
    // The Lua tables made so far; a handle is an index.
    var tables: seq<Decoder.Contents>

    ghost predicate Valid()
      reads this, ancestor
    {
      ancestor.Length == MAX_DEPTH && ptr + len == |buffer| && objectid == |tables|
    }

    // What the fields amount to.
    ghost function View(): Decoder.Dec
      reads this, ancestor
    {
      Decoder.Dec(ptr, depth, ancestor[..], stack, tables, if refs.Some? then refs.value else map[])
    }

    // rball_init
    constructor (bytes: seq<byte>)
      ensures Valid() && fresh(ancestor) && buffer == bytes && View() == Decoder.START
    {
      buffer, len, ptr, depth, objectid := bytes, |bytes|, 0, 0, 0;
      ancestor := new nat[MAX_DEPTH](_ => 0);
      refs, stack, tables := None, [], [];
      new;
      assert ancestor[..] == Encoder.ZEROS;
    }

    method RbRead(sz: nat) returns (r: Result<seq<byte>>)
      requires Valid()
      modifies this`ptr, this`len
      ensures match Read(buffer, old(ptr), sz)
              case Ok((b, p)) => r == Ok(b) && Valid() && ptr == p
              case Err(e) => r == Err(e)
    {
      if len < sz {
        return Err(InvalidStream);
      }
      var at := ptr;
      ptr, len := ptr + sz, len - sz;
      return Ok(buffer[at..at + sz]);
    }

    method GetInteger(cookie: int) returns (r: Result<int>)
      requires Valid()
      modifies this`ptr, this`len
      ensures match Wire.GetInteger(buffer, old(ptr), cookie)
              case Ok((n, p)) => r == Ok(n) && Valid() && ptr == p
              case Err(e) => r == Err(e)
    {
      if cookie == TYPE_NUMBER_ZERO {
        return Ok(0);
      } else if cookie == TYPE_NUMBER_BYTE {
        var b :- RbRead(1);
        return Ok(b[0]);
      } else if cookie == TYPE_NUMBER_WORD {
        var b :- RbRead(2);
        return Ok(FromLE(b));
      } else if cookie == TYPE_NUMBER_DWORD {
        var b :- RbRead(4);
        return Ok(Signed(FromLE(b), 0x1_0000_0000));
      } else if cookie == TYPE_NUMBER_QWORD {
        var b :- RbRead(8);
        return Ok(Signed(FromLE(b), 0x1_0000_0000_0000_0000));
      }
      return Err(InvalidStream);
    }

    method GetExtendInteger() returns (r: Result<int>)
      requires Valid()
      modifies this`ptr, this`len
      ensures match Wire.GetExtendInteger(buffer, old(ptr))
              case Ok((n, p)) => r == Ok(n) && Valid() && ptr == p
              case Err(e) => r == Err(e)
    {
      var b :- RbRead(1);
      if b[0] % 8 != TYPE_NUMBER || b[0] / 8 == TYPE_NUMBER_REAL {
        return Err(InvalidStream);
      }
      var n :- GetInteger(b[0] / 8);
      return Ok(ToInt32(n));
    }

    // lua_push*
    method Push(v: Value)
      requires Valid()
      modifies this`stack
      ensures Valid() && stack == old(stack) + [v] && View() == old(View()).(stack := stack)
    {
      stack := stack + [v];
    }

    // What a Decoder function answers, done: the value is on top of the stack.
    ghost predicate Pushed(a: Result<(Value, Decoder.Dec)>, r: Result<()>)
      reads this, ancestor
    {
      match a
      case Ok((v, d)) => r == Ok(()) && Valid() && View() == d.(stack := d.stack + [v])
      case Err(e) => r == Err(e)
    }

    // push_value for the types without structure
    method PushScalar(t: int, cookie: int) returns (r: Result<()>)
      requires Valid()
      modifies this`ptr, this`len, this`stack
      ensures match UnpackScalar(buffer, old(ptr), t, cookie)
              case Ok((v, p)) => r == Ok(()) && Valid() && ptr == p && stack == old(stack) + [v]
              case Err(e) => r == Err(e)
    {
      if t == TYPE_BOOLEAN {
        if cookie == TYPE_BOOLEAN_NIL {
          Push(Nil);
        } else if cookie == TYPE_BOOLEAN_FALSE {
          Push(Boolean(false));
        } else if cookie == TYPE_BOOLEAN_TRUE {
          Push(Boolean(true));
        } else {
          return Err(InvalidBoolean);
        }
      } else if t == TYPE_NUMBER {
        if cookie == TYPE_NUMBER_REAL {
          var b :- RbRead(8);
          LEBound(b);
          Push(Number(FromLE(b)));
        } else {
          var n :- GetInteger(cookie);
          Push(Number(IntegerToDouble(n)));
        }
      } else if t == TYPE_USERDATA {
        if cookie != TYPE_USERDATA_POINTER {
          return Err(InvalidUserdata);
        }
        var b :- RbRead(8);
        LEBound(b);
        Push(Pointer(FromLE(b)));
      } else if t == TYPE_SHORT_STRING && cookie >= 0 {
        var b :- RbRead(cookie);
        Push(String(b));
      } else if t == TYPE_LONG_STRING && (cookie == 2 || cookie == 4) {
        var b :- RbRead(cookie);
        var s :- RbRead(FromLE(b));
        Push(String(s));
      } else {
        return Err(InvalidStream);
      }
      return Ok(());
    }

    method UnpackOne() returns (r: Result<()>)
      requires Valid()
      modifies this, ancestor
      ensures Pushed(Decoder.UnpackOne(buffer, old(View())), r)
      decreases |buffer| - ptr, 0
    {
      var t :- RbRead(1);
      r := PushValue(t[0] % 8, t[0] / 8);
    }

    method PushValue(t: int, cookie: int) returns (r: Result<()>)
      requires Valid() && 0 <= cookie < MAX_COOKIE
      modifies this, ancestor
      ensures Pushed(Decoder.PushValue(buffer, old(View()), t, cookie), r)
      decreases |buffer| - ptr, 4
    {
      if t == TYPE_TABLE || t == TYPE_TABLE_MARK {
        r := UnpackTable(cookie, t);
      } else if t == TYPE_REF {
        r := UnpackRef(cookie);
      } else {
        r := PushScalar(t, cookie);
      }
    }

    method UnpackRef(ref: nat) returns (r: Result<()>)
      requires Valid() && ref < MAX_COOKIE
      modifies this`ptr, this`len, this`stack
      ensures Pushed(Decoder.UnpackRef(buffer, old(View()), ref), r)
    {
      if ref == EXTEND_NUMBER {
        var id :- GetExtendInteger();
        if refs.None? || id !in refs.value {
          return Err(InvalidRef);
        }
        Push(TableRef(refs.value[id]));
        return Ok(());
      }
      if ref >= depth {
        return Err(InvalidRef);
      }
      Push(Decoder.StackAt(stack, ancestor[ref]));
      return Ok(());
    }

    // lua_createtable and the records of it
    method Create(t: int)
      requires Valid()
      modifies this, ancestor
      ensures Valid() && ptr == old(ptr) && View() == Decoder.Create(old(View()), t)
    {
      var id := |tables|;
      objectid := objectid + 1;
      tables := tables + [map[]];
      if t == TYPE_TABLE_MARK {
        if refs.None? {
          refs := Some(map[]);
        }
        refs := Some(refs.value[objectid := id]);
      }
      if depth < MAX_DEPTH {
        ancestor[depth] := |stack|;
      }
      stack := stack + [TableRef(id)];
    }

    // The table is on top of the stack when it is created and when it is complete.
    method UnpackTable(cookie: int, t: int) returns (r: Result<()>)
      requires Valid()
      modifies this, ancestor
      ensures Pushed(Decoder.UnpackTable(buffer, old(View()), cookie, t), r)
      decreases |buffer| - ptr, 3
    {
      hide Decoder.UnpackOne, Decoder.PushValue, Decoder.UnpackArray, Decoder.UnpackHash, Decoder.Advances,
        Wire.GetExtendInteger;
      var n := cookie;
      if cookie == EXTEND_NUMBER {
        n :- GetExtendInteger();
      }
      Create(t);
      depth := depth + 1;
      ghost var before, id := View(), TopId();
      var _ :- UnpackArray(n);
      RT.ArrayAdvances(buffer, before, id, 1, n);
      depth := depth - 1;
      ghost var half := View();
      var _ :- UnpackHash();
      HashLeavesTop(buffer, half, id);
      return Ok(());
    }

    ghost predicate TableOnTop()
      reads this
    {
      |stack| > 0 && stack[|stack| - 1].TableRef? && stack[|stack| - 1].id < |tables|
    }

    ghost function TopId(): nat
      requires TableOnTop()
      reads this
    {
      stack[|stack| - 1].id
    }

    // lua_rawset and lua_rawseti: v is stored in the table below what is taken off the stack.
    method Store(k: Value, v: Value, taken: nat)
      requires Valid() && 0 < taken < |stack|
      requires var t := stack[|stack| - taken - 1]; t.TableRef? && t.id < |tables|
      modifies this`tables, this`stack
      ensures Valid() && stack == old(stack)[..|old(stack)| - taken] && TableOnTop()
      ensures View() == Decoder.Assign(old(View()).(stack := stack), TopId(), k, v)
    {
      stack := stack[..|stack| - taken];
      var t := stack[|stack| - 1].id;
      tables := tables[t := Decoder.RawSet(tables[t], k, v)];
    }

    method UnpackArray(n: int) returns (r: Result<()>)
      requires Valid() && TableOnTop()
      modifies this, ancestor
      ensures match Decoder.UnpackArray(buffer, old(View()), old(TopId()), 1, n)
              case Ok(d) => r == Ok(()) && Valid() && View() == d
              case Err(e) => r == Err(e)
      decreases |buffer| - ptr, 1
    {
      hide Decoder.UnpackOne, Decoder.UnpackArray, Decoder.RawSet, Decoder.Assign, Decoder.Advances;
      ghost var start, id := View(), TopId();
      var i := 1;
      while i <= n
        invariant 1 <= i && Valid() && id < |tables| && start.pos <= ptr && stack == start.stack
        invariant Decoder.UnpackArray(buffer, start, id, 1, n) == Decoder.UnpackArray(buffer, View(), id, i, n)
      {
        ghost var before := View();
        ArrayFails(buffer, before, id, i, n);
        var _ :- UnpackOne();
        RT.OneAdvances(buffer, before);
        RT.UnpackArrayStep(buffer, before, id, i, n);
        assert stack[..|stack| - 1] == start.stack;
        Store(Number(IntegerToDouble(i)), stack[|stack| - 1], 1);
        i := i + 1;
      }
      ArrayEnds(buffer, View(), id, i, n);
      return Ok(());
    }

    // The value of the key on top of the stack, one level deeper, and both stored
    method UnpackValue() returns (r: Result<()>)
      requires Valid() && |stack| >= 2 && stack[|stack| - 2].TableRef? && stack[|stack| - 2].id < |tables|
      modifies this, ancestor
      ensures var d, k := old(View()).(stack := old(stack)[..|old(stack)| - 1]), old(stack)[|old(stack)| - 1];
        match Decoder.UnpackOne(buffer, Decoder.AtValue(d, k))
        case Ok((w, d2)) =>
          && r == Ok(()) && Valid() && d.stack[|d.stack| - 1].id < |d2.tables| && d2.pos <= |buffer|
          && View() == Decoder.Assign(d2.(depth := d.depth, stack := d.stack), d.stack[|d.stack| - 1].id, k, w)
        case Err(e) => r == Err(e)
      decreases |buffer| - ptr, 1
    {
      hide Decoder.UnpackOne, Decoder.RawSet, Decoder.Assign, Decoder.Advances;
      ghost var d := View().(stack := stack[..|stack| - 1]);
      var k := stack[|stack| - 1];
      depth := depth + 1;
      assert View() == Decoder.AtValue(d, k) by { assert stack == d.stack + [k]; }
      var _ :- UnpackOne();
      RT.OneAdvances(buffer, Decoder.AtValue(d, k));
      depth := depth - 1;
      assert stack[..|stack| - 2] == d.stack;
      Store(k, stack[|stack| - 1], 2);
      return Ok(());
    }

    method UnpackHash() returns (r: Result<()>)
      requires Valid() && TableOnTop()
      modifies this, ancestor
      ensures match Decoder.UnpackHash(buffer, old(View()), old(TopId()))
              case Ok(d) => r == Ok(()) && Valid() && View() == d
              case Err(e) => r == Err(e)
      decreases |buffer| - ptr, 2
    {
      hide Decoder.UnpackOne, Decoder.UnpackHash, Decoder.RawSet, Decoder.Assign, Decoder.Advances;
      ghost var start, id := View(), TopId();
      while true
        invariant Valid() && id < |tables| && start.pos <= ptr && stack == start.stack && depth == start.depth
        invariant Decoder.UnpackHash(buffer, start, id) == Decoder.UnpackHash(buffer, View(), id)
        decreases |buffer| - ptr
      {
        ghost var d0 := View();
        HashGoesOn(buffer, d0, id);
        var _ :- UnpackOne();
        RT.OneAdvances(buffer, d0);
        var k := stack[|stack| - 1];
        assert stack[..|stack| - 1] == start.stack;
        if k == Nil {
          stack := stack[..|stack| - 1];
          return Ok(());
        }
        ghost var d1 := View().(stack := start.stack);
        var _ :- UnpackValue();
        HashStores(buffer, d0, id, k, d1);
      }
    }
  }

  // An entry read and stored, the rest is read from there.
  lemma HashStores(f: seq<byte>, d: Decoder.Dec, id: nat, k: Value, d1: Decoder.Dec)
    requires d.pos <= |f| && |d.anc| == MAX_DEPTH && id < |d.tables| && k != Nil
    requires Decoder.UnpackOne(f, d) == Ok((k, d1)) && d1.pos <= |f| && |d1.anc| == MAX_DEPTH
    requires Decoder.UnpackOne(f, Decoder.AtValue(d1, k)).Ok?
    ensures var (w, d2) := Decoder.UnpackOne(f, Decoder.AtValue(d1, k)).value;
      && id < |d2.tables| && d2.pos <= |f| && |d2.anc| == MAX_DEPTH && d.pos < d2.pos
      && var r := Decoder.Assign(d2.(depth := d1.depth, stack := d1.stack), id, k, w);
         r.pos == d2.pos && r.depth == d.depth && r.stack == d.stack && |r.tables| == |d2.tables|
         && Decoder.UnpackHash(f, d, id) == Decoder.UnpackHash(f, r, id)
  {
    hide Decoder.UnpackOne, Decoder.RawSet;
  }

  // How a hash part ends: with an error, or with its nil
  lemma HashGoesOn(f: seq<byte>, d: Decoder.Dec, id: nat)
    requires d.pos <= |f| && |d.anc| == MAX_DEPTH && id < |d.tables|
    ensures match Decoder.UnpackOne(f, d)
            case Err(e) => Decoder.UnpackHash(f, d, id) == Err(e)
            case Ok((k, d1)) =>
              if k == Nil then Decoder.UnpackHash(f, d, id) == Ok(d1)
              else
                && d1.pos <= |f| && |d1.anc| == MAX_DEPTH
                && var v := Decoder.UnpackOne(f, Decoder.AtValue(d1, k));
                   v.Err? ==> Decoder.UnpackHash(f, d, id) == Err(v.error)
  {
    hide Decoder.UnpackOne;
  }

  lemma HashLeavesTop(f: seq<byte>, d: Decoder.Dec, id: nat)
    requires d.pos <= |f| && |d.anc| == MAX_DEPTH && id < |d.tables| && Decoder.UnpackHash(f, d, id).Ok?
    ensures Decoder.UnpackHash(f, d, id).value.stack == d.stack
  {
    hide Decoder.UnpackHash;
  }

  lemma ArrayFails(f: seq<byte>, d: Decoder.Dec, id: nat, i: nat, n: int)
    requires d.pos <= |f| && |d.anc| == MAX_DEPTH && id < |d.tables| && i <= n
    ensures Decoder.UnpackOne(f, d).Err? ==> Decoder.UnpackArray(f, d, id, i, n) == Err(Decoder.UnpackOne(f, d).error)
  {
    hide Decoder.UnpackOne;
  }

  lemma ArrayEnds(f: seq<byte>, d: Decoder.Dec, id: nat, i: nat, n: int)
    requires d.pos <= |f| && |d.anc| == MAX_DEPTH && id < |d.tables| && i > n
    ensures Decoder.UnpackArray(f, d, id, i, n) == Ok(d)
  {
  }

  // seri_unpack on the bytes after the length field
  method SeriUnpack(bytes: seq<byte>) returns (r: Result<(seq<Value>, seq<Decoder.Contents>)>)
    ensures match Decoder.Unpack(bytes)
            case Ok((ws, d)) => r == Ok((ws, d.tables))
            case Err(e) => r == Err(e)
  {
    hide Decoder.UnpackOne;
    var rb := new ReadBlock(bytes);
    PrependNothing(Decoder.Unpack(bytes));
    while rb.len > 0
      invariant rb.Valid() && rb.buffer == bytes && fresh(rb) && fresh(rb.ancestor)
      invariant Decoder.Unpack(bytes) == Prepend(rb.stack, Decoder.UnpackAll(bytes, rb.View()))
      decreases rb.len
    {
      ghost var d := rb.View();
      var _ :- rb.UnpackOne();
      PrependStep(bytes, d);
    }
    assert rb.stack + [] == rb.stack;
    r := Ok((rb.stack, rb.tables));
  }

  ghost function Prepend(vs: seq<Value>, r: Result<(seq<Value>, Decoder.Dec)>): Result<(seq<Value>, Decoder.Dec)> {
    match r
    case Ok((ws, d)) => Ok((vs + ws, d))
    case Err(e) => Err(e)
  }

  lemma PrependNothing(r: Result<(seq<Value>, Decoder.Dec)>)
    ensures Prepend([], r) == r
  {
    assert r.Ok? ==> [] + r.value.0 == r.value.0;
  }

  lemma AllStep(f: seq<byte>, d: Decoder.Dec)
    requires d.pos < |f| && |d.anc| == MAX_DEPTH && Decoder.UnpackOne(f, d).Ok?
    ensures var (v, d1) := Decoder.UnpackOne(f, d).value;
      var next := d1.(stack := d1.stack + [v]);
      && next.stack == d.stack + [v] && next.pos <= |f| && |next.anc| == MAX_DEPTH
      && Decoder.UnpackAll(f, d) == Prepend([v], Decoder.UnpackAll(f, next))
  {
    hide Decoder.UnpackOne;
  }

  lemma PrependTwice(vs: seq<Value>, v: Value, r: Result<(seq<Value>, Decoder.Dec)>)
    ensures Prepend(vs, Prepend([v], r)) == Prepend(vs + [v], r)
  {
    assert r.Ok? ==> vs + ([v] + r.value.0) == vs + [v] + r.value.0;
  }

  lemma PrependStep(f: seq<byte>, d: Decoder.Dec)
    requires d.pos < |f| && |d.anc| == MAX_DEPTH && Decoder.UnpackOne(f, d).Ok?
    ensures var (v, d1) := Decoder.UnpackOne(f, d).value;
      var next := d1.(stack := d1.stack + [v]);
      next.stack == d.stack + [v] && Prepend(d.stack, Decoder.UnpackAll(f, d)) == Prepend(next.stack, Decoder.UnpackAll(f, next))
  {
    hide Decoder.UnpackOne, Decoder.UnpackAll, Prepend;
    AllStep(f, d);
    var (v, d1) := Decoder.UnpackOne(f, d).value;
    PrependTwice(d.stack, v, Decoder.UnpackAll(f, d1.(stack := d1.stack + [v])));
  }
}
