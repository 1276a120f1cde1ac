// What unpacking gives on any bytes, packed by this program or not: no value that is not
// there. Every table it refers to was created, and tables hold no nil.
module AnyBytes {
  import opened Wire
  import opened Decoder
  import opened RoundTrip
  import Misdirection

  predicate Present(v: Value, count: nat) {
    v.TableRef? ==> v.id < count
  }

  ghost predicate Whole(m: Contents, count: nat) {
    forall k :: k in m ==> k != Nil && m[k] != Nil && Present(k, count) && Present(m[k], count)
  }

  // The stack, the tables and the ref table name tables that were created; an id is that of
  // the table created as that one.
  ghost predicate Sound(d: Dec) {
    && (forall i :: 0 <= i < |d.stack| ==> Present(d.stack[i], |d.tables|))
    && (forall k :: 0 <= k < |d.tables| ==> Whole(d.tables[k], |d.tables|))
    && (forall id :: id in d.refs ==> 0 < id <= |d.tables| && d.refs[id] == id - 1)
  }

  lemma SoundPos(d: Dec, pos: nat, depth: nat)
    requires Sound(d)
    ensures Sound(d.(pos := pos)) && Sound(d.(depth := depth)) && Sound(d.(pos := pos, depth := depth))
  {
  }

  lemma CreateSound(d: Dec, t: int)
    requires Sound(d)
    ensures Sound(Create(d, t))
  {
    var r := Create(d, t);
    forall k | 0 <= k < |r.tables| ensures Whole(r.tables[k], |r.tables|) {
      assert k < |d.tables| ==> Whole(d.tables[k], |d.tables|);
    }
  }

  lemma AssignSound(d: Dec, id: nat, k: Value, v: Value)
    requires Sound(d) && id < |d.tables| && k != Nil && Present(k, |d.tables|) && Present(v, |d.tables|)
    ensures Sound(Assign(d, id, k, v))
  {
    assert Whole(d.tables[id], |d.tables|);
    var r := Assign(d, id, k, v);
    forall j | 0 <= j < |r.tables| ensures Whole(r.tables[j], |r.tables|) {
      assert Whole(d.tables[j], |d.tables|);
    }
  }

  // Back to a stack of before
  lemma PopSound(d: Dec, stack: seq<Value>, was: nat)
    requires Sound(d) && was <= |d.tables| && forall i :: 0 <= i < |stack| ==> Present(stack[i], was)
    ensures Sound(d.(stack := stack))
  {
  }

  lemma PushSound(d: Dec, v: Value)
    requires Sound(d) && Present(v, |d.tables|)
    ensures Sound(d.(stack := d.stack + [v])) && Sound(AtValue(d, v))
  {
  }

  lemma RefSound(f: seq<byte>, d: Dec, ref: nat)
    requires d.pos <= |f| && |d.anc| == MAX_DEPTH && ref < MAX_COOKIE && Sound(d) && UnpackRef(f, d, ref).Ok?
    ensures var (w, r) := UnpackRef(f, d, ref).value; Sound(r) && Present(w, |r.tables|) && r.tables == d.tables
  {
    hide Whole, Wire.GetExtendInteger;
  }

  lemma {:induction false} OneSound(f: seq<byte>, d: Dec)
    requires d.pos <= |f| && |d.anc| == MAX_DEPTH && Sound(d) && UnpackOne(f, d).Ok?
    ensures var (w, r) := UnpackOne(f, d).value; Sound(r) && Present(w, |r.tables|)
    decreases |f| - d.pos, 0
  {
    hide Sound, UnpackArray, UnpackHash, UnpackRef, Wire.UnpackScalar, TableSize;
    var t, cookie, dp := f[d.pos] % 8, f[d.pos] / 8, d.(pos := d.pos + 1);
    SoundPos(d, d.pos + 1, d.depth);
    if t == TYPE_TABLE || t == TYPE_TABLE_MARK {
      assert UnpackOne(f, d) == UnpackTable(f, dp, cookie, t);
      TableSound(f, dp, cookie, t);
    } else if t == TYPE_REF {
      assert UnpackOne(f, d) == UnpackRef(f, dp, cookie);
      RefSound(f, dp, cookie);
    } else {
      SoundPos(d, UnpackScalar(f, d.pos + 1, t, cookie).value.1, d.depth);
    }
  }

  lemma {:induction false} TableSound(f: seq<byte>, d: Dec, cookie: int, t: int)
    requires d.pos <= |f| && |d.anc| == MAX_DEPTH && Sound(d) && UnpackTable(f, d, cookie, t).Ok?
    ensures var (w, r) := UnpackTable(f, d, cookie, t).value; Sound(r) && Present(w, |r.tables|)
    decreases |f| - d.pos, 2
  {
    hide Sound, UnpackArray, UnpackHash, TableSize;
    var (n, p) := TableSize(f, d.pos, cookie).value;
    var id := |d.tables|;
    SoundPos(d, p, d.depth);
    var d1 := Create(d.(pos := p), t);
    CreateSound(d.(pos := p), t);
    SoundPos(d1, d1.pos, d.depth + 1);
    ArraySound(f, d1.(depth := d.depth + 1), id, 1, n);
    var d2 := UnpackArray(f, d1.(depth := d.depth + 1), id, 1, n).value;
    SoundPos(d2, d2.pos, d.depth);
    HashSound(f, d2.(depth := d.depth), id);
    var d3 := UnpackHash(f, d2.(depth := d.depth), id).value;
    StackSound(d);
    PopSound(d3, d.stack, |d.tables|);
  }

  lemma StackSound(d: Dec)
    requires Sound(d)
    ensures forall i :: 0 <= i < |d.stack| ==> Present(d.stack[i], |d.tables|)
  {
  }

  lemma {:induction false} ArraySound(f: seq<byte>, d: Dec, id: nat, i: nat, n: int)
    requires d.pos <= |f| && |d.anc| == MAX_DEPTH && id < |d.tables| && Sound(d) && UnpackArray(f, d, id, i, n).Ok?
    ensures Sound(UnpackArray(f, d, id, i, n).value)
    decreases |f| - d.pos, 1
  {
    hide Sound, UnpackOne, Assign;
    if i <= n {
      Misdirection.UnpackArrayFails(f, d, id, i, n);
      OneSound(f, d);
      var (v, d1) := UnpackOne(f, d).value;
      var k := Number(IntegerToDouble(i));
      AssignSound(d1, id, k, v);
      Misdirection.AssignOne(d1, id, k, v);
      ArraySound(f, Assign(d1, id, k, v), id, i + 1, n);
    }
  }

  lemma {:induction false} HashSound(f: seq<byte>, d: Dec, id: nat)
    requires d.pos <= |f| && |d.anc| == MAX_DEPTH && id < |d.tables| && Sound(d) && UnpackHash(f, d, id).Ok?
    ensures Sound(UnpackHash(f, d, id).value)
    decreases |f| - d.pos, 1
  {
    hide Sound, UnpackOne, Assign;
    Misdirection.KeyFails(f, d, id);
    OneSound(f, d);
    var (k, d1) := UnpackOne(f, d).value;
    if k != Nil {
      PushSound(d1, k);
      OneSound(f, AtValue(d1, k));
      var (v, d2) := UnpackOne(f, AtValue(d1, k)).value;
      StackSound(d);
      PopSound(d2, d.stack, |d.tables|);
      var e := d2.(depth := d.depth, stack := d.stack);
      SoundPos(d2.(stack := d.stack), d2.pos, d.depth);
      AssignSound(e, id, k, v);
      Misdirection.AssignOne(e, id, k, v);
      HashSound(f, Assign(e, id, k, v), id);
    }
  }

  lemma {:induction false} AllSound(f: seq<byte>, d: Dec)
    requires d.pos <= |f| && |d.anc| == MAX_DEPTH && Sound(d) && UnpackAll(f, d).Ok?
    ensures var (ws, r) := UnpackAll(f, d).value;
      Sound(r) && |d.tables| <= |r.tables| && forall i :: 0 <= i < |ws| ==> Present(ws[i], |r.tables|)
    decreases |f| - d.pos
  {
    hide Sound, UnpackOne;
    if d.pos < |f| {
      OneSound(f, d);
      var (w, d1) := UnpackOne(f, d).value;
      PushSound(d1, w);
      AllSound(f, d1.(stack := d1.stack + [w]));
    }
  }

  // On any bytes that are accepted: each result, key and value that is a table is one of the
  // tables made, and no table holds nil, as key or as value.
  lemma NothingFromNowhere(f: seq<byte>)
    requires Unpack(f).Ok?
    ensures var (ws, d) := Unpack(f).value;
      && d.pos == |f|
      && (forall i :: 0 <= i < |ws| ==> Present(ws[i], |d.tables|))
      && forall k :: 0 <= k < |d.tables| ==> Whole(d.tables[k], |d.tables|)
  {
    hide UnpackAll;
    assert Sound(START);
    AllSound(f, START);
  }

  // A scalar is accepted exactly in the forms there are: the subtypes of booleans, numbers and
  // pointers, and strings by the width of their length, with all their bytes there.
  lemma ScalarForms(f: seq<byte>, pos: nat, t: int, cookie: nat)
    requires pos <= |f| && cookie < MAX_COOKIE && 0 <= t < TYPE_TABLE
    ensures UnpackScalar(f, pos, t, cookie).Ok? <==>
      || (t == TYPE_BOOLEAN && cookie <= 2)
      || (t == TYPE_NUMBER && (cookie == 0 || cookie == 1 || cookie == 2 || cookie == 4) && pos + cookie <= |f|)
      || (t == TYPE_NUMBER && (cookie == 6 || cookie == 8) && pos + 8 <= |f|)
      || (t == TYPE_USERDATA && cookie == 0 && pos + 8 <= |f|)
      || (t == TYPE_SHORT_STRING && pos + cookie <= |f|)
      || (t == TYPE_LONG_STRING && (cookie == 2 || cookie == 4) && pos + cookie <= |f|
          && pos + cookie + FromLE(f[pos..pos + cookie]) <= |f|)
  {
  }
}
