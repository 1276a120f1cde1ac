// Values and the tagged byte forms of everything that is not a table.
// A table appears here only as an opaque handle; graphs are in graph.dfy.
module Wire {

  datatype Option<+T> = None | Some(value: T)

  // The decoder's luaL_error exits.
  datatype Error = InvalidStream | InvalidBoolean | InvalidUserdata | InvalidRef

  datatype Result<+T> = Ok(value: T) | Err(error: Error) {
    predicate IsFailure() { Err? }
    function PropagateFailure<U>(): Result<U> requires Err? { Err(error) }
    function Extract(): T requires Ok? { value }
  }

  type byte = x: int | 0 <= x < 0x100
  type u64 = x: int | 0 <= x < 0x1_0000_0000_0000_0000
  type i64 = x: int | -0x8000_0000_0000_0000 <= x < 0x8000_0000_0000_0000

  const TYPE_BOOLEAN := 0
  const TYPE_BOOLEAN_NIL := 0
  const TYPE_BOOLEAN_FALSE := 1
  const TYPE_BOOLEAN_TRUE := 2
  const TYPE_NUMBER := 1
  const TYPE_NUMBER_ZERO := 0
  const TYPE_NUMBER_BYTE := 1
  const TYPE_NUMBER_WORD := 2
  const TYPE_NUMBER_DWORD := 4
  const TYPE_NUMBER_QWORD := 6
  const TYPE_NUMBER_REAL := 8
  const TYPE_USERDATA := 2
  const TYPE_USERDATA_POINTER := 0
  const TYPE_SHORT_STRING := 3
  const TYPE_LONG_STRING := 4
  const TYPE_TABLE := 5
  const TYPE_TABLE_MARK := 6
  const TYPE_REF := 7
  const MAX_COOKIE := 32
  const EXTEND_NUMBER := MAX_COOKIE - 1
  const MAX_DEPTH := 31

  // Sizes and counters are C ints.
  const INT_LIMIT := 0x8000_0000

  // A Lua value. A number is the 64-bit pattern of its double; TableRef(o) is
  // the identity of a table, not its contents.
  datatype Value =
    | Nil
    | Boolean(b: bool)
    | Number(bits: u64)
    | String(s: seq<byte>)
    | Pointer(p: u64)
    | TableRef(id: nat)

  // COMBINE_TYPE: three type bits below five cookie bits.
  function Tag(t: int, cookie: int): (r: byte)
    requires 0 <= t < 8 && 0 <= cookie < MAX_COOKIE
    ensures r % 8 == t && r / 8 == cookie
  {
    t + 8 * cookie
  }

  // Little-endian integers

  function Pow256(k: nat): (r: nat)
    ensures r > 0
  {
    if k == 0 then 1 else 256 * Pow256(k - 1)
  }

  function ToLE(v: nat, k: nat): (r: seq<byte>)
    ensures |r| == k
  {
    if k == 0 then [] else [v % 256] + ToLE(v / 256, k - 1)
  }

  function FromLE(s: seq<byte>): nat {
    if s == [] then 0 else s[0] + 256 * FromLE(s[1..])
  }

  lemma {:induction false} FromToLE(v: nat, k: nat)
    requires v < Pow256(k)
    ensures FromLE(ToLE(v, k)) == v
  {
    if k > 0 {
      FromToLE(v / 256, k - 1);
      assert ToLE(v, k)[1..] == ToLE(v / 256, k - 1);
    }
  }

  lemma FieldWidths()
    ensures Pow256(1) == 0x100 && Pow256(2) == 0x1_0000
    ensures Pow256(4) == 0x1_0000_0000 && Pow256(8) == 0x1_0000_0000_0000_0000
  {
    assert Pow256(3) == 0x100_0000;
    assert Pow256(6) == 256 * Pow256(5);
  }

  // Two's complement of a width, and the reinterpretation memcpy performs.
  function Unsigned(v: int, limit: nat): int {
    if v < 0 then v + limit else v
  }

  function Signed(v: int, limit: nat): int {
    if v < limit / 2 then v else v - limit
  }

  // Integers, as written by wb_integer

  function EncInteger(v: i64): (r: seq<byte>)
    ensures |r| > 0
  {
    if v == 0 then [Tag(TYPE_NUMBER, TYPE_NUMBER_ZERO)]
    else if !(-INT_LIMIT <= v < INT_LIMIT) then
      [Tag(TYPE_NUMBER, TYPE_NUMBER_QWORD)] + ToLE(Unsigned(v, 0x1_0000_0000_0000_0000), 8)
    else if v < 0 then
      [Tag(TYPE_NUMBER, TYPE_NUMBER_DWORD)] + ToLE(Unsigned(v, 0x1_0000_0000), 4)
    else if v < 0x100 then [Tag(TYPE_NUMBER, TYPE_NUMBER_BYTE)] + ToLE(v, 1)
    else if v < 0x1_0000 then [Tag(TYPE_NUMBER, TYPE_NUMBER_WORD)] + ToLE(v, 2)
    else [Tag(TYPE_NUMBER, TYPE_NUMBER_DWORD)] + ToLE(v, 4)
  }

  // Everything but tables, as pack_one writes it.
  function EncScalar(v: Value): (r: seq<byte>)
    requires !v.TableRef?
    ensures |r| > 0
  {
    match v
    case Nil => [Tag(TYPE_BOOLEAN, TYPE_BOOLEAN_NIL)]
    case Boolean(b) => [Tag(TYPE_BOOLEAN, if b then TYPE_BOOLEAN_TRUE else TYPE_BOOLEAN_FALSE)]
    case Number(bits) => [Tag(TYPE_NUMBER, TYPE_NUMBER_REAL)] + ToLE(bits, 8)
    case Pointer(p) => [Tag(TYPE_USERDATA, TYPE_USERDATA_POINTER)] + ToLE(p, 8)
    case String(s) => EncString(s)
  }

  function EncString(s: seq<byte>): (r: seq<byte>)
    ensures |r| > 0
  {
    if |s| < MAX_COOKIE then [Tag(TYPE_SHORT_STRING, |s|)] + s
    else if |s| < 0x1_0000 then [Tag(TYPE_LONG_STRING, 2)] + ToLE(|s|, 2) + s
    else [Tag(TYPE_LONG_STRING, 4)] + ToLE(|s|, 4) + s
  }

  // Reading

  // rb_read: n bytes at pos, or the end-of-buffer error.
  function Read(buf: seq<byte>, pos: nat, n: nat): (r: Result<(seq<byte>, nat)>)
    ensures r.Ok? ==> |r.value.0| == n && r.value.1 == pos + n <= |buf|
  {
    if pos + n <= |buf| then Ok((buf[pos..pos + n], pos + n)) else Err(InvalidStream)
  }

  function GetInteger(buf: seq<byte>, pos: nat, cookie: int): (r: Result<(int, nat)>)
    ensures r.Ok? ==> pos <= r.value.1 && (pos <= |buf| ==> r.value.1 <= |buf|)
    ensures r.Ok? ==> -0x8000_0000_0000_0000 <= r.value.0 < 0x1_0000_0000_0000_0000
  {
    if cookie == TYPE_NUMBER_ZERO then Ok((0, pos))
    else if cookie == TYPE_NUMBER_BYTE then
      var (b, p) :- Read(buf, pos, 1);
      Ok((b[0], p))
    else if cookie == TYPE_NUMBER_WORD then
      var (b, p) :- Read(buf, pos, 2);
      LEBound(b);
      Ok((FromLE(b), p))
    else if cookie == TYPE_NUMBER_DWORD then
      var (b, p) :- Read(buf, pos, 4);
      LEBound(b);
      Ok((Signed(FromLE(b), 0x1_0000_0000), p))
    else if cookie == TYPE_NUMBER_QWORD then
      var (b, p) :- Read(buf, pos, 8);
      LEBound(b);
      Ok((Signed(FromLE(b), 0x1_0000_0000_0000_0000), p))
    else Err(InvalidStream)
  }

  lemma {:induction false} LEBoundBy(s: seq<byte>)
    ensures FromLE(s) < Pow256(|s|)
  {
    if s != [] {
      LEBoundBy(s[1..]);
    }
  }

  lemma LEBound(s: seq<byte>)
    ensures |s| == 1 || |s| == 2 || |s| == 4 || |s| == 8 ==> FromLE(s) < 0x1_0000_0000_0000_0000
    ensures |s| == 4 ==> FromLE(s) < 0x1_0000_0000
  {
    LEBoundBy(s);
    FieldWidths();
  }

  // The (int) cast in get_extend_integer.
  function ToInt32(v: int): int {
    Signed(v % 0x1_0000_0000, 0x1_0000_0000)
  }

  function GetExtendInteger(buf: seq<byte>, pos: nat): (r: Result<(int, nat)>)
    ensures r.Ok? ==> pos < r.value.1 <= |buf|
  {
    var (b, p) :- Read(buf, pos, 1);
    var t := b[0];
    if t % 8 != TYPE_NUMBER || t / 8 == TYPE_NUMBER_REAL then Err(InvalidStream)
    else
      var (n, p2) :- GetInteger(buf, p, t / 8);
      Ok((ToInt32(n), p2))
  }

  // push_value for the five non-table types; pos is just past the tag byte.
  function UnpackScalar(buf: seq<byte>, pos: nat, t: int, cookie: int): (r: Result<(Value, nat)>)
    ensures r.Ok? ==> pos <= r.value.1 && (pos <= |buf| ==> r.value.1 <= |buf|)
    ensures r.Ok? ==> !r.value.0.TableRef?
  {
    if t == TYPE_BOOLEAN then
      if cookie == TYPE_BOOLEAN_NIL then Ok((Nil, pos))
      else if cookie == TYPE_BOOLEAN_FALSE then Ok((Boolean(false), pos))
      else if cookie == TYPE_BOOLEAN_TRUE then Ok((Boolean(true), pos))
      else Err(InvalidBoolean)
    else if t == TYPE_NUMBER then
      if cookie == TYPE_NUMBER_REAL then
        var (b, p) :- Read(buf, pos, 8);
        LEBound(b);
        Ok((Number(FromLE(b)), p))
      else
        var (n, p) :- GetInteger(buf, pos, cookie);
        Ok((Number(IntegerToDouble(n)), p))
    else if t == TYPE_USERDATA then
      // Subtype 1 would be a C function, which this model leaves out.
      if cookie != TYPE_USERDATA_POINTER then Err(InvalidUserdata)
      else
        var (b, p) :- Read(buf, pos, 8);
        LEBound(b);
        Ok((Pointer(FromLE(b)), p))
    else if t == TYPE_SHORT_STRING then
      if cookie < 0 then Err(InvalidStream)
      else
        var (b, p) :- Read(buf, pos, cookie);
        Ok((String(b), p))
    else if t == TYPE_LONG_STRING then
      if cookie != 2 && cookie != 4 then Err(InvalidStream)
      else
        var (b, p) :- Read(buf, pos, cookie);
        var (s, p2) :- Read(buf, p, FromLE(b));
        Ok((String(s), p2))
    else Err(InvalidStream)
  }

  // Doubles: the IEEE 754 binary64 pattern of an integer

  const MANTISSA := 0x10_0000_0000_0000
  const EXPONENT_BIAS := 1023

  function Pow2(k: nat): (r: nat)
    ensures r > 0
  {
    if k == 0 then 1 else 2 * Pow2(k - 1)
  }

  // The e with 2^e <= n < 2^(e+1).
  function Log2(n: nat): (e: nat)
    requires n > 0
    ensures Pow2(e) <= n < 2 * Pow2(e)
  {
    if n == 1 then 0 else 1 + Log2(n / 2)
  }

  function DoubleOf(n: nat): (r: u64)
    requires 0 < n < MANTISSA
    ensures Log2(n) < 52 && r / MANTISSA == EXPONENT_BIAS + Log2(n)
    ensures r % MANTISSA == (n - Pow2(Log2(n))) * Pow2(52 - Log2(n))
  {
    var e := Log2(n);
    Pow2Values();
    LogBelow(n, 52);
    Pow2Product(e, 52 - e);
    MulLess(n - Pow2(e), Pow2(e), Pow2(52 - e));
    var frac := (n - Pow2(e)) * Pow2(52 - e);
    (EXPONENT_BIAS + e) * MANTISSA + frac
  }

  lemma {:induction false} Pow2Product(a: nat, b: nat)
    ensures Pow2(a) * Pow2(b) == Pow2(a + b)
  {
    if a > 0 {
      Pow2Product(a - 1, b);
      assert Pow2(a) * Pow2(b) == 2 * (Pow2(a - 1) * Pow2(b));
    }
  }

  lemma Pow2Values()
    ensures Pow2(30) == 0x4000_0000 && Pow2(31) == INT_LIMIT && Pow2(52) == MANTISSA
  {
    assert Pow2(10) == 1024 && Pow2(2) == 4;
    Pow2Product(10, 10);
    Pow2Product(20, 10);
    Pow2Product(30, 20);
    Pow2Product(50, 2);
  }

  lemma {:induction false} Pow2Monotone(a: nat, b: nat)
    requires a <= b
    ensures Pow2(a) <= Pow2(b)
  {
    if a < b {
      Pow2Monotone(a, b - 1);
    }
  }

  lemma LogBelow(n: nat, k: nat)
    requires 0 < n < Pow2(k)
    ensures Log2(n) < k
  {
    if k <= Log2(n) {
      Pow2Monotone(k, Log2(n));
    }
  }

  lemma MulLess(a: nat, b: nat, c: nat)
    requires a < b && 0 < c
    ensures 0 <= a * c < b * c
  {
  }

  // lua_pushinteger. Only a hand-made stream reaches it: pack_one writes every
  // number as a double. Integers of 2^52 and more are clamped here.
  function IntegerToDouble(n: int): u64 {
    if n == 0 then 0
    else if 0 < n < MANTISSA then DoubleOf(n)
    else if -MANTISSA < n < 0 then
      var bits := DoubleOf(-n);
      if bits < 0x8000_0000_0000_0000 then bits + 0x8000_0000_0000_0000 else bits
    else DoubleOf(MANTISSA - 1)
  }

  // The positive integer below 2^31 a double denotes, if it denotes one: the
  // test wb_table_hash applies to a numeric key.
  function AsInteger(bits: u64): Option<nat> {
    var exp := bits / MANTISSA;
    if !(EXPONENT_BIAS <= exp <= EXPONENT_BIAS + 30) then None
    else
      var e := exp - EXPONENT_BIAS;
      var frac := bits % MANTISSA;
      if frac % Pow2(52 - e) == 0 then Some(Pow2(e) + frac / Pow2(52 - e)) else None
  }

  lemma AsIntegerOfDouble(n: nat)
    requires 0 < n < INT_LIMIT
    ensures AsInteger(DoubleOf(n)) == Some(n)
  {
    var e := Log2(n);
    Pow2Values();
    LogBelow(n, 31);
    var d, q := n - Pow2(e), Pow2(52 - e);
    ExactDivision(d, q);
  }

  lemma ExactDivision(d: nat, q: nat)
    requires q > 0
    ensures (d * q) % q == 0 && (d * q) / q == d
  {
    var k, r := (d * q) / q, (d * q) % q;
    assert k * q + r == d * q;
    SmallMultiple(d - k, q);
  }

  lemma SmallMultiple(x: int, q: nat)
    requires 0 - q < x * q < q
    ensures x == 0
  {
  }

  // Distinct integers have distinct doubles.
  lemma DoubleInjective(a: nat, b: nat)
    requires 0 < a < INT_LIMIT && 0 < b < INT_LIMIT && DoubleOf(a) == DoubleOf(b)
    ensures a == b
  {
    AsIntegerOfDouble(a);
    AsIntegerOfDouble(b);
  }

  // The encoder's key test recognises exactly the doubles of integers.
  lemma AsIntegerSound(bits: u64)
    requires AsInteger(bits).Some?
    ensures var n := AsInteger(bits).value; 0 < n < INT_LIMIT && bits == DoubleOf(n)
  {
    var e := bits / MANTISSA - EXPONENT_BIAS;
    var frac, q := bits % MANTISSA, Pow2(52 - e);
    DivideEvenly(frac, q);
    DoublePattern(e, frac / q);
  }

  lemma DivideEvenly(n: nat, q: nat)
    requires q > 0 && n % q == 0
    ensures n == n / q * q
  {
  }

  lemma DoublePattern(e: nat, d: nat)
    requires e <= 30 && d * Pow2(52 - e) < MANTISSA
    ensures var n := Pow2(e) + d;
      0 < n < INT_LIMIT && DoubleOf(n) == (EXPONENT_BIAS + e) * MANTISSA + d * Pow2(52 - e)
  {
    Pow2Values();
    Pow2Product(e, 52 - e);
    QuotientBelow(d, Pow2(e), Pow2(52 - e));
    Pow2Monotone(e, 30);
    LogUnique(Pow2(e) + d, e);
  }

  lemma QuotientBelow(d: nat, p: nat, q: nat)
    requires d * q < p * q
    ensures d < p
  {
  }

  lemma LogUnique(n: nat, e: nat)
    requires 0 < n && Pow2(e) <= n < 2 * Pow2(e)
    ensures Log2(n) == e
  {
    LogBelow(n, e + 1);
    if Log2(n) < e {
      Pow2Monotone(Log2(n) + 1, e);
    }
  }

  // Scalar round trips, at any place in a buffer

  ghost predicate At(buf: seq<byte>, pos: nat, s: seq<byte>) {
    pos + |s| <= |buf| && buf[pos..pos + |s|] == s
  }

  lemma AtConcat(buf: seq<byte>, pos: nat, s: seq<byte>, t: seq<byte>)
    requires At(buf, pos, s + t)
    ensures At(buf, pos, s) && At(buf, pos + |s|, t)
  {
    assert buf[pos..pos + |s|] == (s + t)[..|s|];
    assert buf[pos + |s|..pos + |s| + |t|] == (s + t)[|s|..];
  }

  lemma ReadAt(buf: seq<byte>, pos: nat, s: seq<byte>)
    requires At(buf, pos, s)
    ensures Read(buf, pos, |s|) == Ok((s, pos + |s|))
  {
  }

  // A tag byte followed by a little-endian field
  lemma FieldRoundTrip(buf: seq<byte>, pos: nat, tag: byte, v: nat, k: nat)
    requires v < Pow256(k) && At(buf, pos, [tag] + ToLE(v, k))
    ensures pos < |buf| && buf[pos] == tag
    ensures Read(buf, pos + 1, k) == Ok((ToLE(v, k), pos + 1 + k)) && FromLE(ToLE(v, k)) == v
  {
    AtConcat(buf, pos, [tag], ToLE(v, k));
    assert buf[pos..pos + 1][0] == buf[pos];
    FromToLE(v, k);
  }

  lemma IntegerRoundTrip(buf: seq<byte>, pos: nat, v: i64)
    requires At(buf, pos, EncInteger(v))
    ensures pos < |buf| && buf[pos] % 8 == TYPE_NUMBER && buf[pos] / 8 != TYPE_NUMBER_REAL
    ensures GetInteger(buf, pos + 1, buf[pos] / 8) == Ok((v, pos + |EncInteger(v)|))
  {
    hide FromLE, ToLE, Pow256, At, Read;
    FieldWidths();
    if v == 0 {
      assert buf[pos] == EncInteger(v)[0] by { FirstOf(buf, pos, EncInteger(v)); }
    } else if !(-INT_LIMIT <= v < INT_LIMIT) {
      FieldRoundTrip(buf, pos, Tag(TYPE_NUMBER, TYPE_NUMBER_QWORD), Unsigned(v, 0x1_0000_0000_0000_0000), 8);
    } else if v < 0 {
      FieldRoundTrip(buf, pos, Tag(TYPE_NUMBER, TYPE_NUMBER_DWORD), Unsigned(v, 0x1_0000_0000), 4);
    } else if v < 0x100 {
      FieldRoundTrip(buf, pos, Tag(TYPE_NUMBER, TYPE_NUMBER_BYTE), v, 1);
      assert FromLE(ToLE(v, 1)) == ToLE(v, 1)[0] by { ByteLE(v); }
    } else if v < 0x1_0000 {
      FieldRoundTrip(buf, pos, Tag(TYPE_NUMBER, TYPE_NUMBER_WORD), v, 2);
    } else {
      FieldRoundTrip(buf, pos, Tag(TYPE_NUMBER, TYPE_NUMBER_DWORD), v, 4);
    }
  }

  lemma ByteLE(v: nat)
    requires v < 0x100
    ensures FromLE(ToLE(v, 1)) == ToLE(v, 1)[0]
  {
    assert ToLE(v, 1)[1..] == [];
  }

  lemma FirstOf(buf: seq<byte>, pos: nat, s: seq<byte>)
    requires At(buf, pos, s) && |s| > 0
    ensures pos < |buf| && buf[pos] == s[0]
  {
    assert buf[pos..pos + |s|][0] == buf[pos];
  }

  // Of all the forms that read back to v, the one written takes the fewest bytes.
  lemma IntegerShortest(buf: seq<byte>, pos: nat, cookie: int, v: i64)
    requires GetInteger(buf, pos, cookie).Ok? && GetInteger(buf, pos, cookie).value.0 == v
    ensures |EncInteger(v)| <= 1 + GetInteger(buf, pos, cookie).value.1 - pos
  {
    hide ToLE, FromLE, Pow256;
    FieldWidths();
    if cookie == TYPE_NUMBER_BYTE || cookie == TYPE_NUMBER_WORD || cookie == TYPE_NUMBER_DWORD {
      var n := if cookie == TYPE_NUMBER_BYTE then 1 else if cookie == TYPE_NUMBER_WORD then 2 else 4;
      LEBoundBy(buf[pos..pos + n]);
    }
  }

  // And so is a size or an id, whatever get_extend_integer's cast makes of longer forms.
  lemma ExtendShortest(buf: seq<byte>, pos: nat, n: nat)
    requires n < INT_LIMIT && GetExtendInteger(buf, pos).Ok? && GetExtendInteger(buf, pos).value.0 == n
    ensures |EncInteger(n)| <= GetExtendInteger(buf, pos).value.1 - pos
  {
    hide ToLE, FromLE, Pow256;
    FieldWidths();
    var cookie := Read(buf, pos, 1).value.0[0] / 8;
    var (v, p) := GetInteger(buf, pos + 1, cookie).value;
    if cookie != TYPE_NUMBER_QWORD {
      if cookie == TYPE_NUMBER_BYTE || cookie == TYPE_NUMBER_WORD || cookie == TYPE_NUMBER_DWORD {
        var k := if cookie == TYPE_NUMBER_BYTE then 1 else if cookie == TYPE_NUMBER_WORD then 2 else 4;
        LEBoundBy(buf[pos + 1..pos + 1 + k]);
      }
      assert v == n;
      IntegerShortest(buf, pos + 1, cookie, n);
    }
  }

  // A string is written in the shortest of the forms that read back as it.
  lemma StringShortest(buf: seq<byte>, pos: nat, t: int, cookie: nat, s: seq<byte>)
    requires cookie < MAX_COOKIE && UnpackScalar(buf, pos, t, cookie).Ok?
    requires UnpackScalar(buf, pos, t, cookie).value.0 == String(s)
    ensures |EncScalar(String(s))| <= 1 + UnpackScalar(buf, pos, t, cookie).value.1 - pos
  {
    if t == TYPE_LONG_STRING {
      var width := if cookie == 2 then 2 else 4;
      LEBoundBy(Read(buf, pos, width).value.0);
      FieldWidths();
    }
  }

  lemma ExtendIntegerRoundTrip(buf: seq<byte>, pos: nat, v: nat)
    requires v < INT_LIMIT && At(buf, pos, EncInteger(v))
    ensures GetExtendInteger(buf, pos) == Ok((v, pos + |EncInteger(v)|))
  {
    IntegerRoundTrip(buf, pos, v);
    assert Read(buf, pos, 1) == Ok((buf[pos..pos + 1], pos + 1));
    assert buf[pos..pos + 1][0] == buf[pos];
  }

  predicate EncodableScalar(v: Value) {
    match v
    case String(s) => |s| < INT_LIMIT
    case TableRef(_) => false
    case _ => true
  }

  // Decoding what pack_one wrote for a scalar gives the scalar back and stops
  // at the first byte after it; the tag is never one of a table.
  lemma ScalarRoundTrip(buf: seq<byte>, pos: nat, v: Value)
    requires EncodableScalar(v) && At(buf, pos, EncScalar(v))
    ensures pos < |buf| && buf[pos] % 8 < TYPE_TABLE
    ensures UnpackScalar(buf, pos + 1, buf[pos] % 8, buf[pos] / 8) == Ok((v, pos + |EncScalar(v)|))
  {
    FirstOf(buf, pos, EncScalar(v));
    FieldWidths();
    match v
    case Nil =>
    case Boolean(b) =>
    case Number(bits) =>
      FieldRoundTrip(buf, pos, Tag(TYPE_NUMBER, TYPE_NUMBER_REAL), bits, 8);
    case Pointer(p) =>
      FieldRoundTrip(buf, pos, Tag(TYPE_USERDATA, TYPE_USERDATA_POINTER), p, 8);
    case String(s) =>
      if |s| < MAX_COOKIE {
        AtConcat(buf, pos, [Tag(TYPE_SHORT_STRING, |s|)], s);
        ReadAt(buf, pos + 1, s);
      } else {
        LongStringRoundTrip(buf, pos, s, if |s| < 0x1_0000 then 2 else 4);
      }
  }

  lemma LongStringRoundTrip(buf: seq<byte>, pos: nat, s: seq<byte>, w: nat)
    requires (w == 2 || w == 4) && |s| < Pow256(w)
    requires At(buf, pos, [Tag(TYPE_LONG_STRING, w)] + ToLE(|s|, w) + s)
    ensures pos < |buf| && buf[pos] == Tag(TYPE_LONG_STRING, w)
    ensures UnpackScalar(buf, pos + 1, TYPE_LONG_STRING, w) == Ok((String(s), pos + 1 + w + |s|))
  {
    hide FromLE, ToLE, Pow256;
    AtConcat(buf, pos, [Tag(TYPE_LONG_STRING, w)] + ToLE(|s|, w), s);
    FieldRoundTrip(buf, pos, Tag(TYPE_LONG_STRING, w), |s|, w);
    ReadAt(buf, pos + 1 + w, s);
  }
}
