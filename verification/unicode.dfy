/** Text as code points, its UTF-8 and UTF-16 forms, and the order RFC 8785 sorts property names in. */
module Unicode {

  type Byte = b: int | 0 <= b < 0x100
  type Bytes = seq<Byte>
  type CodePoint = c: int | 0 <= c < 0x11_0000
  type Text = seq<CodePoint>

  predicate IsSurrogate(c: int) {
    0xD800 <= c <= 0xDFFF
  }

  /** Text that UTF-8 can carry. */
  predicate Scalars(t: Text) {
    forall i :: 0 <= i < |t| ==> !IsSurrogate(t[i])
  }

  // ---- UTF-8 ----

  function Utf8One(c: CodePoint): (r: Bytes)
    ensures r != []
  {
    if c < 0x80 then [c]
    else if c < 0x800 then [0xC0 + c / 64, 0x80 + c % 64]
    else if c < 0x1_0000 then [0xE0 + c / 4096, 0x80 + c / 64 % 64, 0x80 + c % 64]
    else [0xF0 + c / 262144, 0x80 + c / 4096 % 64, 0x80 + c / 64 % 64, 0x80 + c % 64]
  }

  function Utf8(t: Text): Bytes {
    if t == [] then [] else Utf8One(t[0]) + Utf8(t[1..])
  }

  datatype Decoded = Decoded(c: CodePoint, rest: Bytes) | Malformed

  predicate IsCont(b: Byte) {
    0x80 <= b < 0xC0
  }

  /** One character of strict UTF-8: no overlong forms, no surrogates, nothing above U+10FFFF. */
  function DecodeOne(s: Bytes): (r: Decoded)
    ensures r.Decoded? ==> !IsSurrogate(r.c) && |r.rest| < |s|
  {
    if s == [] then Malformed
    else if s[0] < 0x80 then Decoded(s[0], s[1..])
    else if 0xC0 <= s[0] <= 0xDF then
      if |s| < 2 || !IsCont(s[1]) then Malformed
      else
        var c: int := (s[0] as int - 0xC0) * 64 + (s[1] as int - 0x80);
        if c < 0x80 then Malformed else Decoded(c, s[2..])
    else if 0xE0 <= s[0] <= 0xEF then
      if |s| < 3 || !IsCont(s[1]) || !IsCont(s[2]) then Malformed
      else
        var c: int := (s[0] as int - 0xE0) * 4096 + (s[1] as int - 0x80) * 64 + (s[2] as int - 0x80);
        if c < 0x800 || IsSurrogate(c) then Malformed else Decoded(c, s[3..])
    else if 0xF0 <= s[0] <= 0xF7 then
      if |s| < 4 || !IsCont(s[1]) || !IsCont(s[2]) || !IsCont(s[3]) then Malformed
      else
        var c: int := (s[0] as int - 0xF0) * 262144 + (s[1] as int - 0x80) * 4096 + (s[2] as int - 0x80) * 64
                      + (s[3] as int - 0x80);
        if c < 0x1_0000 || c > 0x10_FFFF then Malformed else Decoded(c, s[4..])
    else Malformed
  }

  predicate ValidUtf8(s: Bytes) {
    s == [] || (DecodeOne(s).Decoded? && ValidUtf8(DecodeOne(s).rest))
  }

  lemma Sextets(c: int)
    requires 0 <= c
    ensures c == c / 64 * 64 + c % 64
    ensures c / 4096 == c / 64 / 64 && c / 64 == c / 4096 * 64 + c / 64 % 64
    ensures c / 262144 == c / 4096 / 64 && c / 4096 == c / 262144 * 64 + c / 4096 % 64
  {
    Split(c);
    Split(c / 64);
  }

  lemma Split(c: int)
    requires 0 <= c
    ensures c == c / 64 * 64 + c % 64 && c / 4096 == c / 64 / 64 && c / 262144 == c / 64 / 4096
  {
  }

  /** Decoding undoes encoding, whatever follows. */
  lemma DecodeEncodedOne(c: CodePoint, t: Bytes)
    requires !IsSurrogate(c)
    ensures DecodeOne(Utf8One(c) + t) == Decoded(c, t)
  {
    Sextets(c);
    var s := Utf8One(c) + t;
    assert s[|Utf8One(c)|..] == t;
  }

  lemma {:induction false} Utf8Append(a: Text, b: Text)
    ensures Utf8(a + b) == Utf8(a) + Utf8(b)
  {
    if a == [] {
      assert a + b == b;
    } else {
      assert (a + b)[1..] == a[1..] + b;
      Utf8Append(a[1..], b);
    }
  }

  /** What the encoder writes is valid UTF-8. */
  lemma {:induction false} Utf8IsValid(t: Text)
    requires Scalars(t)
    ensures ValidUtf8(Utf8(t))
  {
    if t != [] {
      DecodeEncodedOne(t[0], Utf8(t[1..]));
      Utf8IsValid(t[1..]);
    }
  }

  // ---- UTF-16 and the order of keys ----

  function Utf16One(c: CodePoint): (r: seq<int>)
    ensures r != [] && forall i :: 0 <= i < |r| ==> 0 <= r[i] < 0x1_0000
  {
    if c < 0x1_0000 then [c] else [0xD800 + (c - 0x1_0000) / 1024, 0xDC00 + (c - 0x1_0000) % 1024]
  }

  function Utf16(t: Text): (r: seq<int>)
    ensures forall i :: 0 <= i < |r| ==> 0 <= r[i] < 0x1_0000
  {
    if t == [] then [] else Utf16One(t[0]) + Utf16(t[1..])
  }

  /** Code units, each as two bytes, most significant first. */
  function BigEndian(units: seq<int>): seq<int> {
    if units == [] then [] else [units[0] / 256, units[0] % 256] + BigEndian(units[1..])
  }

  predicate LexLess(a: seq<int>, b: seq<int>) {
    b != [] && (a == [] || a[0] < b[0] || (a[0] == b[0] && LexLess(a[1..], b[1..])))
  }

  /** The sort key of the printer: the text's UTF-16 form, big-endian, compared byte by byte. */
  predicate KeyLess(a: Text, b: Text) {
    LexLess(BigEndian(Utf16(a)), BigEndian(Utf16(b)))
  }

  lemma {:induction false} LexTransitive(a: seq<int>, b: seq<int>, c: seq<int>)
    requires LexLess(a, b) && LexLess(b, c)
    ensures LexLess(a, c)
  {
    if a != [] && a[0] == b[0] && b[0] == c[0] {
      LexTransitive(a[1..], b[1..], c[1..]);
    }
  }

  lemma {:induction false} LexTotal(a: seq<int>, b: seq<int>)
    ensures LexLess(a, b) || a == b || LexLess(b, a)
    ensures LexLess(a, b) ==> a != b && !LexLess(b, a)
  {
    if a != [] && b != [] && a[0] == b[0] {
      LexTotal(a[1..], b[1..]);
    }
  }

  /** Comparing the big-endian bytes is comparing the code units, as RFC 8785 section 3.2.3 demands. */
  lemma {:induction false} ByteOrderIsUnitOrder(a: seq<int>, b: seq<int>)
    requires forall i :: 0 <= i < |a| ==> 0 <= a[i] < 0x1_0000
    requires forall i :: 0 <= i < |b| ==> 0 <= b[i] < 0x1_0000
    ensures LexLess(BigEndian(a), BigEndian(b)) <==> LexLess(a, b)
    ensures BigEndian(a) == BigEndian(b) ==> a == b
  {
    if a != [] && b != [] {
      ByteOrderIsUnitOrder(a[1..], b[1..]);
      var x, y := BigEndian(a), BigEndian(b);
      assert x[1..][0] == a[0] % 256 && y[1..][0] == b[0] % 256;
      assert x[1..][1..] == BigEndian(a[1..]) && y[1..][1..] == BigEndian(b[1..]);
      assert x[2..] == BigEndian(a[1..]) && y[2..] == BigEndian(b[1..]);
      assert LexLess(x, y) <==> (x[0] < y[0] || (x[0] == y[0] && LexLess(x[1..], y[1..])));
    }
  }

  lemma {:induction false} Utf16Injective(a: Text, b: Text)
    requires Scalars(a) && Scalars(b) && Utf16(a) == Utf16(b)
    ensures a == b
  {
    if a == [] || b == [] {
      assert Utf16(a) == [] && Utf16(b) == [];
    } else {
      assert Utf16(a)[0] == Utf16One(a[0])[0] && Utf16(b)[0] == Utf16One(b[0])[0];
      if a[0] >= 0x1_0000 {
        assert Utf16(a)[1] == Utf16One(a[0])[1] && Utf16(b)[1] == Utf16One(b[0])[1];
      }
      assert a[0] == b[0];
      var k := |Utf16One(a[0])|;
      assert Utf16(a)[k..] == Utf16(a[1..]) && Utf16(b)[k..] == Utf16(b[1..]);
      Utf16Injective(a[1..], b[1..]);
    }
  }

  /** On distinct encodable keys the printer's order is a strict total order. */
  lemma KeysTotal(a: Text, b: Text)
    requires Scalars(a) && Scalars(b)
    ensures KeyLess(a, b) || a == b || KeyLess(b, a)
    ensures KeyLess(a, b) ==> a != b && !KeyLess(b, a)
  {
    LexTotal(BigEndian(Utf16(a)), BigEndian(Utf16(b)));
    ByteOrderIsUnitOrder(Utf16(a), Utf16(b));
    if Utf16(a) == Utf16(b) {
      Utf16Injective(a, b);
    }
  }

  // ---- decimal numerals ----

  predicate IsDigit(c: int) {
    0x30 <= c <= 0x39
  }

  function Digits(n: nat): (t: Text)
    ensures t != [] && forall i :: 0 <= i < |t| ==> IsDigit(t[i])
  {
    if n < 10 then [0x30 + n] else Digits(n / 10) + [0x30 + n % 10]
  }

  /** The value of a run of decimal digits. */
  function Decimal(t: Text): nat
    requires forall i :: 0 <= i < |t| ==> IsDigit(t[i])
  {
    if t == [] then 0
    else
      var n := |t| - 1;
      assert IsDigit(t[n]);
      Decimal(t[..n]) * 10 + (t[n] - 0x30)
  }

  lemma {:induction false} DecimalOfDigits(n: nat)
    ensures Decimal(Digits(n)) == n
  {
    if n >= 10 {
      DecimalOfDigits(n / 10);
      assert Digits(n)[..|Digits(n)| - 1] == Digits(n / 10);
    } else {
      assert Digits(n)[..0] == [];
    }
  }
}
