/** The parser as an object that walks a position through the data; each method is proved to accept and
    return exactly what the parsing functions do on the rest of the data. */
module JsonReader {
  import opened Types
  import opened Unicode
  import opened Json
  import opened JsonParser

  lemma DecimalOne(t: Bytes, d: Byte)
    requires t == [d] && IsDigit(d)
    ensures Decimal(t) == d - 0x30
  {
    assert t[..0] == [];
  }

  /** One more digit of a run. */
  lemma RunNext(data: Bytes, start: nat, pos: nat)
    requires start <= pos < |data| && forall k :: start <= k <= pos ==> IsDigit(data[k])
    ensures DigitRun(data[pos..], Decimal(data[start..pos])) == DigitRun(data[pos + 1..], Decimal(data[start..pos + 1]))
  {
    assert data[pos..][1..] == data[pos + 1..] && data[start..pos + 1][..pos - start] == data[start..pos];
  }

  lemma AsciiChar(s: Bytes)
    requires s != [] && 0x20 <= s[0] < 0x80 && s[0] != 0x5C
    ensures StringChar(s) == Done(s[0], s[1..])
  {
  }

  class Parser {
    const data: Bytes
    var pos: nat

    constructor (data: Bytes)
      ensures this.data == data && pos == 0
    {
      this.data := data;
      pos := 0;
    }

    /** What is still to be read. */
    ghost function Rest(): Bytes
      reads this
    {
      if pos <= |data| then data[pos..] else []
    }

    /** The outcome of a method against what its specification says of the rest of the data. */
    ghost predicate Agrees<T>(r: Option<T>, p: Parsed<T>)
      reads this
    {
      match p
      case Fail => r == None
      case Done(v, rest) => r == Some(v) && pos <= |data| && Rest() == rest
    }

    method Peek() returns (b: int)
      ensures b == if Rest() == [] then -1 else Rest()[0] as int
    {
      b := if pos < |data| then data[pos] else -1;
    }

    method Ws()
      requires pos <= |data|
      modifies this
      ensures pos <= |data| && Rest() == SkipWs(old(Rest()))
    {
      while pos < |data| && (data[pos] == 0x20 || data[pos] == 0x09 || data[pos] == 0x0A || data[pos] == 0x0D)
        invariant pos <= |data| && SkipWs(Rest()) == SkipWs(old(Rest()))
      {
        assert Rest()[1..] == data[pos + 1..];
        pos := pos + 1;
      }
    }

    method Expect(lit: Bytes, v: Value) returns (r: Option<Value>)
      requires lit != [] && pos <= |data|
      modifies this
      ensures Agrees(r, Literal(old(Rest()), lit, v))
    {
      if pos + |lit| > |data| || data[pos..pos + |lit|] != lit {
        return None;
      }
      assert Rest()[..|lit|] == lit;
      pos := pos + |lit|;
      return Some(v);
    }

    /** The longest run of digits, converted as a whole. */
    method ReadDigits() returns (n: nat)
      requires pos < |data| && IsDigit(data[pos])
      modifies this
      ensures old(pos) < pos <= |data|
      ensures (n, Rest()) == DigitRun(old(Rest())[1..], old(Rest())[0] - 0x30)
    {
      ghost var t := Rest();
      var start := pos;
      assert t[1..] == data[pos + 1..];
      pos := pos + 1;
      DecimalOne(data[start..pos], data[start]);
      while pos < |data| && 0x30 <= data[pos] <= 0x39
        invariant start < pos <= |data|
        invariant forall k :: start <= k < pos ==> IsDigit(data[k])
        invariant DigitRun(Rest(), Decimal(data[start..pos])) == DigitRun(t[1..], t[0] - 0x30)
      {
        RunNext(data, start, pos);
        hide Decimal, DigitRun;
        pos := pos + 1;
      }
      n := Decimal(data[start..pos]);
    }

    method ReadNumber() returns (r: Option<Value>)
      requires pos <= |data|
      modifies this
      ensures Agrees(r, Number(old(Rest()), MAX_JSON_INT))
    {
      ghost var s := Rest();
      var neg := pos < |data| && data[pos] == 0x2D;
      hide DigitRun, Decimal;
      if neg {
        assert s[0] == 0x2D && s[1..] == data[pos + 1..];
        pos := pos + 1;
      }
      ghost var t := Rest();
      if pos >= |data| || !(0x30 <= data[pos] <= 0x39) {
        return None;
      }
      if data[pos] == 0x30 && pos + 1 < |data| && 0x30 <= data[pos + 1] <= 0x39 {
        assert t[1] == data[pos + 1];
        return None;
      }
      var n := ReadDigits();
      if pos < |data| && (data[pos] == 0x2E || data[pos] == 0x65 || data[pos] == 0x45) {
        return None;
      }
      if n > MAX_JSON_INT {
        return None;
      }
      return Some(Num(if neg then -(n as int) else n));
    }

    /** Four hexadecimal digits at the position. */
    method ReadHex4() returns (cp: Option<nat>)
      requires pos <= |data|
      modifies this
      ensures |old(Rest())| < 4 ==> cp == None
      ensures |old(Rest())| >= 4 ==> cp == Hex4(old(Rest())[..4]) && pos == old(pos) + 4 <= |data|
    {
      if pos + 4 > |data| {
        return None;
      }
      assert Rest()[..4] == data[pos..pos + 4];
      cp := Hex4(data[pos..pos + 4]);
      pos := pos + 4;
    }

    /** The escape after a backslash and a u. */
    method ReadUEscape() returns (r: Option<CodePoint>)
      requires pos <= |data|
      modifies this
      ensures Agrees(r, UEscape(old(Rest())))
    {
      ghost var s := Rest();
      var cp := ReadHex4();
      if cp.None? {
        return None;
      }
      assert Rest() == s[4..];
      if !(0xD800 <= cp.value <= 0xDBFF) {
        return Some(cp.value);
      }
      if pos + 2 > |data| || data[pos] != 0x5C || data[pos + 1] != 0x75 {
        return None;
      }
      pos := pos + 2;
      assert Rest() == s[6..];
      var low := ReadHex4();
      if low.None? {
        assert |s| >= 10 ==> s[6..][..4] == s[6..10];
        return None;
      }
      assert s[6..][..4] == s[6..10] && Rest() == s[10..];
      if !(0xDC00 <= low.value <= 0xDFFF) {
        return None;
      }
      return Some(Combine(cp.value, low.value));
    }

    /** One multi-byte character; the position moves by the length its first byte announces. */
    method ReadUtf8Char() returns (r: Option<CodePoint>)
      requires pos < |data| && data[pos] >= 0x80
      modifies this
      ensures match DecodeOne(old(Rest()))
              case Malformed => r == None
              case Decoded(c, rest) => r == Some(c) && pos <= |data| && Rest() == rest
    {
      var first := data[pos];
      var need: nat;
      if 0xC0 <= first <= 0xDF {
        need := 1;
      } else if 0xE0 <= first <= 0xEF {
        need := 2;
      } else if 0xF0 <= first <= 0xF7 {
        need := 3;
      } else {
        return None;
      }
      var end := if pos + 1 + need <= |data| then pos + 1 + need else |data|;
      var bytes := data[pos..end];
      ghost var s := Rest();
      assert forall k :: 0 <= k < |bytes| ==> bytes[k] == s[k];
      assert |s| >= 1 + need ==> s[1 + need..] == data[pos + 1 + need..];
      pos := pos + 1 + need;
      var d := DecodeOne(bytes);
      if d.Malformed? {
        return None;
      }
      return Some(d.c);
    }

    /** One character of a string that is not its closing quote. */
    method ReadChar() returns (r: Option<CodePoint>)
      requires pos < |data|
      modifies this
      ensures Agrees(r, StringChar(old(Rest())))
    {
      hide UEscape, Unescape, DecodeOne;
      var b := data[pos];
      ghost var s := Rest();
      assert s[0] == b;
      if b == 0x5C {
        if pos + 1 >= |data| {
          return None;
        }
        var e := data[pos + 1];
        pos := pos + 2;
        assert s[1] == e && Rest() == s[2..];
        if e == 0x75 {
          r := ReadUEscape();
        } else {
          r := Unescape(e);
        }
      } else if b < 0x20 {
        r := None;
      } else if b < 0x80 {
        AsciiChar(s);
        pos := pos + 1;
        assert Rest() == s[1..];
        r := Some(b);
      } else {
        r := ReadUtf8Char();
      }
    }

    method ReadString() returns (r: Option<Text>)
      requires pos < |data| && data[pos] == 0x22
      modifies this
      ensures Agrees(r, StringBody(old(Rest())[1..], []))
    {
      hide StringChar;
      ghost var goal := StringBody(Rest()[1..], []);
      var out: Text := [];
      assert Rest()[1..] == data[pos + 1..];
      pos := pos + 1;
      while pos < |data| && data[pos] != 0x22
        invariant pos <= |data|
        invariant StringBody(Rest(), out) == goal
        decreases |data| - pos
      {
        assert Rest()[0] == data[pos];
        var c := ReadChar();
        if c.None? {
          return None;
        }
        out := out + [c.value];
      }
      if pos >= |data| {
        return None;
      }
      assert Rest()[0] == 0x22 && Rest()[1..] == data[pos + 1..];
      pos := pos + 1;
      var ok := CheckScalars(out);
      r := if ok then Some(out) else None;
    }

    method CheckScalars(s: Text) returns (ok: bool)
      ensures ok == Scalars(s)
    {
      for i := 0 to |s|
        invariant Scalars(s[..i])
      {
        if 0xD800 <= s[i] <= 0xDFFF {
          return false;
        }
      }
      assert s[..|s|] == s;
      ok := true;
    }

    method ReadValue(depth: int) returns (r: Option<Value>)
      requires pos <= |data|
      modifies this
      decreases |data| - pos, 2
      ensures Agrees(r, ParseValue(old(Rest()), depth, WIRE))
    {
      if depth > MAX_DEPTH {
        return None;
      }
      var b := Peek();
      if b < 0 {
        return None;
      }
      if b == 0x7B {
        r := ReadObject(depth);
      } else if b == 0x5B {
        r := ReadArray(depth);
      } else if b == 0x22 {
        var s := ReadString();
        r := if s.None? then None else Some(Str(s.value));
      } else if b == 0x74 {
        r := Expect([0x74, 0x72, 0x75, 0x65], Bool(true));
      } else if b == 0x66 {
        r := Expect([0x66, 0x61, 0x6C, 0x73, 0x65], Bool(false));
      } else if b == 0x6E {
        r := Expect([0x6E, 0x75, 0x6C, 0x6C], Null);
      } else if b == 0x2D || 0x30 <= b <= 0x39 {
        r := ReadNumber();
      } else {
        r := None;
      }
    }

    method ReadArray(depth: int) returns (r: Option<Value>)
      requires pos < |data| && data[pos] == 0x5B && depth <= MAX_DEPTH
      modifies this
      decreases |data| - pos, 1
      ensures Agrees(r, ParseValue(old(Rest()), depth, WIRE))
    {
      ghost var goal := ParseValue(Rest(), depth, WIRE);
      ghost var start := pos;
      assert Rest()[1..] == data[pos + 1..];
      pos := pos + 1;
      Ws();
      if pos < |data| && data[pos] == 0x5D {
        assert Rest()[1..] == data[pos + 1..];
        pos := pos + 1;
        return Some(Arr([]));
      }
      r := ReadItems(depth);
    }

    /** The items up to the closing bracket. */
    method ReadItems(depth: int) returns (r: Option<Value>)
      requires pos <= |data|
      modifies this
      decreases |data| - pos, 3
      ensures Agrees(r, ParseItems(old(Rest()), depth, [], WIRE))
    {
      ghost var goal := ParseItems(Rest(), depth, [], WIRE);
      ghost var start := pos;
      var out: seq<Value> := [];
      hide ParseValue, SkipWs;
      while true
        invariant start <= pos <= |data|
        invariant ParseItems(Rest(), depth, out, WIRE) == goal
        decreases |data| - pos
      {
        Ws();
        var v := ReadValue(depth + 1);
        if v.None? {
          return None;
        }
        Ws();
        if pos >= |data| {
          return None;
        }
        var b := data[pos];
        assert Rest()[0] == b && Rest()[1..] == data[pos + 1..];
        pos := pos + 1;
        out := out + [v.value];
        if b == 0x5D {
          return Some(Arr(out));
        }
        if b != 0x2C {
          return None;
        }
      }
      assert false;
    }

    method ReadObject(depth: int) returns (r: Option<Value>)
      requires pos < |data| && data[pos] == 0x7B && depth <= MAX_DEPTH
      modifies this
      decreases |data| - pos, 1
      ensures Agrees(r, ParseValue(old(Rest()), depth, WIRE))
    {
      ghost var goal := ParseValue(Rest(), depth, WIRE);
      ghost var start := pos;
      assert Rest()[1..] == data[pos + 1..];
      pos := pos + 1;
      Ws();
      if pos < |data| && data[pos] == 0x7D {
        assert Rest()[1..] == data[pos + 1..];
        pos := pos + 1;
        return Some(Obj([]));
      }
      r := ReadMembers(depth);
    }

    /** The members up to the closing brace. */
    method ReadMembers(depth: int) returns (r: Option<Value>)
      requires pos <= |data|
      modifies this
      decreases |data| - pos, 3
      ensures Agrees(r, ParseMembers(old(Rest()), depth, [], WIRE))
    {
      ghost var goal := ParseMembers(Rest(), depth, [], WIRE);
      ghost var start := pos;
      var out: seq<Member> := [];
      hide ParseValue, ParseKey, HasKey, SkipWs;
      while true
        invariant start <= pos <= |data|
        invariant ParseMembers(Rest(), depth, out, WIRE) == goal
        decreases |data| - pos
      {
        var k := ReadKey();
        if k.None? {
          return None;
        }
        var v := ReadValue(depth + 1);
        if v.None? || HasKey(out, k.value) {
          return None;
        }
        out := out + [Member(k.value, v.value)];
        Ws();
        if pos >= |data| {
          return None;
        }
        var b := data[pos];
        assert Rest()[0] == b && Rest()[1..] == data[pos + 1..];
        pos := pos + 1;
        if b == 0x7D {
          return Some(Obj(out));
        }
        if b != 0x2C {
          return None;
        }
      }
      assert false;
    }

    /** White space, a key, its colon, and the white space before the value. */
    method ReadKey() returns (r: Option<Text>)
      requires pos <= |data|
      modifies this
      ensures Agrees(r, ParseKey(old(Rest())))
    {
      hide StringBody, SkipWs;
      Ws();
      if pos >= |data| || data[pos] != 0x22 {
        return None;
      }
      r := ReadString();
      if r.None? {
        return None;
      }
      Ws();
      if pos >= |data| || data[pos] != 0x3A {
        return None;
      }
      assert Rest()[1..] == data[pos + 1..];
      pos := pos + 1;
      Ws();
    }

    method ParseAll() returns (r: Option<Value>)
      requires pos == 0
      modifies this
      ensures r == ParseDocument(data, WIRE)
    {
      assert Rest() == data;
      Ws();
      r := ReadValue(0);
      if r.None? {
        return None;
      }
      Ws();
      if pos != |data| {
        return None;
      }
    }
  }

  /** `loads`: the strict decode of a whole document. */
  method LoadBytes(s: Bytes) returns (r: Option<Value>)
    ensures r == Loads(s)
  {
    if HasMark(s) || !ValidUtf8(s) {
      return None;
    }
    var p := new Parser(s);
    r := p.ParseAll();
  }
}
