/** The canonical printer: what it prints, and the object that appends it piece by piece. */
module JsonPrinter {
  import opened Types
  import opened Sequences
  import opened Unicode
  import opened Json

  // ---- pieces of text ----

  const QUOTE: CodePoint := 0x22
  const BACKSLASH: CodePoint := 0x5C
  const COMMA: CodePoint := 0x2C
  const COLON: CodePoint := 0x3A

  function Hex(d: int): CodePoint
    requires 0 <= d < 16
  {
    if d < 10 then 0x30 + d else 0x61 + d - 10
  }

  function EscapeOne(c: CodePoint): Text {
    if c == QUOTE then [BACKSLASH, QUOTE]
    else if c == BACKSLASH then [BACKSLASH, BACKSLASH]
    else if c == 0x08 then [BACKSLASH, 0x62]
    else if c == 0x0C then [BACKSLASH, 0x66]
    else if c == 0x0A then [BACKSLASH, 0x6E]
    else if c == 0x0D then [BACKSLASH, 0x72]
    else if c == 0x09 then [BACKSLASH, 0x74]
    else if c < 0x20 then [BACKSLASH, 0x75, 0x30, 0x30, Hex(c / 16), Hex(c % 16)]
    else [c]
  }

  function Escape(s: Text): Text {
    if s == [] then [] else EscapeOne(s[0]) + Escape(s[1..])
  }

  function Quote(s: Text): Text { [QUOTE] + Escape(s) + [QUOTE] }

  function IntText(n: int): Text {
    if n < 0 then [0x2D] + Digits(-n) else Digits(n)
  }

  /** Pieces separated by commas. */
  function Join(pieces: seq<Text>): Text {
    if pieces == [] then []
    else if |pieces| == 1 then pieces[0]
    else pieces[0] + [COMMA] + Join(pieces[1..])
  }

  lemma {:induction false} JoinSnoc(pieces: seq<Text>, x: Text)
    ensures Join(pieces + [x]) == (if pieces == [] then x else Join(pieces) + [COMMA] + x)
  {
    if |pieces| > 1 {
      JoinSnoc(pieces[1..], x);
      assert (pieces + [x])[1..] == pieces[1..] + [x];
    } else if |pieces| == 1 {
      assert (pieces + [x])[1..] == [x];
    }
  }

  // ---- a value printed as it stands ----

  function Plain(v: Value): Text {
    match v
    case Null => [0x6E, 0x75, 0x6C, 0x6C]
    case Bool(true) => [0x74, 0x72, 0x75, 0x65]
    case Bool(false) => [0x66, 0x61, 0x6C, 0x73, 0x65]
    case Num(n) => IntText(n)
    case Str(s) => Quote(s)
    case Arr(items) => [0x5B] + Join(PlainItems(items)) + [0x5D]
    case Obj(ms) => [0x7B] + Join(PlainMembers(ms)) + [0x7D]
  }

  function PlainItems(items: seq<Value>): (r: seq<Text>)
    ensures |r| == |items| && forall i :: 0 <= i < |items| ==> r[i] == Plain(items[i])
  {
    seq(|items|, i requires 0 <= i < |items| => Plain(items[i]))
  }

  function PlainMembers(ms: seq<Member>): (r: seq<Text>)
    ensures |r| == |ms| && forall i :: 0 <= i < |ms| ==> r[i] == Quote(ms[i].key) + [COLON] + Plain(ms[i].value)
  {
    seq(|ms|, i requires 0 <= i < |ms| => Quote(ms[i].key) + [COLON] + Plain(ms[i].value))
  }

  /** The canonical text of a value: every object's members in key order. */
  function Print(v: Value): Text { Plain(Canon(v)) }

  /** `dumps`: the canonical text in UTF-8, or an error if some string cannot be encoded. */
  ghost function Dumps(v: Value): Result<Bytes, Code> {
    if Encodable(v) then Ok(Utf8(Print(v))) else Err(INVALID_INPUT)
  }

  // ---- the printer ----

  lemma {:induction false} InsertCanon(m: Member, ms: seq<Member>)
    ensures CanonMembers(Insert(m, ms)) == Insert(Member(m.key, Canon(m.value)), CanonMembers(ms))
  {
    if ms != [] && !KeyLess(m.key, ms[0].key) {
      InsertCanon(m, ms[1..]);
      assert CanonMembers(ms)[1..] == CanonMembers(ms[1..]);
    }
  }

  /** Sorting looks at keys only, so it may come before the values are made canonical. */
  lemma {:induction false} SortCanon(ms: seq<Member>)
    ensures CanonMembers(Sort(ms)) == Sort(CanonMembers(ms))
  {
    if ms != [] {
      var n := |ms| - 1;
      SortCanon(ms[..n]);
      InsertCanon(ms[n], Sort(ms[..n]));
      assert CanonMembers(ms)[..n] == CanonMembers(ms[..n]);
    }
  }

  lemma {:induction false} EscapeSnoc(s: Text, c: CodePoint)
    ensures Escape(s + [c]) == Escape(s) + EscapeOne(c)
  {
    hide EscapeOne;
    if s == [] {
      assert Escape([c]) == EscapeOne(c) + Escape([]);
    } else {
      EscapeSnoc(s[1..], c);
      assert (s + [c])[1..] == s[1..] + [c];
    }
  }

  /** What is printed between the brackets of an array or object after the first `i` entries. */
  lemma JoinNext(pieces: seq<Text>, i: nat)
    requires i < |pieces|
    ensures Join(pieces[..i + 1]) == Join(pieces[..i]) + (if i == 0 then [] else [COMMA]) + pieces[i]
  {
    JoinSnoc(pieces[..i], pieces[i]);
    assert pieces[..i + 1] == pieces[..i] + [pieces[i]];
  }

  lemma PrintArray(items: seq<Value>)
    ensures Print(Arr(items)) == [0x5B] + Join(seq(|items|, i requires 0 <= i < |items| => Print(items[i]))) + [0x5D]
  {
    var c := Canon(Arr(items)).items;
    assert PlainItems(c) == seq(|items|, i requires 0 <= i < |items| => Print(items[i]));
  }

  lemma PrintObject(ms: seq<Member>)
    ensures var ns := Sort(ms);
            Print(Obj(ms)) == [0x7B] + Join(seq(|ns|, i requires 0 <= i < |ns| =>
                                                Quote(ns[i].key) + [COLON] + Print(ns[i].value))) + [0x7D]
  {
    var ns := Sort(ms);
    SortCanon(ms);
    assert Canon(Obj(ms)) == Obj(CanonMembers(ns));
    assert PlainMembers(CanonMembers(ns))
        == seq(|ns|, i requires 0 <= i < |ns| => Quote(ns[i].key) + [COLON] + Print(ns[i].value));
  }

  lemma Refused(ms: seq<Member>, m: Member)
    requires m in ms && (!Scalars(m.key) || !Encodable(m.value))
    ensures !Encodable(Obj(ms))
  {
  }

  class Printer {
    var out: Text

    constructor ()
      ensures out == []
    {
      out := [];
    }

    /** One character of a string, or false for a surrogate. */
    method EscapeChar(c: CodePoint) returns (ok: bool)
      modifies this
      ensures ok <==> !IsSurrogate(c)
      ensures ok ==> out == old(out) + EscapeOne(c)
    {
      ok := true;
      if c == 0x22 {
        out := out + [BACKSLASH, QUOTE];
      } else if c == 0x5C {
        out := out + [BACKSLASH, BACKSLASH];
      } else if c == 0x08 {
        out := out + [BACKSLASH, 0x62];
      } else if c == 0x0C {
        out := out + [BACKSLASH, 0x66];
      } else if c == 0x0A {
        out := out + [BACKSLASH, 0x6E];
      } else if c == 0x0D {
        out := out + [BACKSLASH, 0x72];
      } else if c == 0x09 {
        out := out + [BACKSLASH, 0x74];
      } else if c < 0x20 {
        out := out + [BACKSLASH, 0x75, 0x30, 0x30, Hex(c / 16), Hex(c % 16)];
      } else if 0xD800 <= c <= 0xDFFF {
        ok := false;
      } else {
        out := out + [c];
      }
    }

    /** `_escape_string`: a quoted string, or false at the first surrogate. */
    method EscapeString(s: Text) returns (ok: bool)
      modifies this
      ensures ok <==> Scalars(s)
      ensures ok ==> out == old(out) + Quote(s)
    {
      out := out + [QUOTE];
      ghost var start := out;
      assert Escape(s[..0]) == [];
      for i := 0 to |s|
        invariant Scalars(s[..i])
        invariant out == start + Escape(s[..i])
      {
        var c := s[i];
        EscapeSnoc(s[..i], c);
        assert s[..i + 1] == s[..i] + [c];
        Regroup(start, Escape(s[..i]), EscapeOne(c));
        hide Escape, EscapeOne;
        ok := EscapeChar(c);
        if !ok {
          return;
        }
      }
      assert s[..|s|] == s;
      out := out + [QUOTE];
      RegroupFour(old(out), [QUOTE], Escape(s), [QUOTE]);
      ok := true;
    }

    /** `_write`: the value's canonical text is appended, or false if some string cannot be encoded. */
    method Write(v: Value) returns (ok: bool)
      modifies this
      decreases v
      ensures ok <==> Encodable(v)
      ensures ok ==> out == old(out) + Print(v)
    {
      match v
      case Null =>
        out := out + [0x6E, 0x75, 0x6C, 0x6C];
        ok := true;
      case Bool(b) =>
        out := out + if b then [0x74, 0x72, 0x75, 0x65] else [0x66, 0x61, 0x6C, 0x73, 0x65];
        ok := true;
      case Num(n) =>
        out := out + IntText(n);
        ok := true;
      case Str(s) =>
        ok := EscapeString(s);
      case Arr(items) =>
        ok := WriteArray(v, items);
      case Obj(ms) =>
        ok := WriteObject(v, ms);
    }

    method WriteArray(v: Value, items: seq<Value>) returns (ok: bool)
      requires v == Arr(items)
      modifies this
      decreases v, 0
      ensures ok <==> Encodable(v)
      ensures ok ==> out == old(out) + Print(v)
    {
      PrintArray(items);
      hide Print;
      ghost var pieces := seq(|items|, i requires 0 <= i < |items| => Print(items[i]));
      out := out + [0x5B];
      ghost var start := out;
      assert Join(pieces[..0]) == [];
      for i := 0 to |items|
        invariant forall k :: 0 <= k < i ==> Encodable(items[k])
        invariant out == start + Join(pieces[..i])
      {
        JoinNext(pieces, i);
        hide Encodable, Join;
        if i > 0 {
          out := out + [COMMA];
        }
        var good := Write(items[i]);
        if !good {
          return false;
        }
        RegroupFour(start, Join(pieces[..i]), if i == 0 then [] else [COMMA], pieces[i]);
      }
      assert pieces[..|items|] == pieces;
      out := out + [0x5D];
      RegroupFour(old(out), [0x5B], Join(pieces), [0x5D]);
      ok := true;
    }

    method WriteObject(v: Value, ms: seq<Member>) returns (ok: bool)
      requires v == Obj(ms)
      modifies this
      decreases v, 0
      ensures ok <==> Encodable(v)
      ensures ok ==> out == old(out) + Print(v)
    {
      PrintObject(ms);
      SortKeeps(ms);
      var ns := Sort(ms);
      hide Print, Sort, Quote;
      ghost var pieces := seq(|ns|, i requires 0 <= i < |ns| => Quote(ns[i].key) + [COLON] + Print(ns[i].value));
      out := out + [0x7B];
      ghost var start := out;
      assert Join(pieces[..0]) == [];
      for i := 0 to |ns|
        invariant forall k :: 0 <= k < i ==> Scalars(ns[k].key) && Encodable(ns[k].value)
        invariant out == start + Join(pieces[..i])
      {
        JoinNext(pieces, i);
        assert ns[i] in ms;
        hide Encodable, Join, Scalars;
        if i > 0 {
          out := out + [COMMA];
        }
        ghost var before := out;
        var good := EscapeString(ns[i].key);
        if !good {
          Refused(ms, ns[i]);
          return false;
        }
        out := out + [COLON];
        good := Write(ns[i].value);
        if !good {
          Refused(ms, ns[i]);
          return false;
        }
        RegroupFour(before, Quote(ns[i].key), [COLON], Print(ns[i].value));
        RegroupFour(start, Join(pieces[..i]), if i == 0 then [] else [COMMA], pieces[i]);
      }
      assert pieces[..|ns|] == pieces;
      forall k | 0 <= k < |ms| ensures Scalars(ms[k].key) && Encodable(ms[k].value) {
        assert ms[k] in ns;
      }
      out := out + [0x7D];
      RegroupFour(old(out), [0x7B], Join(pieces), [0x7D]);
      ok := true;
    }
  }

  /** `dumps`: write, then encode all at once. */
  method DumpBytes(v: Value) returns (r: Result<Bytes, Code>)
    ensures r == Dumps(v)
  {
    var p := new Printer();
    var ok := p.Write(v);
    if !ok {
      return Err(INVALID_INPUT);
    }
    assert p.out == Print(v);
    return Ok(Utf8(p.out));
  }
}
