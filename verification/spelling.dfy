/** Which of the texts the parser accepts are canonical: a condition on the text itself, read from left to
    right, and the order of the keys. */
module Spelling {
  import opened Types
  import opened Sequences
  import opened Unicode
  import opened Json
  import opened JsonPrinter
  import opened JsonParser
  import opened JsonRoundTrip
  import opened Canonical

  // ---- the condition ----

  predicate IsLowerHex(b: Byte) {
    0x30 <= b <= 0x39 || 0x61 <= b <= 0x66
  }

  /** An escape as the printer spells it: a short one (but not for the slash), or the code of a control
      character that has no short one, in lower case. */
  predicate SpelledEscape(s: Bytes) {
    |s| >= 2
    && (s[1] in {0x22, 0x5C, 0x62, 0x66, 0x6E, 0x72, 0x74}
        || (&& |s| >= 6 && s[1] == 0x75 && s[2] == 0x30 && s[3] == 0x30
            && (s[4] == 0x30 || s[4] == 0x31) && IsLowerHex(s[5])
            && !(s[4] == 0x30 && s[5] in {0x38, 0x39, 0x61, 0x63, 0x64})))
  }

  /** No white space and no negative zero outside strings, no escape inside them but those of the printer. */
  predicate Tidy(s: Bytes, inString: bool)
    decreases |s|
  {
    if s == [] then true
    else if !inString then
      !IsSpace(s[0]) && !(s[0] == 0x2D && |s| > 1 && s[1] == 0x30) && Tidy(s[1..], s[0] == QUOTE)
    else if s[0] == QUOTE then Tidy(s[1..], false)
    else
      match StringChar(s)
      case Fail => false
      case Done(_, rest) => (s[0] == BACKSLASH ==> SpelledEscape(s)) && Tidy(rest, true)
  }

  /** In every object the keys stand in the printer's order, as they do in the text the value was read from. */
  ghost predicate SortedKeys(v: Value) {
    match v
    case Arr(items) => forall i :: 0 <= i < |items| ==> SortedKeys(items[i])
    case Obj(ms) => StrictlySorted(ms) && forall i :: 0 <= i < |ms| ==> SortedKeys(ms[i].value)
    case _ => true
  }

  // ---- tidy text is what the printer spells ----

  /** Strict decoding takes only the shortest form. */
  lemma EncodeDecodedOne(s: Bytes)
    requires DecodeOne(s).Decoded?
    ensures s == Utf8One(DecodeOne(s).c) + DecodeOne(s).rest
    ensures s[0] < 0x80 ==> DecodeOne(s).c == s[0]
    ensures s[0] >= 0x80 ==> DecodeOne(s).c >= 0x80
  {
    var c := DecodeOne(s).c;
    if s[0] < 0x80 {
    } else if s[0] <= 0xDF {
      Two(c, s[0] - 0xC0, s[1] - 0x80);
      assert s == [s[0], s[1]] + s[2..];
    } else if s[0] <= 0xEF {
      Three(c, s[0] - 0xE0, s[1] - 0x80, s[2] - 0x80);
      assert s == [s[0], s[1], s[2]] + s[3..];
    } else {
      Four(c, s[0] - 0xF0, s[1] - 0x80, s[2] - 0x80, s[3] - 0x80);
      assert s == [s[0], s[1], s[2], s[3]] + s[4..];
    }
  }

  lemma Two(c: int, a: int, b: int)
    requires c == a * 64 + b && 0 <= a && 0 <= b < 64
    ensures c / 64 == a && c % 64 == b
  {
  }

  lemma Three(c: int, a: int, b: int, d: int)
    requires c == a * 4096 + b * 64 + d && 0 <= a && 0 <= b < 64 && 0 <= d < 64
    ensures c / 4096 == a && c / 64 % 64 == b && c % 64 == d
  {
    Two(c, a * 64 + b, d);
    Two(c / 64, a, b);
    Sextets(c);
  }

  lemma Four(c: int, a: int, b: int, d: int, e: int)
    requires c == a * 262144 + b * 4096 + d * 64 + e && 0 <= a && 0 <= b < 64 && 0 <= d < 64 && 0 <= e < 64
    ensures c / 262144 == a && c / 4096 % 64 == b && c / 64 % 64 == d && c % 64 == e
  {
    Two(c, a * 4096 + b * 64 + d, e);
    Three(c / 64, a, b, d);
    Sextets(c);
    Sextets(c / 64);
  }

  /** A tidy character is spelled as the printer spells it. */
  lemma CharSpelled(s: Bytes)
    requires s != [] && s[0] != QUOTE && StringChar(s).Done? && (s[0] == BACKSLASH ==> SpelledEscape(s))
    ensures s == Utf8(EscapeOne(StringChar(s).value)) + StringChar(s).rest
  {
    if s[0] != BACKSLASH {
      RawSpelled(s);
    } else {
      hide Utf8;
      AsciiIsItself(EscapeOne(StringChar(s).value));
      if s[1] == 0x75 {
        CodeSpelled(s);
      } else {
        ShortSpelled(s);
      }
    }
  }

  lemma RawSpelled(s: Bytes)
    requires s != [] && s[0] != QUOTE && s[0] != BACKSLASH && StringChar(s).Done?
    ensures s == Utf8(EscapeOne(StringChar(s).value)) + StringChar(s).rest
  {
    RawChar(s);
    EncodeDecodedOne(s);
    var c := DecodeOne(s).c;
    hide DecodeOne, Utf8One, StringChar, EscapeOne;
    assert Utf8([c]) == Utf8One(c) + Utf8([]);
  }

  /** A character that is not escaped is read and printed as it is. */
  lemma RawChar(s: Bytes)
    requires s != [] && s[0] != QUOTE && s[0] != BACKSLASH && StringChar(s).Done?
    ensures DecodeOne(s).Decoded? && StringChar(s) == Done(DecodeOne(s).c, DecodeOne(s).rest)
    ensures EscapeOne(DecodeOne(s).c) == [DecodeOne(s).c]
  {
    EncodeDecodedOne(s);
    hide DecodeOne, Utf8One;
  }

  lemma ShortSpelled(s: Bytes)
    requires s != [] && s[0] == BACKSLASH && SpelledEscape(s) && s[1] != 0x75
    ensures StringChar(s).Done? && s == EscapeOne(StringChar(s).value) + StringChar(s).rest
  {
    assert s == [s[0], s[1]] + s[2..];
  }

  lemma CodeSpelled(s: Bytes)
    requires s != [] && s[0] == BACKSLASH && SpelledEscape(s) && s[1] == 0x75
    ensures StringChar(s).Done? && s == EscapeOne(StringChar(s).value) + StringChar(s).rest
    ensures StringChar(s).value < 0x20
  {
    var u := s[2..];
    assert u[..4] == [s[2], s[3], s[4], s[5]] && u[4..] == s[6..];
    var low := HexValue(s[5]).value;
    assert Hex4(u[..4]) == Some((s[4] - 0x30) * 16 + low);
    assert Hex(low) == s[5];
    assert s == [s[0], s[1], s[2], s[3], s[4], s[5]] + s[6..];
  }

  lemma TidyNext(s: Bytes)
    requires s != [] && s[0] != QUOTE && Tidy(s, true)
    ensures StringChar(s).Done? && (s[0] == BACKSLASH ==> SpelledEscape(s)) && Tidy(StringChar(s).rest, true)
  {
  }

  lemma {:induction false} BodySpelled(s: Bytes, acc: Text) returns (k: Text)
    requires StringBody(s, acc).Done? && Tidy(s, true)
    ensures StringBody(s, acc).value == acc + k
    ensures s == Utf8(Escape(k)) + [QUOTE] + StringBody(s, acc).rest && Tidy(StringBody(s, acc).rest, false)
    decreases |s|
  {
    if s[0] == QUOTE {
      k := [];
      assert s == [QUOTE] + s[1..] && acc + [] == acc;
    } else {
      assert s != [];
      hide StringBody, StringChar, Tidy, EscapeOne, SpelledEscape, Utf8;
      TidyNext(s);
      BodyNext(s, acc);
      CharSpelled(s);
      var c, rest := StringChar(s).value, StringChar(s).rest;
      var more := BodySpelled(rest, acc + [c]);
      k := [c] + more;
      EscapeFirst(c, more);
      hide Escape;
      RegroupFour(Utf8(EscapeOne(c)), Utf8(Escape(more)), [QUOTE], StringBody(rest, acc + [c]).rest);
      Regroup(acc, [c], more);
    }
  }

  lemma EscapeFirst(c: CodePoint, more: Text)
    ensures Utf8(Escape([c] + more)) == Utf8(EscapeOne(c)) + Utf8(Escape(more))
  {
    assert ([c] + more)[1..] == more;
    Utf8Append(EscapeOne(c), Escape(more));
  }

  // ---- numbers ----

  /** The digits a run consumes are those of the number it yields. */
  lemma {:induction false} RunSpelled(s: Bytes, acc: nat)
    requires acc > 0
    ensures Digits(DigitRun(s, acc).0) + DigitRun(s, acc).1 == Digits(acc) + s
    ensures DigitRun(s, acc).0 > 0
    decreases |s|
  {
    if s != [] && IsDigit(s[0]) {
      var next := acc * 10 + (s[0] - 0x30);
      RunSpelled(s[1..], next);
      assert Digits(next) == Digits(acc) + [s[0]];
      assert s == [s[0]] + s[1..];
      Regroup(Digits(acc), [s[0]], s[1..]);
    }
  }

  lemma DigitsSpelled(t: Bytes)
    requires t != [] && IsDigit(t[0]) && !(t[0] == 0x30 && |t| > 1 && IsDigit(t[1]))
    ensures var (n, u) := DigitRun(t[1..], t[0] - 0x30); t == Digits(n) + u && (n == 0 ==> t[0] == 0x30)
  {
    if t[0] == 0x30 {
      assert t == [0x30] + t[1..];
    } else {
      RunSpelled(t[1..], t[0] - 0x30);
      assert t == [t[0]] + t[1..];
    }
  }

  lemma NumberSpelled(s: Bytes, limit: nat)
    requires Number(s, limit).Done? && Tidy(s, false)
    ensures s == IntText(Number(s, limit).value.n) + Number(s, limit).rest
  {
    hide DigitRun, Tidy, Digits;
    if s[0] == 0x2D {
      var t := s[1..];
      NoNegativeZero(s);
      DigitsSpelled(t);
      Regroup([0x2D], Digits(DigitRun(t[1..], t[0] - 0x30).0), DigitRun(t[1..], t[0] - 0x30).1);
      assert s == [0x2D] + t;
    } else {
      DigitsSpelled(s);
    }
  }

  lemma NoNegativeZero(s: Bytes)
    requires |s| > 1 && s[0] == 0x2D && Tidy(s, false)
    ensures s[1] != 0x30
  {
  }

  /** A sign before a number that does not begin with a zero. */
  lemma TidyMinus(d: Bytes)
    requires d != [] && d[0] != 0x30
    ensures Tidy([0x2D] + d, false) <==> Tidy(d, false)
  {
    assert ([0x2D] + d)[1..] == d;
  }

  /** Text with neither quotes, white space nor signs can be skipped. */
  lemma {:induction false} TidySkips(p: Bytes, t: Bytes)
    requires forall i :: 0 <= i < |p| ==> !IsSpace(p[i]) && p[i] != QUOTE && p[i] != 0x2D
    ensures Tidy(p + t, false) <==> Tidy(t, false)
  {
    if p == [] {
      assert p + t == t;
    } else {
      assert (p + t)[1..] == p[1..] + t;
      TidySkips(p[1..], t);
    }
  }

  lemma TidyNumber(n: int, t: Bytes)
    ensures Tidy(IntText(n) + t, false) <==> Tidy(t, false)
  {
    hide Tidy, Digits;
    var m: nat := if n < 0 then -n else n;
    TidySkips(Digits(m), t);
    FirstDigit(m);
    if n < 0 {
      TidyMinus(Digits(m) + t);
      Regroup([0x2D], Digits(m), t);
    }
  }

  // ---- values ----

  /** Outside strings, tidy text has nothing to skip, and its tail is tidy too. */
  lemma TidyStep(s: Bytes)
    requires Tidy(s, false)
    ensures SkipWs(s) == s
    ensures s != [] ==> Tidy(s[1..], s[0] == QUOTE)
    ensures s != [] ==> s == [s[0]] + s[1..]
  {
  }

  lemma QuoteBytes(k: Text, t: Bytes)
    ensures Utf8(Quote(k)) + t == [QUOTE] + (Utf8(Escape(k)) + [QUOTE] + t)
  {
    Utf8Append([QUOTE] + Escape(k), [QUOTE]);
    Utf8Append([QUOTE], Escape(k));
    AsciiIsItself([QUOTE]);
    hide Utf8, Escape;
    RegroupFour([QUOTE], Utf8(Escape(k)), [QUOTE], t);
  }

  lemma StringSpelled(s: Bytes)
    requires s != [] && s[0] == QUOTE && Tidy(s, false) && StringBody(s[1..], []).Done?
    ensures var p := StringBody(s[1..], []);
            s == Utf8(Quote(p.value)) + p.rest && Tidy(p.rest, false)
  {
    TidyStep(s);
    var k := BodySpelled(s[1..], []);
    hide StringBody, Tidy, Escape, Utf8, Quote;
    assert [] + k == k;
    QuoteBytes(k, StringBody(s[1..], []).rest);
  }

  /** Tidy text that was read as a value is that value's text. */
  ghost predicate Spelled(s: Bytes, v: Value, rest: Bytes) {
    s == Utf8(Plain(v)) + rest && Tidy(rest, false)
  }

  lemma LiteralSpelled(s: Bytes, lit: Bytes, v: Value)
    requires lit != [] && Literal(s, lit, v).Done? && Tidy(s, false) && Plain(v) == lit
    requires forall i :: 0 <= i < |lit| ==> lit[i] < 0x80 && !IsSpace(lit[i]) && lit[i] != QUOTE && lit[i] != 0x2D
    ensures Spelled(s, v, Literal(s, lit, v).rest)
  {
    AsciiIsItself(lit);
    hide Utf8, Plain, Tidy;
    assert s == lit + s[|lit|..];
    TidySkips(lit, s[|lit|..]);
  }

  /** Values that are neither lists nor objects. */
  lemma ScalarSpelled(s: Bytes, depth: int, lim: Limits)
    requires ParseValue(s, depth, lim).Done? && Tidy(s, false) && s[0] != 0x7B && s[0] != 0x5B
    ensures Spelled(s, ParseValue(s, depth, lim).value, ParseValue(s, depth, lim).rest)
  {
    if s[0] == 0x22 {
      hide Tidy, Utf8, Quote, StringBody;
      StringSpelled(s);
    } else if s[0] == 0x74 {
      LiteralSpelled(s, [0x74, 0x72, 0x75, 0x65], Bool(true));
    } else if s[0] == 0x66 {
      LiteralSpelled(s, [0x66, 0x61, 0x6C, 0x73, 0x65], Bool(false));
    } else if s[0] == 0x6E {
      LiteralSpelled(s, [0x6E, 0x75, 0x6C, 0x6C], Null);
    } else {
      hide Tidy, Number, IntText;
      NumberSpelled(s, lim.number);
      var p := Number(s, lim.number);
      NumberText(s, lim.number);
      AsciiIsItself(IntText(p.value.n));
      TidyNumber(p.value.n, p.rest);
    }
  }

  lemma NumberText(s: Bytes, limit: nat)
    requires Number(s, limit).Done?
    ensures Number(s, limit).value.Num?
    ensures forall i :: 0 <= i < |IntText(Number(s, limit).value.n)| ==> IntText(Number(s, limit).value.n)[i] < 0x80
  {
  }

  lemma {:induction false} ValueSpelled(s: Bytes, depth: int, lim: Limits)
    requires ParseValue(s, depth, lim).Done? && Tidy(s, false)
    ensures Spelled(s, ParseValue(s, depth, lim).value, ParseValue(s, depth, lim).rest)
    decreases |s|, 1
  {
    if s[0] == 0x5B {
      ListSpelled(s, depth, lim);
    } else if s[0] == 0x7B {
      ObjectSpelled(s, depth, lim);
    } else {
      ScalarSpelled(s, depth, lim);
    }
  }

  lemma {:induction false} ListSpelled(s: Bytes, depth: int, lim: Limits)
    requires ParseValue(s, depth, lim).Done? && Tidy(s, false) && s[0] == 0x5B
    ensures Spelled(s, ParseValue(s, depth, lim).value, ParseValue(s, depth, lim).rest)
    decreases |s|, 0
  {
    TidyStep(s);
    var x, p := s[1..], ParseValue(s, depth, lim);
    TidyStep(x);
    assert x != [];
    OpenArray(x, depth, lim);
    hide ParseValue, Tidy, Utf8, Join;
    var items: seq<Value> := [];
    if x[0] != 0x5D {
      items := ItemsSpelled(x, depth, [], lim);
      assert [] + items == items;
    } else {
      NothingInside(0x5D, p.rest);
      TidyStep(x);
    }
    assert PlainItems([]) == [];
    Bracketed(0x5B, PlainItems(items), 0x5D, p.rest);
  }

  lemma {:induction false} ObjectSpelled(s: Bytes, depth: int, lim: Limits)
    requires ParseValue(s, depth, lim).Done? && Tidy(s, false) && s[0] == 0x7B
    ensures Spelled(s, ParseValue(s, depth, lim).value, ParseValue(s, depth, lim).rest)
    decreases |s|, 0
  {
    TidyStep(s);
    var x, p := s[1..], ParseValue(s, depth, lim);
    TidyStep(x);
    assert x != [];
    OpenObject(x, depth, lim);
    hide ParseValue, Tidy, Utf8, Join;
    var ms: seq<Member> := [];
    if x[0] != 0x7D {
      ms := MembersSpelled(x, depth, [], lim);
      assert [] + ms == ms;
    } else {
      NothingInside(0x7D, p.rest);
      TidyStep(x);
    }
    assert PlainMembers([]) == [];
    Bracketed(0x7B, PlainMembers(ms), 0x7D, p.rest);
  }

  /** One piece before a separator or the closing bracket. */
  lemma InsideOne(piece: Text, close: Byte, t: Bytes)
    ensures Inside([piece], close, t) == Utf8(piece) + ([close] + t)
  {
    InsideSplit([piece], close, t);
  }

  lemma InsideMore(piece: Text, pieces: seq<Text>, close: Byte, t: Bytes)
    requires pieces != []
    ensures Inside([piece] + pieces, close, t) == Utf8(piece) + ([COMMA] + Inside(pieces, close, t))
  {
    InsideSplit([piece] + pieces, close, t);
    assert ([piece] + pieces)[1..] == pieces;
  }

  lemma {:induction false} ItemsSpelled(s: Bytes, depth: int, acc: seq<Value>, lim: Limits) returns (items: seq<Value>)
    requires ParseItems(s, depth, acc, lim).Done? && Tidy(s, false)
    ensures ParseItems(s, depth, acc, lim).value == Arr(acc + items) && items != []
    ensures s == Inside(PlainItems(items), 0x5D, ParseItems(s, depth, acc, lim).rest)
    ensures Tidy(ParseItems(s, depth, acc, lim).rest, false)
    decreases |s|, 2
  {
    hide Tidy, ParseValue, Utf8, Plain, Inside, SkipWs;
    TidyStep(s);
    var p := ParseValue(s, depth + 1, lim);
    ValueSpelled(s, depth + 1, lim);
    var v, t := p.value, p.rest;
    TidyStep(t);
    var r := ParseItems(s, depth, acc, lim).rest;
    if t[0] == 0x5D {
      items := [v];
      InsideOne(Plain(v), 0x5D, r);
      assert PlainItems(items) == [Plain(v)];
    } else {
      hide ParseItems;
      var more := ItemsSpelled(t[1..], depth, acc + [v], lim);
      items := [v] + more;
      InsideMore(Plain(v), PlainItems(more), 0x5D, r);
      assert PlainItems(items) == [Plain(v)] + PlainItems(more);
      Regroup(acc, [v], more);
    }
  }

  lemma KeySpelled(s: Bytes)
    requires ParseKey(s).Done? && Tidy(s, false)
    ensures s == Utf8(Quote(ParseKey(s).value)) + ([COLON] + ParseKey(s).rest)
    ensures Tidy(ParseKey(s).rest, false)
  {
    hide Tidy, Utf8, Quote, StringBody, SkipWs;
    TidyStep(s);
    StringSpelled(s);
    var rest := StringBody(s[1..], []).rest;
    TidyStep(rest);
    TidyStep(rest[1..]);
  }

  lemma {:induction false} MembersSpelled(s: Bytes, depth: int, acc: seq<Member>, lim: Limits) returns (ms: seq<Member>)
    requires ParseMembers(s, depth, acc, lim).Done? && Tidy(s, false)
    ensures ParseMembers(s, depth, acc, lim).value == Obj(acc + ms) && ms != []
    ensures s == Inside(PlainMembers(ms), 0x7D, ParseMembers(s, depth, acc, lim).rest)
    ensures Tidy(ParseMembers(s, depth, acc, lim).rest, false)
    decreases |s|, 2
  {
    hide Tidy, ParseValue, ParseKey, Utf8, Plain, Quote, Inside, SkipWs, HasKey;
    KeySpelled(s);
    var key := ParseKey(s);
    var p := ParseValue(key.rest, depth + 1, lim);
    ValueSpelled(key.rest, depth + 1, lim);
    var m, t := Member(key.value, p.value), p.rest;
    TidyStep(t);
    MemberBytes(key.value, p.value, t);
    var piece := Quote(m.key) + [COLON] + Plain(m.value);
    var r := ParseMembers(s, depth, acc, lim).rest;
    if t[0] == 0x7D {
      ms := [m];
      InsideOne(piece, 0x7D, r);
      assert PlainMembers(ms) == [piece];
    } else {
      hide ParseMembers;
      var more := MembersSpelled(t[1..], depth, acc + [m], lim);
      ms := [m] + more;
      InsideMore(piece, PlainMembers(more), 0x7D, r);
      assert PlainMembers(ms) == [piece] + PlainMembers(more);
      Regroup(acc, [m], more);
    }
  }

  // ---- what the printer writes is tidy ----

  /** Text that leaves what follows it as tidy as it is. */
  ghost predicate KeepsTidy(p: Text) {
    forall u: Bytes :: Tidy(u, false) ==> Tidy(Utf8(p) + u, false)
  }

  lemma BothKeep(a: Text, b: Text)
    requires KeepsTidy(a) && KeepsTidy(b)
    ensures KeepsTidy(a + b)
  {
    hide Tidy, Utf8;
    Utf8Append(a, b);
    forall u: Bytes | Tidy(u, false) ensures Tidy(Utf8(a + b) + u, false) {
      assert Utf8(a + b) + u == Utf8(a) + (Utf8(b) + u);
    }
  }

  lemma AsciiKeeps(p: Text)
    requires forall i :: 0 <= i < |p| ==> p[i] < 0x80 && !IsSpace(p[i]) && p[i] != QUOTE && p[i] != 0x2D
    ensures KeepsTidy(p)
  {
    AsciiIsItself(p);
    hide Utf8, Tidy;
    forall u: Bytes | Tidy(u, false) ensures Tidy(Utf8(p) + u, false) {
      TidySkips(p, u);
    }
  }

  lemma NumberKeeps(n: int)
    ensures KeepsTidy(IntText(n))
  {
    AsciiIsItself(IntText(n));
    hide Utf8, Tidy, IntText;
    forall u: Bytes | Tidy(u, false) ensures Tidy(Utf8(IntText(n)) + u, false) {
      TidyNumber(n, u);
    }
  }

  lemma EscapeSpelled(c: CodePoint, u: Bytes)
    requires !IsSurrogate(c)
    ensures var s := Utf8(EscapeOne(c)) + u; s[0] == BACKSLASH ==> SpelledEscape(s)
  {
    var e := EscapeOne(c);
    if e == [c] {
      assert Utf8(e) == Utf8One(c) + Utf8([]) && Utf8(e) == Utf8One(c);
      assert (Utf8(e) + u)[0] == Utf8One(c)[0];
    } else {
      AsciiIsItself(e);
      hide Utf8;
      assert forall i :: 0 <= i < |e| ==> (e + u)[i] == e[i];
    }
  }

  /** One character of a string, in front of a tidy rest of the string. */
  lemma TidyChar(c: CodePoint, u: Bytes)
    requires !IsSurrogate(c) && Tidy(u, true)
    ensures Tidy(Utf8(EscapeOne(c)) + u, true)
  {
    hide StringChar, SpelledEscape, EscapeOne, Utf8;
    CharReads(c, u);
    EscapeSpelled(c, u);
  }

  lemma TidyEnds(t: Bytes)
    requires Tidy(t, false)
    ensures Tidy([QUOTE] + t, true)
  {
    assert ([QUOTE] + t)[1..] == t;
  }

  lemma {:induction false} TidyBody(k: Text, t: Bytes)
    requires Scalars(k) && Tidy(t, false)
    ensures Tidy(Utf8(Escape(k)) + [QUOTE] + t, true)
  {
    hide Tidy, EscapeOne;
    if k == [] {
      TidyEnds(t);
      assert Utf8(Escape(k)) + [QUOTE] + t == [QUOTE] + t;
    } else {
      ScalarsSplit(k, []);
      hide Utf8, Escape, Scalars;
      TidyBody(k[1..], t);
      assert k == [k[0]] + k[1..];
      EscapeFirst(k[0], k[1..]);
      RegroupFour(Utf8(EscapeOne(k[0])), Utf8(Escape(k[1..])), [QUOTE], t);
      TidyChar(k[0], Utf8(Escape(k[1..])) + [QUOTE] + t);
    }
  }

  lemma QuoteKeeps(k: Text)
    requires Scalars(k)
    ensures KeepsTidy(Quote(k))
  {
    forall u: Bytes | Tidy(u, false) ensures Tidy(Utf8(Quote(k)) + u, false) {
      TidyBody(k, u);
      QuoteBytes(k, u);
      hide Utf8, Quote, Escape;
      var x := Utf8(Escape(k)) + [QUOTE] + u;
      assert ([QUOTE] + x)[1..] == x;
    }
  }

  lemma {:induction false} JoinKeeps(pieces: seq<Text>)
    requires forall i :: 0 <= i < |pieces| ==> KeepsTidy(pieces[i])
    ensures KeepsTidy(Join(pieces))
  {
    if pieces == [] {
      AsciiKeeps([]);
    } else if |pieces| > 1 {
      hide KeepsTidy;
      JoinKeeps(pieces[1..]);
      AsciiKeeps([COMMA]);
      BothKeep(pieces[0], [COMMA]);
      BothKeep(pieces[0] + [COMMA], Join(pieces[1..]));
    }
  }

  lemma BracketsKeep(open: CodePoint, inside: Text, close: CodePoint)
    requires open in {0x5B, 0x7B} && close in {0x5D, 0x7D} && KeepsTidy(inside)
    ensures KeepsTidy([open] + inside + [close])
  {
    hide KeepsTidy;
    AsciiKeeps([open]);
    AsciiKeeps([close]);
    BothKeep([open], inside);
    BothKeep([open] + inside, [close]);
  }

  lemma {:induction false} PrintedKeeps(v: Value)
    requires Encodable(v)
    ensures KeepsTidy(Plain(v))
  {
    hide KeepsTidy, Join, Quote, IntText;
    match v {
      case Num(n) => NumberKeeps(n);
      case Str(k) => QuoteKeeps(k);
      case Arr(items) =>
        forall i | 0 <= i < |items| ensures KeepsTidy(PlainItems(items)[i]) {
          PrintedKeeps(items[i]);
        }
        JoinKeeps(PlainItems(items));
        BracketsKeep(0x5B, Join(PlainItems(items)), 0x5D);
      case Obj(ms) =>
        forall i | 0 <= i < |ms| ensures KeepsTidy(PlainMembers(ms)[i]) {
          PrintedKeeps(ms[i].value);
          QuoteKeeps(ms[i].key);
          AsciiKeeps([COLON]);
          BothKeep(Quote(ms[i].key), [COLON]);
          BothKeep(Quote(ms[i].key) + [COLON], Plain(ms[i].value));
        }
        JoinKeeps(PlainMembers(ms));
        BracketsKeep(0x7B, Join(PlainMembers(ms)), 0x7D);
      case _ => AsciiKeeps(Plain(v));
    }
  }

  // ---- the order of keys ----

  /** Canonical values are exactly those with sorted keys. */
  lemma {:induction false} SortedIsCanon(v: Value)
    requires Printable(v)
    ensures SortedKeys(v) <==> Canon(v) == v
  {
    match v {
      case Arr(items) =>
        forall i | 0 <= i < |items| ensures SortedKeys(items[i]) <==> Canon(items[i]) == items[i] {
          SortedIsCanon(items[i]);
        }
        ListIsCanon(items);
      case Obj(ms) =>
        forall i | 0 <= i < |ms| ensures SortedKeys(ms[i].value) <==> Canon(ms[i].value) == ms[i].value {
          SortedIsCanon(ms[i].value);
        }
        ObjectIsCanon(ms);
      case _ =>
    }
  }

  lemma ListIsCanon(items: seq<Value>)
    requires forall i :: 0 <= i < |items| ==> (SortedKeys(items[i]) <==> Canon(items[i]) == items[i])
    ensures SortedKeys(Arr(items)) <==> Canon(Arr(items)) == Arr(items)
  {
    var c := Canon(Arr(items)).items;
    assert |c| == |items| && forall i :: 0 <= i < |items| ==> c[i] == Canon(items[i]);
    if c == items {
      assert forall i :: 0 <= i < |items| ==> c[i] == items[i];
    }
  }

  lemma ObjectIsCanon(ms: seq<Member>)
    requires UniqueKeys(ms) && EncodableKeys(ms)
    requires forall i :: 0 <= i < |ms| ==> (SortedKeys(ms[i].value) <==> Canon(ms[i].value) == ms[i].value)
    ensures SortedKeys(Obj(ms)) <==> Canon(Obj(ms)) == Obj(ms)
  {
    var cs := CanonMembers(ms);
    CanonKeys(ms);
    var r := Sort(cs);
    assert Canon(Obj(ms)) == Obj(r);
    if SortedKeys(Obj(ms)) {
      assert cs == ms;
      hide Sort, Canon;
      SortedUnique(r, ms);
    }
    if r == ms {
      SortCanon(ms);
      SortSorts(ms);
      SortedStays(ms);
      assert CanonMembers(Sort(ms)) == ms;
    }
  }

  /** Members whose keys are sorted stay where they are. */
  lemma SortedStays(ms: seq<Member>)
    requires UniqueKeys(ms) && EncodableKeys(ms) && StrictlySorted(ms)
    ensures Sort(ms) == ms
  {
    SortSorts(ms);
    SortKeeps(ms);
    hide Sort;
    SortedUnique(Sort(ms), ms);
  }

  // ---- main results ----

  /** Canonical text, exactly: among the texts the parser accepts, those the printer gives back unchanged are
      the tidy ones whose keys are sorted. */
  lemma CanonicalTextIff(s: Bytes, lim: Limits)
    requires LoadsWithin(s, lim).Some?
    ensures var v := LoadsWithin(s, lim).value;
            Dumps(v) == Ok(s) <==> Tidy(s, false) && SortedKeys(v)
  {
    LoadedIsGood(s, lim);
    var v := LoadsWithin(s, lim).value;
    hide LoadsWithin, Plain, Utf8, Canon, Tidy, Encodable, IsDict, Within, SortedKeys, ParseValue;
    SortedIsCanon(v);
    if Dumps(v) == Ok(s) {
      RoundTripIff(v, lim);
      PrintedIsTidy(Canon(v), v);
    }
    if Tidy(s, false) && SortedKeys(v) {
      TidyIsPrinted(s, lim);
    }
  }

  lemma PrintedIsTidy(c: Value, v: Value)
    requires Printable(v) && c == Canon(v)
    ensures Tidy(Utf8(Plain(c)), false)
  {
    CanonIsEqual(v);
    PrintedKeeps(c);
    hide Utf8, Plain;
    assert Tidy([], false) && Utf8(Plain(c)) + [] == Utf8(Plain(c));
  }

  lemma TidyIsPrinted(s: Bytes, lim: Limits)
    requires LoadsWithin(s, lim).Some? && Tidy(s, false)
    ensures s == Utf8(Plain(LoadsWithin(s, lim).value))
  {
    hide Utf8, Plain, Tidy, ParseValue, SkipWs, ValidUtf8;
    TidyStep(s);
    ValueSpelled(s, 0, lim);
    var p := ParseValue(s, 0, lim);
    TidyStep(p.rest);
    assert Utf8(Plain(p.value)) + [] == Utf8(Plain(p.value));
  }

  /** The texts of the wire: accepted and not canonical exactly if untidy or with unsorted keys. */
  lemma WireCanonicalIff(s: Bytes)
    requires Loads(s).Some?
    ensures Dumps(Loads(s).value) == Ok(s) <==> Tidy(s, false) && SortedKeys(Loads(s).value)
  {
    CanonicalTextIff(s, WIRE);
  }

  // ---- accepted texts that are not canonical, one family or text of each kind ----

  /** Every printable value within the limits is accepted with its keys in any order. */
  lemma AnyKeyOrderAccepted(v: Value)
    requires Printable(v) && Within(v, MAX_DEPTH, MAX_JSON_INT)
    ensures Loads(Utf8(Plain(v))) == Some(v)
    ensures Dumps(v) == Ok(Utf8(Plain(v))) <==> SortedKeys(v)
  {
    PrintedDocument(v, WIRE);
    WireCanonicalIff(Utf8(Plain(v)));
    PrintedKeeps(v);
    hide Utf8, Plain, Loads, SortedKeys;
    assert Tidy([], false) && Utf8(Plain(v)) + [] == Utf8(Plain(v));
  }

  /** Every such value is accepted after white space. */
  lemma SpaceAccepted(v: Value)
    requires Printable(v) && Within(v, MAX_DEPTH, MAX_JSON_INT)
    ensures var s: Bytes := [0x20] + Utf8(Plain(v)); Loads(s) == Some(v) && Dumps(v) != Ok(s)
  {
    var t := Utf8(Plain(v));
    var s: Bytes := [0x20] + t;
    PrintedDocument(v, WIRE);
    FirstByte(v);
    NoSpace(v, []);
    assert t + [] == t && s[1..] == t;
    hide Utf8, Plain, ParseValue, SkipWs;
    SpaceSkipped(s);
    assert DecodeOne(s) == Decoded(0x20, t);
    WireCanonicalIff(s);
  }

  lemma SpaceSkipped(s: Bytes)
    requires s != [] && IsSpace(s[0])
    ensures SkipWs(s) == SkipWs(s[1..])
  {
  }

  /** Negative zero is accepted and printed without its sign. */
  lemma NegativeZeroAccepted()
    ensures var s: Bytes := [0x2D, 0x30]; Loads(s) == Some(Num(0)) && Dumps(Num(0)) != Ok(s)
  {
    var s: Bytes := [0x2D, 0x30];
    assert s[1..] == [0x30] && [0x30][1..] == [];
    assert ValidUtf8([0x30]) && ValidUtf8(s);
    WireCanonicalIff(s);
  }

  /** An escaped slash is accepted and printed without its backslash. */
  lemma SlashEscapeAccepted()
    ensures var s: Bytes := [0x22, 0x5C, 0x2F, 0x22]; Loads(s) == Some(Str([0x2F])) && Dumps(Str([0x2F])) != Ok(s)
  {
    var body: Bytes := [0x5C, 0x2F] + [0x22];
    assert body[2..] == [0x22];
    EscapeAccepted([0x5C, 0x2F], 0x2F);
    hide Loads, Dumps;
    assert [0x22] + [0x5C, 0x2F] + [0x22] == [0x22, 0x5C, 0x2F, 0x22];
  }

  /** A letter given by its code is accepted and printed as it is. */
  lemma CodeEscapeAccepted()
    ensures var s: Bytes := [0x22, 0x5C, 0x75, 0x30, 0x30, 0x34, 0x31, 0x22];
            Loads(s) == Some(Str([0x41])) && Dumps(Str([0x41])) != Ok(s)
  {
    var e: Text := [0x5C, 0x75, 0x30, 0x30, 0x34, 0x31];
    CodeChar();
    assert e + [0x22] == [0x5C, 0x75, 0x30, 0x30, 0x34, 0x31, 0x22];
    EscapeAccepted(e, 0x41);
    hide Loads, Dumps;
    assert [0x22] + e + [0x22] == [0x22, 0x5C, 0x75, 0x30, 0x30, 0x34, 0x31, 0x22];
  }

  lemma CodeChar()
    ensures StringChar([0x5C, 0x75, 0x30, 0x30, 0x34, 0x31, 0x22]) == Done(0x41, [0x22])
  {
    var body: Bytes := [0x5C, 0x75, 0x30, 0x30, 0x34, 0x31, 0x22];
    var u := body[2..];
    assert u[..4] == [0x30, 0x30, 0x34, 0x31] && u[4..] == [0x22];
  }

  /** A string of one escape in ASCII that is not spelled as the printer does. */
  lemma EscapeAccepted(escape: Text, c: CodePoint)
    requires escape != [] && escape[0] == BACKSLASH && forall i :: 0 <= i < |escape| ==> escape[i] < 0x80
    requires !IsSurrogate(c) && StringChar(escape + [0x22]) == Done(c, [0x22]) && !SpelledEscape(escape + [0x22])
    ensures var s: Bytes := [0x22] + escape + [0x22]; Loads(s) == Some(Str([c])) && Dumps(Str([c])) != Ok(s)
  {
    var body: Bytes := escape + [0x22];
    var s: Bytes := [0x22] + body;
    assert s == [0x22] + escape + [0x22] && s[1..] == body;
    AsciiIsItself(s);
    Utf8IsValid(s);
    EscapeRead(body, c);
    hide Utf8, StringChar, StringBody, ValidUtf8, SpelledEscape;
    assert !Tidy(body, true);
    assert !Tidy(s, false);
    assert ParseValue(s, 0, WIRE) == Done(Str([c]), []);
    assert SkipWs(s) == s && SkipWs([]) == [];
    hide ParseValue, Tidy;
    WireCanonicalIff(s);
  }

  lemma EscapeRead(body: Bytes, c: CodePoint)
    requires body != [] && body[0] == BACKSLASH && StringChar(body) == Done(c, [0x22]) && !IsSurrogate(c)
    ensures StringBody(body, []) == Done([c], [])
  {
    BodyNext(body, []);
    assert [] + [c] == [c] && [0x22][1..] == [];
    assert Scalars([c]);
  }
}
