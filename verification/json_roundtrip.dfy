/** The parser undoes the printer, and the printer is canonical. */
module JsonRoundTrip {
  import opened Types
  import opened Sequences
  import opened Unicode
  import opened Json
  import opened JsonPrinter
  import opened JsonParser

  /** Input that cannot continue a number. */
  predicate Follows(t: Bytes) {
    t == [] || !(IsDigit(t[0]) || t[0] == 0x2E || t[0] == 0x65 || t[0] == 0x45)
  }

  lemma {:induction false} AsciiIsItself(t: Text)
    requires forall i :: 0 <= i < |t| ==> t[i] < 0x80
    ensures Utf8(t) == t
  {
    if t != [] {
      AsciiIsItself(t[1..]);
    }
  }

  // ---- numbers ----

  lemma {:induction false} DigitsRun(n: nat, t: Bytes)
    ensures DigitRun(Digits(n) + t, 0) == DigitRun(t, n)
  {
    if n < 10 {
      assert (Digits(n) + t)[1..] == t;
    } else {
      DigitsRun(n / 10, [0x30 + n % 10] + t);
      assert Digits(n) + t == Digits(n / 10) + ([0x30 + n % 10] + t);
      assert ([0x30 + n % 10] + t)[1..] == t;
    }
  }

  lemma {:induction false} FirstDigit(n: nat)
    ensures Digits(n)[0] == 0x30 ==> n == 0
  {
    if n >= 10 {
      FirstDigit(n / 10);
    }
  }

  /** Printed digits read back, and carry no leading zero. */
  lemma DigitsRead(m: nat, t: Bytes)
    requires Follows(t)
    ensures var u := Digits(m) + t;
            && IsDigit(u[0]) && DigitRun(u[1..], u[0] - 0x30) == (m, t)
            && !(u[0] == 0x30 && |u| > 1 && IsDigit(u[1]))
  {
    var u := Digits(m) + t;
    assert u[0] == Digits(m)[0];
    FirstDigit(m);
    DigitsRun(m, t);
    assert DigitRun(u, 0) == DigitRun(u[1..], u[0] - 0x30);
    assert DigitRun(t, m) == (m, t);
    if m == 0 {
      assert u == [0x30] + t && u[1..] == t;
    }
  }

  /** A run of digits with an optional sign. */
  lemma SignedReads(neg: bool, m: nat, u: Bytes, t: Bytes, limit: nat)
    requires u != [] && IsDigit(u[0]) && DigitRun(u[1..], u[0] - 0x30) == (m, t)
    requires !(u[0] == 0x30 && |u| > 1 && IsDigit(u[1])) && Follows(t) && m <= limit
    ensures Number((if neg then [0x2D] else []) + u, limit) == Done(Num(Signed(neg, m)), t)
  {
    hide DigitRun;
    if neg {
      assert ([0x2D] + u)[1..] == u;
    } else {
      assert [] + u == u;
    }
  }

  lemma NumberReads(n: int, t: Bytes, limit: nat)
    requires Follows(t) && n <= limit && -n <= limit
    ensures Number(Utf8(IntText(n)) + t, limit) == Done(Num(n), t)
  {
    hide Utf8, Digits, DigitRun, Number, Follows;
    AsciiIsItself(IntText(n));
    var m: nat := if n < 0 then -n else n;
    DigitsRead(m, t);
    SignedReads(n < 0, m, Digits(m) + t, t, limit);
    assert IntText(n) + t == (if n < 0 then [0x2D] else []) + (Digits(m) + t);
  }

  // ---- strings ----

  /** One escaped or plain character, whatever follows. */
  lemma CharReads(c: CodePoint, u: Bytes)
    requires !IsSurrogate(c)
    ensures var s := Utf8(EscapeOne(c)) + u; s[0] != QUOTE && StringChar(s) == Done(c, u)
  {
    var e := EscapeOne(c);
    if e == [c] {
      assert Utf8(e) == Utf8One(c) + Utf8([]) && Utf8(e) == Utf8One(c);
      DecodeEncodedOne(c, u);
      assert (Utf8(e) + u)[0] == Utf8One(c)[0];
    } else {
      AsciiIsItself(e);
      var s := e + u;
      if |e| == 2 {
        assert s[2..] == u;
      } else {
        HexReads(c, u);
        assert s[2..][4..] == u && s[2..][..4] == [0x30, 0x30, Hex(c / 16), Hex(c % 16)];
      }
    }
  }

  lemma HexReads(c: CodePoint, u: Bytes)
    requires c < 0x20
    ensures Hex4([0x30, 0x30, Hex(c / 16), Hex(c % 16)]) == Some(c)
  {
  }

  lemma BodyEnds(acc: Text, t: Bytes)
    requires Scalars(acc)
    ensures StringBody([QUOTE] + t, acc) == Done(acc, t)
  {
    assert ([QUOTE] + t)[1..] == t;
  }

  lemma BodyNext(s: Bytes, acc: Text)
    requires s != [] && s[0] != QUOTE && StringChar(s).Done?
    ensures StringBody(s, acc) == StringBody(StringChar(s).rest, acc + [StringChar(s).value])
  {
  }

  lemma {:induction false} BodyReads(s: Text, acc: Text, t: Bytes)
    requires Scalars(s) && Scalars(acc)
    ensures StringBody(Utf8(Escape(s)) + [QUOTE] + t, acc) == Done(acc + s, t)
  {
    hide StringBody, StringChar, EscapeOne;
    if s == [] {
      BodyEnds(acc, t);
      assert acc + s == acc && Utf8(Escape(s)) + [QUOTE] + t == [QUOTE] + t;
    } else {
      assert Escape(s) == EscapeOne(s[0]) + Escape(s[1..]);
      Utf8Append(EscapeOne(s[0]), Escape(s[1..]));
      ScalarsSplit(s, acc);
      hide Escape, Utf8, Scalars;
      var one, more := Utf8(EscapeOne(s[0])), Utf8(Escape(s[1..]));
      RegroupFour(one, more, [QUOTE], t);
      CharReads(s[0], more + [QUOTE] + t);
      BodyNext(one + (more + [QUOTE] + t), acc);
      BodyReads(s[1..], acc + [s[0]], t);
    }
  }

  lemma ScalarsSplit(s: Text, acc: Text)
    requires s != [] && Scalars(s) && Scalars(acc)
    ensures !IsSurrogate(s[0]) && Scalars(s[1..]) && Scalars(acc + [s[0]])
    ensures acc + [s[0]] + s[1..] == acc + s
  {
  }

  /** A quoted string reads back, whatever follows. */
  lemma QuoteReads(s: Text, t: Bytes)
    requires Scalars(s)
    ensures var q := Utf8(Quote(s)) + t;
            q[0] == QUOTE && StringBody(q[1..], []) == Done(s, t)
  {
    AsciiIsItself([QUOTE]);
    hide Utf8, StringBody, Escape;
    Utf8Append([QUOTE] + Escape(s), [QUOTE]);
    Utf8Append([QUOTE], Escape(s));
    BodyReads(s, [], t);
    var e := Utf8(Escape(s));
    RegroupFour([QUOTE], e, [QUOTE], t);
    assert ([QUOTE] + (e + [QUOTE] + t))[1..] == e + [QUOTE] + t;
    assert [] + s == s;
  }

  // ---- values ----

  /** A printed value reads back, whatever follows it. */
  ghost predicate Reads(v: Value, depth: int, lim: Limits) {
    forall t: Bytes :: Follows(t) ==> ParseValue(Utf8(Plain(v)) + t, depth, lim) == Done(v, t)
  }

  /** The first byte of a printed value. */
  lemma FirstByte(v: Value)
    ensures Plain(v) != [] && Utf8(Plain(v)) != [] && Utf8(Plain(v))[0] == Plain(v)[0]
    ensures var b := Plain(v)[0]; b in {0x6E, 0x74, 0x66, 0x22, 0x5B, 0x7B, 0x2D} || IsDigit(b)
  {
    var p := Plain(v);
    assert p[0] < 0x80;
    assert Utf8(p) == Utf8One(p[0]) + Utf8(p[1..]);
  }

  lemma NoSpace(v: Value, t: Bytes)
    ensures SkipWs(Utf8(Plain(v)) + t) == Utf8(Plain(v)) + t
    ensures (Utf8(Plain(v)) + t)[0] != 0x5D
  {
    FirstByte(v);
  }

  /** Bytes of the pieces from the first one on. */
  lemma JoinedBytes(pieces: seq<Text>)
    requires pieces != []
    ensures Utf8(Join(pieces)) == (if |pieces| == 1 then Utf8(pieces[0])
                                   else Utf8(pieces[0]) + [COMMA] + Utf8(Join(pieces[1..])))
  {
    if |pieces| > 1 {
      Utf8Append(pieces[0] + [COMMA], Join(pieces[1..]));
      Utf8Append(pieces[0], [COMMA]);
      AsciiIsItself([COMMA]);
    }
  }

  /** The bytes between an opening bracket and what follows its closing one. */
  function Inside(pieces: seq<Text>, close: Byte, t: Bytes): Bytes {
    Utf8(Join(pieces)) + [close] + t
  }

  lemma InsideSplit(pieces: seq<Text>, close: Byte, t: Bytes)
    requires pieces != []
    ensures Inside(pieces, close, t)
         == Utf8(pieces[0]) + (if |pieces| == 1 then [close] + t else [COMMA] + Inside(pieces[1..], close, t))
  {
    JoinedBytes(pieces);
    hide Utf8, Join;
    if |pieces| == 1 {
      RegroupFour(Utf8(pieces[0]), [], [close], t);
    } else {
      RegroupFour(Utf8(pieces[0]), [COMMA] + Utf8(Join(pieces[1..])), [close], t);
      RegroupFour([COMMA], Utf8(Join(pieces[1..])), [close], t);
    }
  }

  /** A printed value followed by a separator or a bracket. */
  predicate Separator(u: Bytes) {
    u != [] && (u[0] == 0x2C || u[0] == 0x5D || u[0] == 0x7D)
  }

  lemma ItemReads(v: Value, u: Bytes, depth: int, acc: seq<Value>, lim: Limits)
    requires Reads(v, depth + 1, lim) && Separator(u)
    ensures ParseItems(Utf8(Plain(v)) + u, depth, acc, lim)
         == (if u[0] == 0x5D then Done(Arr(acc + [v]), u[1..])
             else if u[0] == 0x2C then ParseItems(u[1..], depth, acc + [v], lim)
             else Fail)
  {
    NoSpace(v, u);
    hide Utf8, Plain, ParseValue;
    assert ParseValue(Utf8(Plain(v)) + u, depth + 1, lim) == Done(v, u);
    assert SkipWs(u) == u;
  }

  lemma {:induction false} ItemsRead(items: seq<Value>, acc: seq<Value>, depth: int, lim: Limits, t: Bytes)
    requires items != [] && forall i :: 0 <= i < |items| ==> Reads(items[i], depth + 1, lim)
    ensures ParseItems(Inside(PlainItems(items), 0x5D, t), depth, acc, lim) == Done(Arr(acc + items), t)
  {
    hide Utf8, Join, ParseItems, Reads, Plain, Inside;
    var pieces := PlainItems(items);
    InsideSplit(pieces, 0x5D, t);
    if |items| == 1 {
      ItemReads(items[0], [0x5D] + t, depth, acc, lim);
      assert ([0x5D] + t)[1..] == t && [items[0]] == items;
    } else {
      var more := Inside(pieces[1..], 0x5D, t);
      ItemReads(items[0], [COMMA] + more, depth, acc, lim);
      assert pieces[1..] == PlainItems(items[1..]) && ([COMMA] + more)[1..] == more;
      ItemsRead(items[1..], acc + [items[0]], depth, lim, t);
      assert acc + [items[0]] + items[1..] == acc + items;
    }
  }

  lemma MemberBytes(k: Text, v: Value, u: Bytes)
    ensures Utf8(Quote(k) + [COLON] + Plain(v)) + u == Utf8(Quote(k)) + ([COLON] + (Utf8(Plain(v)) + u))
  {
    Utf8Append(Quote(k) + [COLON], Plain(v));
    Utf8Append(Quote(k), [COLON]);
    AsciiIsItself([COLON]);
    hide Utf8, Quote, Plain;
    RegroupFour(Utf8(Quote(k)), [COLON], Utf8(Plain(v)), u);
  }

  lemma KeyReads(k: Text, v: Value, u: Bytes)
    requires Scalars(k)
    ensures ParseKey(Utf8(Quote(k) + [COLON] + Plain(v)) + u) == Done(k, Utf8(Plain(v)) + u)
  {
    hide Utf8, Quote, Plain, StringBody;
    MemberBytes(k, v, u);
    NoSpace(v, u);
    var rest := [COLON] + (Utf8(Plain(v)) + u);
    QuoteReads(k, rest);
    assert rest[1..] == Utf8(Plain(v)) + u;
    assert SkipWs(Utf8(Quote(k)) + rest) == Utf8(Quote(k)) + rest && SkipWs(rest) == rest;
  }

  lemma MemberReads(m: Member, u: Bytes, depth: int, acc: seq<Member>, lim: Limits)
    requires Scalars(m.key) && Reads(m.value, depth + 1, lim) && Separator(u)
    requires forall i :: 0 <= i < |acc| ==> acc[i].key != m.key
    ensures ParseMembers(Utf8(Quote(m.key) + [COLON] + Plain(m.value)) + u, depth, acc, lim)
         == (if u[0] == 0x7D then Done(Obj(acc + [m]), u[1..])
             else if u[0] == 0x2C then ParseMembers(u[1..], depth, acc + [m], lim)
             else Fail)
  {
    KeyReads(m.key, m.value, u);
    hide Utf8, Plain, ParseValue, Quote, ParseKey;
    assert ParseValue(Utf8(Plain(m.value)) + u, depth + 1, lim) == Done(m.value, u);
    assert SkipWs(u) == u && Member(m.key, m.value) == m;
  }

  lemma {:induction false} MembersRead(ms: seq<Member>, acc: seq<Member>, depth: int, lim: Limits, t: Bytes)
    requires ms != [] && UniqueKeys(acc + ms) && EncodableKeys(ms)
    requires forall i :: 0 <= i < |ms| ==> Reads(ms[i].value, depth + 1, lim)
    ensures ParseMembers(Inside(PlainMembers(ms), 0x7D, t), depth, acc, lim) == Done(Obj(acc + ms), t)
  {
    hide Utf8, Join, ParseMembers, Reads, Plain, Inside, Quote, Scalars;
    var pieces := PlainMembers(ms);
    InsideSplit(pieces, 0x7D, t);
    NewKey(acc, ms);
    if |ms| == 1 {
      MemberReads(ms[0], [0x7D] + t, depth, acc, lim);
      assert ([0x7D] + t)[1..] == t && [ms[0]] == ms;
    } else {
      var more := Inside(pieces[1..], 0x7D, t);
      MemberReads(ms[0], [COMMA] + more, depth, acc, lim);
      assert pieces[1..] == PlainMembers(ms[1..]) && ([COMMA] + more)[1..] == more;
      assert acc + [ms[0]] + ms[1..] == acc + ms;
      MembersRead(ms[1..], acc + [ms[0]], depth, lim, t);
    }
  }

  lemma NewKey(acc: seq<Member>, ms: seq<Member>)
    requires ms != [] && UniqueKeys(acc + ms)
    ensures forall i :: 0 <= i < |acc| ==> acc[i].key != ms[0].key
  {
    var all := acc + ms;
    assert all[|acc|] == ms[0];
    forall i | 0 <= i < |acc| ensures acc[i].key != ms[0].key {
      assert all[i] == acc[i];
    }
  }

  /** Every printed value within the limits reads back to itself, whatever legally follows it. */
  lemma {:induction false} PrintedReads(v: Value, depth: int, lim: Limits)
    requires IsDict(v) && Encodable(v) && Within(v, lim.depth - depth, lim.number)
    ensures Reads(v, depth, lim)
    decreases v
  {
    hide Utf8, Plain, ParseValue;
    match v {
      case Arr(items) =>
        forall i | 0 <= i < |items| ensures Reads(items[i], depth + 1, lim) {
          PrintedReads(items[i], depth + 1, lim);
        }
        forall t: Bytes | Follows(t) ensures ParseValue(Utf8(Plain(v)) + t, depth, lim) == Done(v, t) {
          ArrayReads(items, depth, lim, t);
        }
      case Obj(ms) =>
        forall i | 0 <= i < |ms| ensures Reads(ms[i].value, depth + 1, lim) {
          PrintedReads(ms[i].value, depth + 1, lim);
        }
        forall t: Bytes | Follows(t) ensures ParseValue(Utf8(Plain(v)) + t, depth, lim) == Done(v, t) {
          ObjectReads(ms, depth, lim, t);
        }
      case _ => ScalarReads(v, depth, lim);
    }
  }

  lemma ScalarReads(v: Value, depth: int, lim: Limits)
    requires !v.Arr? && !v.Obj? && Encodable(v) && Within(v, lim.depth - depth, lim.number)
    ensures Reads(v, depth, lim)
  {
    forall t: Bytes | Follows(t) ensures ParseValue(Utf8(Plain(v)) + t, depth, lim) == Done(v, t) {
      if v.Num? {
        FirstByte(v);
        NumberReads(v.n, t, lim.number);
      } else if v.Str? {
        QuoteReads(v.s, t);
      } else {
        AsciiIsItself(Plain(v));
        hide Utf8;
        assert (Plain(v) + t)[|Plain(v)|..] == t;
      }
    }
  }

  /** An opening bracket, then the closing one or the first entry. */
  lemma OpenArray(x: Bytes, depth: int, lim: Limits)
    requires depth <= lim.depth && x != [] && !IsSpace(x[0])
    ensures ParseValue([0x5B] + x, depth, lim)
         == (if x[0] == 0x5D then Done(Arr([]), x[1..]) else ParseItems(x, depth, [], lim))
  {
    hide ParseItems, ParseMembers;
    assert ([0x5B] + x)[1..] == x;
  }

  lemma OpenObject(x: Bytes, depth: int, lim: Limits)
    requires depth <= lim.depth && x != [] && !IsSpace(x[0])
    ensures ParseValue([0x7B] + x, depth, lim)
         == (if x[0] == 0x7D then Done(Obj([]), x[1..]) else ParseMembers(x, depth, [], lim))
  {
    hide ParseItems, ParseMembers;
    assert ([0x7B] + x)[1..] == x;
  }

  /** The first byte inside brackets. */
  lemma InsideStarts(pieces: seq<Text>, close: Byte, t: Bytes)
    requires pieces != [] ==> Utf8(pieces[0]) != []
    ensures var x := Inside(pieces, close, t);
            && x != [] && x[0] == (if pieces == [] then close else Utf8(pieces[0])[0])
            && (pieces == [] ==> x[1..] == t)
  {
    if pieces == [] {
      NothingInside(close, t);
    } else {
      hide Utf8, Inside;
      InsideSplit(pieces, close, t);
    }
  }

  lemma ArrayReads(items: seq<Value>, depth: int, lim: Limits, t: Bytes)
    requires depth <= lim.depth && forall i :: 0 <= i < |items| ==> Reads(items[i], depth + 1, lim)
    ensures ParseValue(Utf8(Plain(Arr(items))) + t, depth, lim) == Done(Arr(items), t)
  {
    var pieces := PlainItems(items);
    assert Plain(Arr(items)) == [0x5B] + Join(pieces) + [0x5D];
    hide Utf8, Join, Plain, Reads, ParseItems, ParseValue, Inside;
    Bracketed(0x5B, pieces, 0x5D, t);
    if items != [] {
      ItemsRead(items, [], depth, lim, t);
      FirstByte(items[0]);
      assert [] + items == items;
    }
    InsideStarts(pieces, 0x5D, t);
    OpenArray(Inside(pieces, 0x5D, t), depth, lim);
  }

  lemma NothingInside(close: Byte, t: Bytes)
    ensures Inside([], close, t) == [close] + t && ([close] + t)[1..] == t
  {
  }

  /** A bracketed list in bytes. */
  lemma Bracketed(open: Byte, pieces: seq<Text>, close: Byte, t: Bytes)
    requires open < 0x80 && close < 0x80
    ensures Utf8([open] + Join(pieces) + [close]) + t == [open] + Inside(pieces, close, t)
    ensures ([open] + Inside(pieces, close, t))[1..] == Inside(pieces, close, t)
  {
    Utf8Append([open] + Join(pieces), [close]);
    Utf8Append([open], Join(pieces));
    AsciiIsItself([open]);
    AsciiIsItself([close]);
    hide Utf8, Join;
    RegroupFour([open], Utf8(Join(pieces)), [close], t);
  }

  lemma ObjectReads(ms: seq<Member>, depth: int, lim: Limits, t: Bytes)
    requires depth <= lim.depth && UniqueKeys(ms) && EncodableKeys(ms)
    requires forall i :: 0 <= i < |ms| ==> Reads(ms[i].value, depth + 1, lim)
    ensures ParseValue(Utf8(Plain(Obj(ms))) + t, depth, lim) == Done(Obj(ms), t)
  {
    var pieces := PlainMembers(ms);
    assert Plain(Obj(ms)) == [0x7B] + Join(pieces) + [0x7D];
    hide Utf8, Join, Plain, Reads, ParseMembers, ParseValue, Quote, Inside, Scalars;
    Bracketed(0x7B, pieces, 0x7D, t);
    if ms != [] {
      assert [] + ms == ms;
      MembersRead(ms, [], depth, lim, t);
      QuoteStarts(ms[0].key, [COLON], Plain(ms[0].value));
    }
    InsideStarts(pieces, 0x7D, t);
    OpenObject(Inside(pieces, 0x7D, t), depth, lim);
  }

  lemma QuoteStarts(k: Text, colon: Text, more: Text)
    ensures Utf8(Quote(k) + colon + more) != [] && Utf8(Quote(k) + colon + more)[0] == QUOTE
  {
    assert (Quote(k) + colon + more)[0] == QUOTE;
  }
}
