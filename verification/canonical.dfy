/** What `dumps` and `loads` promise together: round trip, canonicity, idempotence, and their limits. */
module Canonical {
  import opened Types
  import opened Unicode
  import opened Json
  import opened JsonPrinter
  import opened JsonParser
  import opened JsonRoundTrip

  // ---- printed text can be encoded ----

  lemma {:induction false} EscapeScalars(s: Text)
    requires Scalars(s)
    ensures Scalars(Escape(s))
  {
    if s != [] {
      EscapeScalars(s[1..]);
    }
  }

  lemma {:induction false} JoinScalars(pieces: seq<Text>)
    requires forall i :: 0 <= i < |pieces| ==> Scalars(pieces[i])
    ensures Scalars(Join(pieces))
  {
    if |pieces| > 1 {
      JoinScalars(pieces[1..]);
    }
  }

  lemma QuoteScalars(s: Text)
    requires Scalars(s)
    ensures Scalars(Quote(s))
  {
    EscapeScalars(s);
    hide Escape;
  }

  lemma {:induction false} PlainScalars(v: Value)
    requires Encodable(v)
    ensures Scalars(Plain(v))
  {
    match v {
      case Str(s) => QuoteScalars(s);
      case Arr(items) =>
        forall i | 0 <= i < |items| ensures Scalars(PlainItems(items)[i]) {
          PlainScalars(items[i]);
        }
        JoinScalars(PlainItems(items));
      case Obj(ms) =>
        forall i | 0 <= i < |ms| ensures Scalars(PlainMembers(ms)[i]) {
          QuoteScalars(ms[i].key);
          PlainScalars(ms[i].value);
        }
        JoinScalars(PlainMembers(ms));
      case _ =>
    }
  }

  // ---- what the parser produces ----

  ghost predicate Good(v: Value, depth: int, lim: Limits) {
    IsDict(v) && Encodable(v) && Within(v, lim.depth - depth, lim.number)
  }

  /** The parser's text has no surrogates. */
  lemma {:induction false} BodyScalars(s: Bytes, acc: Text)
    ensures StringBody(s, acc).Done? ==> Scalars(StringBody(s, acc).value)
    decreases |s|
  {
    if s != [] && s[0] != 0x22 && StringChar(s).Done? {
      BodyScalars(StringChar(s).rest, acc + [StringChar(s).value]);
    }
  }

  /** Everything the parser returns is a dictionary-shaped, encodable value within its limits. */
  lemma {:induction false} ParsedIsGood(s: Bytes, depth: int, lim: Limits)
    ensures ParseValue(s, depth, lim).Done? ==> Good(ParseValue(s, depth, lim).value, depth, lim)
    decreases |s|, 1
  {
    if depth > lim.depth || s == [] {
    } else if s[0] == 0x7B {
      var t := SkipWs(s[1..]);
      MembersAreGood(t, depth, [], lim);
    } else if s[0] == 0x5B {
      var t := SkipWs(s[1..]);
      ItemsAreGood(t, depth, [], lim);
    } else if s[0] == 0x22 {
      BodyScalars(s[1..], []);
    }
  }

  lemma {:induction false} ItemsAreGood(s: Bytes, depth: int, acc: seq<Value>, lim: Limits)
    requires depth <= lim.depth && forall i :: 0 <= i < |acc| ==> Good(acc[i], depth + 1, lim)
    ensures ParseItems(s, depth, acc, lim).Done? ==> Good(ParseItems(s, depth, acc, lim).value, depth, lim)
    decreases |s|, 2
  {
    ParsedIsGood(SkipWs(s), depth + 1, lim);
    var p := ParseValue(SkipWs(s), depth + 1, lim);
    hide ParseValue, Good;
    if p.Done? {
      var t := SkipWs(p.rest);
      ArrayIsGood(acc + [p.value], depth, lim);
      if t != [] && t[0] == 0x2C {
        ItemsAreGood(t[1..], depth, acc + [p.value], lim);
      }
    }
  }

  lemma ArrayIsGood(items: seq<Value>, depth: int, lim: Limits)
    requires depth <= lim.depth && forall i :: 0 <= i < |items| ==> Good(items[i], depth + 1, lim)
    ensures Good(Arr(items), depth, lim)
  {
  }

  ghost predicate GoodMembers(ms: seq<Member>, depth: int, lim: Limits) {
    UniqueKeys(ms) && forall i :: 0 <= i < |ms| ==> Scalars(ms[i].key) && Good(ms[i].value, depth + 1, lim)
  }

  lemma ObjectIsGood(ms: seq<Member>, depth: int, lim: Limits)
    requires depth <= lim.depth && GoodMembers(ms, depth, lim)
    ensures Good(Obj(ms), depth, lim)
  {
  }

  lemma MemberJoins(ms: seq<Member>, m: Member, depth: int, lim: Limits)
    requires GoodMembers(ms, depth, lim) && !HasKey(ms, m.key) && Scalars(m.key) && Good(m.value, depth + 1, lim)
    ensures GoodMembers(ms + [m], depth, lim)
  {
    hide Good, Scalars;
  }

  lemma KeyScalars(s: Bytes)
    ensures ParseKey(s).Done? ==> Scalars(ParseKey(s).value)
  {
    var t := SkipWs(s);
    if t != [] && t[0] == 0x22 {
      BodyScalars(t[1..], []);
    }
  }

  lemma {:induction false} MembersAreGood(s: Bytes, depth: int, acc: seq<Member>, lim: Limits)
    requires depth <= lim.depth && GoodMembers(acc, depth, lim)
    ensures ParseMembers(s, depth, acc, lim).Done? ==> Good(ParseMembers(s, depth, acc, lim).value, depth, lim)
    decreases |s|, 2
  {
    var key := ParseKey(s);
    KeyScalars(s);
    hide ParseKey, Good, GoodMembers, HasKey, Scalars;
    if key.Done? {
      ParsedIsGood(key.rest, depth + 1, lim);
      var p := ParseValue(key.rest, depth + 1, lim);
      hide ParseValue;
      if p.Done? && !HasKey(acc, key.value) {
        var t := SkipWs(p.rest);
        MemberJoins(acc, Member(key.value, p.value), depth, lim);
        ObjectIsGood(acc + [Member(key.value, p.value)], depth, lim);
        if t != [] && t[0] == 0x2C {
          MembersAreGood(t[1..], depth, acc + [Member(key.value, p.value)], lim);
        }
      }
    }
  }

  // ---- larger limits read the same ----

  predicate Tighter(lim: Limits, wide: Limits) {
    lim.depth <= wide.depth && lim.number <= wide.number
  }

  lemma {:induction false} WiderReads(s: Bytes, depth: int, lim: Limits, wide: Limits)
    requires Tighter(lim, wide)
    ensures ParseValue(s, depth, lim).Done? ==> ParseValue(s, depth, wide) == ParseValue(s, depth, lim)
    decreases |s|, 1
  {
    if depth > lim.depth || s == [] {
    } else if s[0] == 0x7B {
      WiderMembers(SkipWs(s[1..]), depth, [], lim, wide);
    } else if s[0] == 0x5B {
      WiderItems(SkipWs(s[1..]), depth, [], lim, wide);
    }
  }

  lemma {:induction false} WiderItems(s: Bytes, depth: int, acc: seq<Value>, lim: Limits, wide: Limits)
    requires Tighter(lim, wide)
    ensures ParseItems(s, depth, acc, lim).Done? ==> ParseItems(s, depth, acc, wide) == ParseItems(s, depth, acc, lim)
    decreases |s|, 2
  {
    WiderReads(SkipWs(s), depth + 1, lim, wide);
    var p := ParseValue(SkipWs(s), depth + 1, lim);
    hide ParseValue;
    if p.Done? {
      var t := SkipWs(p.rest);
      if t != [] && t[0] == 0x2C {
        WiderItems(t[1..], depth, acc + [p.value], lim, wide);
      }
    }
  }

  lemma {:induction false} WiderMembers(s: Bytes, depth: int, acc: seq<Member>, lim: Limits, wide: Limits)
    requires Tighter(lim, wide)
    ensures ParseMembers(s, depth, acc, lim).Done? ==>
              ParseMembers(s, depth, acc, wide) == ParseMembers(s, depth, acc, lim)
    decreases |s|, 2
  {
    var key := ParseKey(s);
    hide ParseKey, HasKey;
    if key.Done? {
      WiderReads(key.rest, depth + 1, lim, wide);
      var p := ParseValue(key.rest, depth + 1, lim);
      hide ParseValue;
      if p.Done? {
        var t := SkipWs(p.rest);
        if t != [] && t[0] == 0x2C {
          WiderMembers(t[1..], depth, acc + [Member(key.value, p.value)], lim, wide);
        }
      }
    }
  }

  // ---- every value fits some limits ----

  lemma {:induction false} WithinWider(v: Value, depth: int, number: nat, depth': int, number': nat)
    requires Within(v, depth, number) && depth <= depth' && number <= number'
    ensures Within(v, depth', number')
  {
    match v {
      case Arr(items) =>
        forall i | 0 <= i < |items| ensures Within(items[i], depth' - 1, number') {
          WithinWider(items[i], depth - 1, number, depth' - 1, number');
        }
      case Obj(ms) =>
        forall i | 0 <= i < |ms| ensures Within(ms[i].value, depth' - 1, number') {
          WithinWider(ms[i].value, depth - 1, number, depth' - 1, number');
        }
      case _ =>
    }
  }

  lemma {:induction false} Fits(v: Value) returns (depth: nat, number: nat)
    ensures Within(v, depth, number)
  {
    depth, number := 0, 0;
    match v {
      case Num(n) => number := if n < 0 then -n else n;
      case Arr(items) =>
        for i := 0 to |items|
          invariant forall k :: 0 <= k < i ==> Within(items[k], depth, number)
        {
          var d, n := Fits(items[i]);
          var d', n' := if d < depth then depth else d, if n < number then number else n;
          forall k | 0 <= k < i ensures Within(items[k], d', n') {
            WithinWider(items[k], depth, number, d', n');
          }
          WithinWider(items[i], d, n, d', n');
          depth, number := d', n';
        }
        depth := depth + 1;
      case Obj(ms) =>
        for i := 0 to |ms|
          invariant forall k :: 0 <= k < i ==> Within(ms[k].value, depth, number)
        {
          var d, n := Fits(ms[i].value);
          var d', n' := if d < depth then depth else d, if n < number then number else n;
          forall k | 0 <= k < i ensures Within(ms[k].value, d', n') {
            WithinWider(ms[k].value, depth, number, d', n');
          }
          WithinWider(ms[i].value, d, n, d', n');
          depth, number := d', n';
        }
        depth := depth + 1;
      case _ =>
    }
  }

  /** Sorting members changes no bound. */
  lemma {:induction false} CanonWithinIff(v: Value, depth: int, number: nat)
    ensures Within(Canon(v), depth, number) <==> Within(v, depth, number)
  {
    match v {
      case Arr(items) =>
        forall i | 0 <= i < |items|
          ensures Within(Canon(items[i]), depth - 1, number) <==> Within(items[i], depth - 1, number)
        {
          CanonWithinIff(items[i], depth - 1, number);
        }
        ArrayWithinIff(items, depth, number);
      case Obj(ms) =>
        forall i | 0 <= i < |ms|
          ensures Within(Canon(ms[i].value), depth - 1, number) <==> Within(ms[i].value, depth - 1, number)
        {
          CanonWithinIff(ms[i].value, depth - 1, number);
        }
        ObjectWithinIff(ms, depth, number);
      case _ =>
    }
  }

  lemma ArrayWithinIff(items: seq<Value>, depth: int, number: nat)
    requires forall i :: 0 <= i < |items| ==>
               (Within(Canon(items[i]), depth - 1, number) <==> Within(items[i], depth - 1, number))
    ensures Within(Canon(Arr(items)), depth, number) <==> Within(Arr(items), depth, number)
  {
    var c := Canon(Arr(items)).items;
    assert |c| == |items| && forall i :: 0 <= i < |items| ==> c[i] == Canon(items[i]);
  }

  lemma ObjectWithinIff(ms: seq<Member>, depth: int, number: nat)
    requires forall i :: 0 <= i < |ms| ==>
               (Within(Canon(ms[i].value), depth - 1, number) <==> Within(ms[i].value, depth - 1, number))
    ensures Within(Canon(Obj(ms)), depth, number) <==> Within(Obj(ms), depth, number)
  {
    var cs := CanonMembers(ms);
    SortKeeps(cs);
    var r := Sort(cs);
    assert Canon(Obj(ms)) == Obj(r);
    hide Sort, Canon;
    if Within(Obj(ms), depth, number) {
      forall i | 0 <= i < |r| ensures Within(r[i].value, depth - 1, number) {
        assert r[i] in cs;
      }
    }
    if Within(Obj(r), depth, number) {
      forall i | 0 <= i < |ms| ensures Within(ms[i].value, depth - 1, number) {
        assert cs[i] in r;
      }
    }
  }

  // ---- main results ----

  /** A dictionary-shaped value whose strings can be encoded: exactly what `dumps` succeeds on. */
  ghost predicate Printable(v: Value) {
    IsDict(v) && Encodable(v)
  }

  lemma PrintedDocument(v: Value, lim: Limits)
    requires Printable(v) && Within(v, lim.depth, lim.number)
    ensures LoadsWithin(Utf8(Plain(v)), lim) == Some(v)
  {
    hide Utf8, Plain, ParseValue, ValidUtf8, Within;
    var s := Utf8(Plain(v));
    PlainScalars(v);
    Utf8IsValid(Plain(v));
    PrintedReads(v, 0, lim);
    FirstByte(v);
    NoSpace(v, []);
    assert Follows([]) && s + [] == s;
    assert ParseValue(s + [], 0, lim) == Done(v, []);
  }

  /** The round trip, exactly: what `dumps` writes for a printable value is read back as the same value when
      its integers are at most 2147483647 in size and it is nested at most 32 deep, and rejected otherwise. */
  lemma RoundTripIff(v: Value, lim: Limits)
    requires Printable(v)
    ensures Dumps(v).Ok?
    ensures LoadsWithin(Dumps(v).value, lim) == (if Within(v, lim.depth, lim.number) then Some(Canon(v)) else None)
    ensures Equal(Canon(v), v) && Equal(v, Canon(v))
  {
    CanonIsEqual(v);
    CanonWithinIff(v, lim.depth, lim.number);
    var c, s := Canon(v), Dumps(v).value;
    hide Canon, Equal, Plain, Utf8, LoadsWithin;
    if Within(c, lim.depth, lim.number) {
      PrintedDocument(c, lim);
    } else {
      var depth, number := Fits(c);
      var wide := Limits(if depth < lim.depth then lim.depth else depth,
        if number < lim.number then lim.number else number);
      WithinWider(c, depth, number, wide.depth, wide.number);
      PrintedDocument(c, wide);
      WiderLoads(s, lim, wide);
      LoadedIsGood(s, lim);
    }
  }

  lemma WiderLoads(s: Bytes, lim: Limits, wide: Limits)
    requires Tighter(lim, wide)
    ensures LoadsWithin(s, lim).Some? ==> LoadsWithin(s, wide) == LoadsWithin(s, lim)
  {
    WiderReads(SkipWs(s), 0, lim, wide);
  }

  /** Whatever `loads` accepts is printable, with integers and nesting within the limits. */
  lemma LoadedIsGood(s: Bytes, lim: Limits)
    ensures LoadsWithin(s, lim).Some? ==>
              Printable(LoadsWithin(s, lim).value) && Within(LoadsWithin(s, lim).value, lim.depth, lim.number)
  {
    ParsedIsGood(SkipWs(s), 0, lim);
    hide ParseValue;
  }

  /** The wire format: `loads(dumps(v)) == v` exactly for the values the wire admits. */
  lemma WireRoundTrip(v: Value)
    requires Printable(v)
    ensures Loads(Dumps(v).value) == (if Within(v, 32, 2147483647) then Some(Canon(v)) else None)
    ensures Equal(Canon(v), v)
  {
    RoundTripIff(v, WIRE);
  }

  /** Canonicity: two values are printed alike exactly when they are equal, whatever the insertion order of
      their dictionaries; in particular different values are printed differently. */
  lemma CanonicalIff(v: Value, w: Value)
    requires Printable(v) && Printable(w)
    ensures Dumps(v) == Dumps(w) <==> Equal(v, w)
  {
    hide Canon, Equal, Plain, Utf8, LoadsWithin, Within, Encodable, IsDict;
    CanonEqualIff(v, w);
    var d1, n1 := Fits(v);
    var d2, n2 := Fits(w);
    var lim := Limits(d1 + d2, n1 + n2);
    WithinWider(v, d1, n1, d1 + d2, n1 + n2);
    WithinWider(w, d2, n2, d1 + d2, n1 + n2);
    RoundTripIff(v, lim);
    RoundTripIff(w, lim);
  }

  /** Whatever text is accepted, printing and reading again changes nothing, and a second print gives the
      same bytes. */
  lemma LoadsIdempotent(s: Bytes)
    requires Loads(s).Some?
    ensures var v := Loads(s).value;
            && Dumps(v).Ok?
            && Loads(Dumps(v).value).Some? && Equal(Loads(Dumps(v).value).value, v)
            && Dumps(Loads(Dumps(v).value).value) == Dumps(v)
  {
    LoadedIsGood(s, WIRE);
    var v := Loads(s).value;
    RoundTripIff(v, WIRE);
    CanonIsEqual(v);
    CanonicalIff(Canon(v), v);
    hide Canon, Equal, Plain, Utf8, LoadsWithin;
  }
}
