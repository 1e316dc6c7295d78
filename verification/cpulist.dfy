/** CPU lists such as `0-3,8`: reading one, and writing the union of several in compact form. */
module CpuLists {
  import opened Types
  import opened Unicode
  import opened JsonPrinter

  const DASH: CodePoint := 0x2D

  /** The CPUs from `lo` to `hi`; none if `hi` is smaller. */
  datatype Range = Range(lo: nat, hi: nat)

  predicate InRange(r: Range, c: int) {
    r.lo <= c <= r.hi
  }

  function Interval(r: Range): set<int> {
    set c | r.lo <= c <= r.hi && InRange(r, c)
  }

  function Cpus(rs: seq<Range>): set<int> {
    if rs == [] then {} else Cpus(rs[..|rs| - 1]) + Interval(rs[|rs| - 1])
  }

  // ---- reading ----

  /** `str.split`: the pieces between separators. */
  function Split(t: Text, sep: CodePoint): (r: seq<Text>)
    ensures r != []
  {
    if t == [] then [[]]
    else if t[0] == sep then [[]] + Split(t[1..], sep)
    else
      var r := Split(t[1..], sep);
      [[t[0]] + r[0]] + r[1..]
  }

  predicate IsNumber(t: Text) {
    t != [] && forall i :: 0 <= i < |t| ==> IsDigit(t[i])
  }

  /** One part: a number, or two numbers joined by a single dash. */
  function ParsePart(part: Text): Option<Range> {
    if DASH in part then
      var ends := Split(part, DASH);
      if |ends| == 2 && IsNumber(ends[0])
        && IsNumber(ends[1]) then Some(Range(Decimal(ends[0]), Decimal(ends[1]))) else None
    else if IsNumber(part) then Some(Range(Decimal(part), Decimal(part)))
    else None
  }

  function ParseParts(parts: seq<Text>): Option<seq<Range>> {
    if parts == [] then Some([])
    else
      match ParseParts(parts[..|parts| - 1])
      case None => None
      case Some(rs) =>
        match ParsePart(parts[|parts| - 1])
        case None => None
        case Some(r) => Some(rs + [r])
  }

  function CpuSet(t: Text): Option<set<int>> {
    match ParseParts(Split(t, COMMA))
    case None => None
    case Some(rs) => Some(Cpus(rs))
  }

  lemma {:induction false} BadPrefix(parts: seq<Text>, n: nat)
    requires n <= |parts| && ParseParts(parts[..n]).None?
    ensures ParseParts(parts).None?
  {
    if n == |parts| {
      assert parts[..n] == parts;
    } else {
      assert parts[..|parts| - 1][..n] == parts[..n];
      BadPrefix(parts[..|parts| - 1], n);
    }
  }

  /** `cpulist_to_set`: the CPUs named by the parts, gathered one part after the other. */
  method CpulistToSet(t: Text) returns (r: Option<set<int>>)
    ensures r == CpuSet(t)
  {
    var parts := Split(t, COMMA);
    var out: set<int> := {};
    for i := 0 to |parts|
      invariant ParseParts(parts[..i]).Some? && Cpus(ParseParts(parts[..i]).value) == out
    {
      assert parts[..i + 1][..i] == parts[..i];
      var part := ParsePart(parts[i]);
      if part.None? {
        BadPrefix(parts, i + 1);
        return None;
      }
      ghost var rs := ParseParts(parts[..i]).value;
      assert (rs + [part.value])[..|rs|] == rs;
      out := out + Interval(part.value);
    }
    assert parts[..|parts|] == parts;
    return Some(out);
  }

  // ---- compacting ----

  /** Consecutive CPUs gathered into ranges, from left to right. */
  function Compact(s: seq<nat>): seq<Range> {
    if s == [] then []
    else
      var n := |s| - 1;
      Extend(Compact(s[..n]), s[n])
  }

  /** The last range grows by the next CPU, or a new range begins. */
  function Extend(rs: seq<Range>, c: nat): seq<Range> {
    var k := |rs| - 1;
    if rs != [] && rs[k].hi + 1 == c then rs[..k] + [Range(rs[k].lo, c)] else rs + [Range(c, c)]
  }

  /** Ranges that are not empty, increase, and leave a gap between them: none can be made longer. */
  ghost predicate Maximal(rs: seq<Range>) {
    && (forall i :: 0 <= i < |rs| ==> rs[i].lo <= rs[i].hi)
    && (forall i, j :: 0 <= i < j < |rs| ==> rs[i].hi + 1 < rs[j].lo)
  }

  ghost predicate Increasing(s: seq<nat>) {
    forall i, j :: 0 <= i < j < |s| ==> s[i] < s[j]
  }

  /** Membership, range by range. */
  lemma {:induction false} CpusAre(rs: seq<Range>)
    ensures forall c :: c in Cpus(rs) <==> exists i :: 0 <= i < |rs| && InRange(rs[i], c)
  {
    if rs != [] {
      var n := |rs| - 1;
      CpusAre(rs[..n]);
      forall c ensures c in Cpus(rs) <==> exists i :: 0 <= i < |rs| && InRange(rs[i], c) {
        if i :| 0 <= i < |rs| && InRange(rs[i], c) {
          if i < n { assert InRange(rs[..n][i], c); }
        }
      }
    }
  }

  lemma HasCpu(rs: seq<Range>, i: nat, c: int)
    requires i < |rs| && InRange(rs[i], c)
    ensures c in Cpus(rs)
  {
    CpusAre(rs);
  }

  lemma RangeOf(rs: seq<Range>, c: int) returns (i: nat)
    requires c in Cpus(rs)
    ensures i < |rs| && InRange(rs[i], c)
  {
    CpusAre(rs);
    i :| 0 <= i < |rs| && InRange(rs[i], c);
  }

  lemma {:induction false} CompactCovers(s: seq<nat>)
    requires Increasing(s)
    ensures Maximal(Compact(s)) && forall c :: c in Cpus(Compact(s)) <==> c in s
    ensures s != [] ==> Compact(s) != [] && Compact(s)[|Compact(s)| - 1].hi == s[|s| - 1]
    ensures s == [] ==> Compact(s) == []
  {
    if s != [] {
      var n := |s| - 1;
      var init, last := s[..n], s[n];
      CompactCovers(init);
      assert init != [] ==> init[n - 1] < last;
      assert s == init + [last];
      hide Maximal, Cpus, Increasing, Extend;
      CompactStep(Compact(init), last);
    }
  }

  /** Adding one CPU beyond the last keeps the ranges maximal and adds that CPU alone. */
  lemma CompactStep(rs: seq<Range>, c: nat)
    requires Maximal(rs) && (rs != [] ==> rs[|rs| - 1].hi < c)
    ensures Maximal(Extend(rs, c)) && Cpus(Extend(rs, c)) == Cpus(rs) + {c as int}
    ensures Extend(rs, c) != [] && Extend(rs, c)[|Extend(rs, c)| - 1].hi == c
  {
    var k := |rs| - 1;
    if rs != [] && rs[k].hi + 1 == c {
      var r := Range(rs[k].lo, c);
      assert (rs[..k] + [r])[..k] == rs[..k];
      assert Interval(r) == Interval(rs[k]) + {c as int};
      hide Interval;
    } else {
      assert (rs + [Range(c, c)])[..|rs|] == rs;
      assert Interval(Range(c, c)) == {c as int};
      hide Interval;
    }
  }

  function RangeText(r: Range): Text {
    if r.lo == r.hi then Digits(r.lo) else Digits(r.lo) + [DASH] + Digits(r.hi)
  }

  function RangeTexts(rs: seq<Range>): (r: seq<Text>)
    ensures |r| == |rs| && forall i :: 0 <= i < |rs| ==> r[i] == RangeText(rs[i])
  {
    seq(|rs|, i requires 0 <= i < |rs| => RangeText(rs[i]))
  }

  function Render(rs: seq<Range>): Text { Join(RangeTexts(rs)) }

  /** The union of several lists; None if one cannot be read. */
  function UnionOf(lists: seq<Text>): Option<set<int>> {
    if lists == [] then Some({})
    else
      match UnionOf(lists[..|lists| - 1])
      case None => None
      case Some(u) =>
        match CpuSet(lists[|lists| - 1])
        case None => None
        case Some(v) => Some(u + v)
  }

  lemma {:induction false} BadList(lists: seq<Text>, n: nat)
    requires n <= |lists| && UnionOf(lists[..n]).None?
    ensures UnionOf(lists).None?
  {
    if n == |lists| {
      assert lists[..n] == lists;
    } else {
      assert lists[..|lists| - 1][..n] == lists[..n];
      BadList(lists[..|lists| - 1], n);
    }
  }

  /** The compact form is unique: a set of CPUs has one list of maximal ranges. */
  lemma {:induction false} MaximalUnique(a: seq<Range>, b: seq<Range>)
    requires Maximal(a) && Maximal(b) && forall c :: c in Cpus(a) <==> c in Cpus(b)
    ensures a == b
  {
    if a == [] {
      if b != [] { HasCpu(b, 0, b[0].lo); }
    } else if b == [] {
      HasCpu(a, 0, a[0].lo);
    } else {
      var m, n := |a| - 1, |b| - 1;
      LastIsLargest(a, b);
      LastIsLargest(b, a);
      LastReaches(a, b);
      LastReaches(b, a);
      assert a[m] == b[n];
      LastIsApart(a);
      LastIsApart(b);
      MaximalUnique(a[..m], b[..n]);
      assert a == a[..m] + [a[m]] && b == b[..n] + [b[n]];
    }
  }

  lemma LastIsLargest(a: seq<Range>, b: seq<Range>)
    requires a != [] && b != [] && Maximal(a) && Maximal(b) && forall c :: c in Cpus(a) ==> c in Cpus(b)
    ensures a[|a| - 1].hi <= b[|b| - 1].hi
  {
    var m, n := |a| - 1, |b| - 1;
    HasCpu(a, m, a[m].hi);
    var i := RangeOf(b, a[m].hi);
    assert i < n ==> b[i].hi + 1 < b[n].lo;
  }

  lemma LastReaches(a: seq<Range>, b: seq<Range>)
    requires a != [] && b != [] && Maximal(a) && Maximal(b) && forall c :: c in Cpus(a) ==> c in Cpus(b)
    requires a[|a| - 1].hi == b[|b| - 1].hi
    ensures b[|b| - 1].lo <= a[|a| - 1].lo
  {
    var m, n := |a| - 1, |b| - 1;
    if a[m].lo < b[n].lo {
      HasCpu(a, m, b[n].lo - 1);
      var i := RangeOf(b, b[n].lo - 1);
    }
  }

  lemma LastIsApart(rs: seq<Range>)
    requires rs != [] && Maximal(rs)
    ensures Maximal(rs[..|rs| - 1])
    ensures forall c :: c in Cpus(rs[..|rs| - 1]) <==> c in Cpus(rs) && !InRange(rs[|rs| - 1], c)
  {
    CpusAre(rs[..|rs| - 1]);
  }

  // ---- what is written reads back ----

  lemma {:induction false} SplitPlain(t: Text, sep: CodePoint)
    requires sep !in t
    ensures Split(t, sep) == [t]
  {
    if t != [] {
      SplitPlain(t[1..], sep);
      assert [t[0]] + t[1..] == t;
    }
  }

  lemma {:induction false} SplitFirst(t: Text, sep: CodePoint, more: Text)
    requires sep !in t
    ensures Split(t + [sep] + more, sep) == [t] + Split(more, sep)
  {
    var s := t + [sep] + more;
    if t == [] {
      assert s[0] == sep && s[1..] == more;
    } else {
      assert s[0] == t[0] && s[1..] == t[1..] + [sep] + more;
      SplitFirst(t[1..], sep, more);
      assert [t[0]] + t[1..] == t;
    }
  }

  lemma {:induction false} SplitJoin(pieces: seq<Text>)
    requires pieces != [] && forall i :: 0 <= i < |pieces| ==> COMMA !in pieces[i]
    ensures Split(Join(pieces), COMMA) == pieces
  {
    if |pieces| == 1 {
      SplitPlain(pieces[0], COMMA);
    } else {
      SplitFirst(pieces[0], COMMA, Join(pieces[1..]));
      SplitJoin(pieces[1..]);
    }
  }

  lemma RangeReads(r: Range)
    requires r.lo <= r.hi
    ensures COMMA !in RangeText(r) && ParsePart(RangeText(r)) == Some(r)
  {
    DecimalOfDigits(r.lo);
    DecimalOfDigits(r.hi);
    var a, b := Digits(r.lo), Digits(r.hi);
    hide Digits, Decimal, Split;
    if r.lo != r.hi {
      SplitFirst(a, DASH, b);
      SplitPlain(b, DASH);
      assert RangeText(r)[|a|] == DASH;
    }
  }

  lemma {:induction false} PartsRead(rs: seq<Range>)
    requires forall i :: 0 <= i < |rs| ==> rs[i].lo <= rs[i].hi
    ensures ParseParts(RangeTexts(rs)) == Some(rs)
  {
    hide ParsePart, RangeText;
    if rs != [] {
      var n := |rs| - 1;
      PartsRead(rs[..n]);
      RangeReads(rs[n]);
      assert RangeTexts(rs) == RangeTexts(rs[..n]) + [RangeText(rs[n])];
      hide ParseParts, RangeTexts;
      ParsePartsSnoc(RangeTexts(rs[..n]), RangeText(rs[n]));
      assert rs[..n] + [rs[n]] == rs;
    }
  }

  lemma ParsePartsSnoc(parts: seq<Text>, part: Text)
    requires ParseParts(parts).Some? && ParsePart(part).Some?
    ensures ParseParts(parts + [part]) == Some(ParseParts(parts).value + [ParsePart(part).value])
  {
    assert (parts + [part])[..|parts|] == parts;
  }

  /** A nonempty list of ranges, once written, reads back as exactly these ranges. */
  lemma RenderReads(rs: seq<Range>)
    requires rs != [] && forall i :: 0 <= i < |rs| ==> rs[i].lo <= rs[i].hi
    ensures ParseParts(Split(Render(rs), COMMA)) == Some(rs)
  {
    forall i | 0 <= i < |rs| ensures COMMA !in RangeTexts(rs)[i] {
      RangeReads(rs[i]);
    }
    SplitJoin(RangeTexts(rs));
    PartsRead(rs);
  }

  // ---- the union of the domains' CPUs ----

  method Elements<T>(u: set<T>) returns (r: seq<T>)
    ensures (forall x :: x in r <==> x in u) && forall i, j :: 0 <= i < j < |r| ==> r[i] != r[j]
  {
    r := [];
    var todo := u;
    while todo != {}
      invariant todo <= u && forall x :: x in r <==> x in u && x !in todo
      invariant forall i, j :: 0 <= i < j < |r| ==> r[i] != r[j]
      decreases |todo|
    {
      var x :| x in todo;
      r := r + [x];
      todo := todo - {x};
    }
  }

  function InsertCpu(c: nat, s: seq<nat>): seq<nat> {
    if s == [] || c < s[0] then [c] + s else [s[0]] + InsertCpu(c, s[1..])
  }

  lemma {:induction false} InsertIncreases(c: nat, s: seq<nat>)
    requires Increasing(s) && c !in s
    ensures Increasing(InsertCpu(c, s)) && forall x :: x in InsertCpu(c, s) <==> x in s || x == c
  {
    if s != [] && c > s[0] {
      InsertIncreases(c, s[1..]);
      var r := InsertCpu(c, s[1..]);
      forall j | 0 <= j < |r| ensures s[0] < r[j] {
        assert r[j] in r;
        if r[j] != c { assert r[j] in s[1..]; }
      }
    }
  }

  /** `sorted` over a set of CPU numbers. */
  method SortedCpus(u: set<int>) returns (s: seq<nat>)
    requires forall c :: c in u ==> c >= 0
    ensures Increasing(s) && forall c :: c in s <==> c in u
  {
    var all := Elements(u);
    s := [];
    for i := 0 to |all|
      invariant Increasing(s) && forall c :: c in s <==> c in all[..i]
    {
      assert all[i] in all && all[..i + 1] == all[..i] + [all[i]];
      InsertIncreases(all[i], s);
      s := InsertCpu(all[i], s);
    }
    assert all[..|all|] == all;
  }

  lemma {:induction false} CpusNatural(rs: seq<Range>)
    ensures forall c :: c in Cpus(rs) ==> c >= 0
  {
    CpusAre(rs);
  }

  lemma CompactNext(s: seq<nat>, i: nat)
    requires 0 < i < |s|
    ensures Compact(s[..i]) != [] && Compact(s[..i + 1]) == Extend(Compact(s[..i]), s[i])
  {
    assert s[..i + 1][..i] == s[..i];
  }

  /** The loop of `domain_cpus`: `start` and `prev` are the ends of the range being built. */
  method CompactText(cpus: seq<nat>) returns (t: Text)
    requires cpus != []
    ensures t == Render(Compact(cpus))
  {
    var parts: seq<Text> := [];
    var start, prev := cpus[0], cpus[0];
    ghost var done: seq<Range> := [];
    assert cpus[..1] == [cpus[0]] && [cpus[0]][..0] == [];
    for i := 1 to |cpus|
      invariant Compact(cpus[..i]) == done + [Range(start, prev)] && parts == RangeTexts(done)
    {
      CompactNext(cpus, i);
      hide Compact, RangeText;
      var c := cpus[i];
      ghost var rs := done + [Range(start, prev)];
      assert rs[..|rs| - 1] == done;
      if c == prev + 1 {
        prev := c;
      } else {
        parts := parts + [RangeText(Range(start, prev))];
        done := rs;
        start, prev := c, c;
      }
    }
    parts := parts + [RangeText(Range(start, prev))];
    assert cpus[..|cpus|] == cpus && parts == RangeTexts(done + [Range(start, prev)]);
    t := Join(parts);
  }

  /** A list whose ranges are maximal. */
  ghost predicate IsCompact(t: Text) {
    ParseParts(Split(t, COMMA)).Some? && Maximal(ParseParts(Split(t, COMMA)).value)
  }

  lemma {:induction false} UnionNatural(lists: seq<Text>)
    ensures UnionOf(lists).Some? ==> forall c :: c in UnionOf(lists).value ==> c >= 0
  {
    if lists != [] {
      UnionNatural(lists[..|lists| - 1]);
      var last := Split(lists[|lists| - 1], COMMA);
      if ParseParts(last).Some? { CpusNatural(ParseParts(last).value); }
    }
  }

  /** `domain_cpus`: if every list can be read, the empty text for no CPUs at all, and otherwise the compact
      list that reads back as exactly the union of all lists. */
  method DomainCpus(lists: seq<Text>) returns (r: Option<Text>)
    ensures r.Some? <==> UnionOf(lists).Some?
    ensures r.Some? && UnionOf(lists).value == {} ==> r.value == []
    ensures r.Some? && UnionOf(lists).value != {} ==> CpuSet(r.value) == UnionOf(lists) && IsCompact(r.value)
  {
    var out: set<int> := {};
    for i := 0 to |lists|
      invariant UnionOf(lists[..i]) == Some(out)
    {
      assert lists[..i + 1][..i] == lists[..i];
      hide CpuSet;
      var cpus := CpulistToSet(lists[i]);
      if cpus.None? {
        BadList(lists, i + 1);
        return None;
      }
      out := out + cpus.value;
    }
    assert lists[..|lists|] == lists;
    UnionNatural(lists);
    if out == {} {
      return Some([]);
    }
    hide CpuSet, IsCompact, UnionOf;
    var t := CompactList(out);
    return Some(t);
  }

  method CompactList(u: set<int>) returns (t: Text)
    requires u != {} && forall c :: c in u ==> c >= 0
    ensures CpuSet(t) == Some(u) && IsCompact(t)
  {
    var cpus := SortedCpus(u);
    assert cpus != [];
    CompactReads(cpus, u);
    hide Compact, CpuSet, IsCompact;
    t := CompactText(cpus);
  }

  /** The text of a sorted list reads back as the same set. */
  lemma CompactReads(s: seq<nat>, u: set<int>)
    requires s != [] && Increasing(s) && forall c :: c in s <==> c in u
    ensures var t := Render(Compact(s)); CpuSet(t) == Some(u) && IsCompact(t)
  {
    CompactCovers(s);
    var rs := Compact(s);
    MaximalOrdered(rs);
    assert Cpus(rs) == u;
    hide Compact, Maximal, Split, Cpus, Increasing, Render, ParseParts;
    RenderReads(rs);
  }

  lemma MaximalOrdered(rs: seq<Range>)
    requires Maximal(rs)
    ensures forall r :: r in rs ==> r.lo <= r.hi
  {
  }

  /** The empty text, which `domain_cpus` returns for no domains, is not a list that can be read. */
  lemma EmptyIsUnreadable()
    ensures CpuSet([]) == None
  {
    assert Split([], COMMA) == [[]] && ParseParts([[]]) == None;
  }
}
