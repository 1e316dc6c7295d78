/** JSON values, when two of them are equal, and the canonical printer. */
module Json {
  import opened Types
  import opened Unicode

  /** An object keeps its members in insertion order, as a Python dictionary does. */
  datatype Value =
    | Null
    | Bool(b: bool)
    | Num(n: int)
    | Str(s: Text)
    | Arr(items: seq<Value>)
    | Obj(members: seq<Member>)
  datatype Member = Member(key: Text, value: Value)

  // ---- what values there are ----

  ghost predicate UniqueKeys(ms: seq<Member>) {
    forall i, j :: 0 <= i < j < |ms| ==> ms[i].key != ms[j].key
  }

  /** A value whose dictionaries have distinct keys. */
  ghost predicate IsDict(v: Value) {
    match v
    case Arr(items) => forall i :: 0 <= i < |items| ==> IsDict(items[i])
    case Obj(ms) => UniqueKeys(ms) && forall i :: 0 <= i < |ms| ==> IsDict(ms[i].value)
    case _ => true
  }

  /** All strings and keys are free of surrogates. */
  ghost predicate Encodable(v: Value) {
    match v
    case Str(s) => Scalars(s)
    case Arr(items) => forall i :: 0 <= i < |items| ==> Encodable(items[i])
    case Obj(ms) => forall i :: 0 <= i < |ms| ==> Scalars(ms[i].key) && Encodable(ms[i].value)
    case _ => true
  }

  /** How much nesting and how large integers a parser admits. */
  datatype Limits = Limits(depth: int, number: nat)

  /** Nested at most `depth` levels deep, with integers up to `number`. */
  ghost predicate Within(v: Value, depth: int, number: nat) {
    && 0 <= depth
    && match v
       case Num(n) => n <= number && -n <= number
       case Arr(items) => forall i :: 0 <= i < |items| ==> Within(items[i], depth - 1, number)
       case Obj(ms) => forall i :: 0 <= i < |ms| ==> Within(ms[i].value, depth - 1, number)
       case _ => true
  }

  /** Python's `==`: dictionaries are equal whatever the order of their entries. */
  ghost predicate Equal(v: Value, w: Value) {
    match v
    case Arr(items) => w.Arr? && |items| == |w.items| && forall i :: 0 <= i < |items| ==> Equal(items[i], w.items[i])
    case Obj(ms) => w.Obj? && |ms| == |w.members| && Covered(ms, w.members)
    case _ => v == w
  }

  /** Every member of `a` has its key in `b`, with an equal value. */
  ghost predicate Covered(a: seq<Member>, b: seq<Member>) {
    forall i :: 0 <= i < |a| ==> Lookup(b, a[i].key).Some? && Equal(a[i].value, Lookup(b, a[i].key).value)
  }

  function Lookup(ms: seq<Member>, k: Text): Option<Value> {
    if ms == [] then None
    else if ms[0].key == k then Some(ms[0].value)
    else Lookup(ms[1..], k)
  }

  lemma {:induction false} LookupIff(ms: seq<Member>, k: Text)
    requires UniqueKeys(ms)
    ensures Lookup(ms, k).Some? ==> Member(k, Lookup(ms, k).value) in ms
    ensures forall i :: 0 <= i < |ms| && ms[i].key == k ==> Lookup(ms, k) == Some(ms[i].value)
  {
    if ms != [] {
      LookupIff(ms[1..], k);
      forall i | 0 <= i < |ms| && ms[i].key == k ensures Lookup(ms, k) == Some(ms[i].value) {
        if i > 0 { assert ms[1..][i - 1] == ms[i]; }
      }
    }
  }

  // ---- sorting by key ----

  function Insert(m: Member, ms: seq<Member>): seq<Member> {
    if ms == [] || KeyLess(m.key, ms[0].key) then [m] + ms else [ms[0]] + Insert(m, ms[1..])
  }

  /** `sorted(value.keys(), key=_utf16_sort_key)`, with the values along. */
  function Sort(ms: seq<Member>): seq<Member> {
    if ms == [] then [] else Insert(ms[|ms| - 1], Sort(ms[..|ms| - 1]))
  }

  ghost predicate StrictlySorted(ms: seq<Member>) {
    forall i, j :: 0 <= i < j < |ms| ==> KeyLess(ms[i].key, ms[j].key)
  }

  lemma {:induction false} InsertKeeps(m: Member, ms: seq<Member>)
    ensures multiset(Insert(m, ms)) == multiset(ms) + multiset{m}
    ensures |Insert(m, ms)| == |ms| + 1
  {
    if ms != [] && !KeyLess(m.key, ms[0].key) {
      InsertKeeps(m, ms[1..]);
      assert ms == [ms[0]] + ms[1..];
    }
  }

  /** Sorting loses nothing and adds nothing. */
  lemma {:induction false} SortKeeps(ms: seq<Member>)
    ensures multiset(Sort(ms)) == multiset(ms) && |Sort(ms)| == |ms|
    ensures forall m :: m in Sort(ms) <==> m in ms
  {
    if ms != [] {
      SortKeeps(ms[..|ms| - 1]);
      InsertKeeps(ms[|ms| - 1], Sort(ms[..|ms| - 1]));
      assert ms == ms[..|ms| - 1] + [ms[|ms| - 1]];
    }
    assert forall m :: m in Sort(ms) <==> m in multiset(Sort(ms));
    assert forall m :: m in ms <==> m in multiset(ms);
  }

  lemma {:induction false} InsertSorts(m: Member, ms: seq<Member>)
    requires StrictlySorted(ms) && Scalars(m.key)
    requires forall x :: x in ms ==> Scalars(x.key) && x.key != m.key
    ensures StrictlySorted(Insert(m, ms))
  {
    if ms == [] {
    } else if KeyLess(m.key, ms[0].key) {
      forall j | 0 < j < |ms| ensures KeyLess(m.key, ms[j].key) {
        assert KeyLess(ms[0].key, ms[j].key);
        LexTransitive(BigEndian(Utf16(m.key)), BigEndian(Utf16(ms[0].key)), BigEndian(Utf16(ms[j].key)));
      }
    } else {
      assert ms[0] in ms;
      KeysTotal(m.key, ms[0].key);
      InsertSorts(m, ms[1..]);
      var r := Insert(m, ms[1..]);
      InsertKeeps(m, ms[1..]);
      forall j | 0 <= j < |r| ensures KeyLess(ms[0].key, r[j].key) {
        assert r[j] in multiset(r);
        if r[j] != m { assert r[j] in ms[1..]; }
      }
    }
  }

  ghost predicate EncodableKeys(ms: seq<Member>) {
    forall i :: 0 <= i < |ms| ==> Scalars(ms[i].key)
  }

  /** Distinct encodable keys come out strictly increasing. */
  lemma {:induction false} SortSorts(ms: seq<Member>)
    requires UniqueKeys(ms) && EncodableKeys(ms)
    ensures StrictlySorted(Sort(ms))
  {
    if ms != [] {
      var n := |ms| - 1;
      SortSorts(ms[..n]);
      SortKeeps(ms[..n]);
      InsertSorts(ms[n], Sort(ms[..n]));
    }
  }

  /** In two strictly sorted lists of the same members, equal members stand at equal places. */
  lemma {:induction false} SortedAtLeast(a: seq<Member>, b: seq<Member>, i: nat, k: nat)
    requires StrictlySorted(a) && StrictlySorted(b) && forall m :: m in a ==> m in b
    requires i < |a| && k < |b| && a[i] == b[k]
    requires forall j :: 0 <= j < |b| ==> Scalars(b[j].key)
    ensures i <= k
  {
    if i > 0 {
      assert a[i - 1] in a;
      var k' :| 0 <= k' < |b| && b[k'] == a[i - 1];
      SortedAtLeast(a, b, i - 1, k');
      assert KeyLess(a[i - 1].key, a[i].key);
      KeysTotal(b[k].key, b[k'].key);
    }
  }

  lemma {:induction false} SortedAtMost(a: seq<Member>, b: seq<Member>, i: nat, k: nat)
    requires StrictlySorted(a) && StrictlySorted(b) && (forall m :: m in a ==> m in b) && |a| == |b|
    requires i < |a| && k < |b| && a[i] == b[k]
    requires forall j :: 0 <= j < |b| ==> Scalars(b[j].key)
    ensures k <= i
    decreases |a| - i
  {
    if i + 1 < |a| {
      assert a[i + 1] in a;
      var k' :| 0 <= k' < |b| && b[k'] == a[i + 1];
      SortedAtMost(a, b, i + 1, k');
      assert KeyLess(a[i].key, a[i + 1].key);
      KeysTotal(b[k].key, b[k'].key);
    }
  }

  /** A strictly sorted list is determined by its members. */
  lemma SortedUnique(a: seq<Member>, b: seq<Member>)
    requires StrictlySorted(a) && StrictlySorted(b) && |a| == |b| && forall m :: m in a ==> m in b
    requires forall j :: 0 <= j < |b| ==> Scalars(b[j].key)
    ensures a == b
  {
    forall i | 0 <= i < |a| ensures a[i] == b[i] {
      assert a[i] in a;
      var k :| 0 <= k < |b| && b[k] == a[i];
      SortedAtLeast(a, b, i, k);
      SortedAtMost(a, b, i, k);
    }
  }

  // ---- the canonical form of a value ----

  /** The same value with every object's members in key order. */
  function Canon(v: Value): Value {
    match v
    case Arr(items) => Arr(seq(|items|, i requires 0 <= i < |items| => Canon(items[i])))
    case Obj(ms) => Obj(Sort(CanonMembers(ms)))
    case _ => v
  }

  function CanonMembers(ms: seq<Member>): (r: seq<Member>)
    ensures |r| == |ms| && forall i :: 0 <= i < |ms| ==> r[i] == Member(ms[i].key, Canon(ms[i].value))
  {
    seq(|ms|, i requires 0 <= i < |ms| => Member(ms[i].key, Canon(ms[i].value)))
  }

  lemma CanonKeys(ms: seq<Member>)
    requires UniqueKeys(ms) && EncodableKeys(ms)
    ensures StrictlySorted(Sort(CanonMembers(ms))) && |Sort(CanonMembers(ms))| == |ms|
    ensures forall m :: m in Sort(CanonMembers(ms)) <==> m in CanonMembers(ms)
    ensures EncodableKeys(Sort(CanonMembers(ms)))
  {
    var cs := CanonMembers(ms);
    SortSorts(cs);
    SortKeeps(cs);
    var r := Sort(cs);
    forall i | 0 <= i < |r| ensures Scalars(r[i].key) {
      assert r[i] in cs;
    }
  }

  /** Canonical forms are equal exactly when the values are: insertion order is all they forget. */
  lemma {:induction false} CanonEqualIff(v: Value, w: Value)
    requires IsDict(v) && IsDict(w) && Encodable(v) && Encodable(w)
    ensures Canon(v) == Canon(w) <==> Equal(v, w)
  {
    if v.Arr? && w.Arr? && |v.items| == |w.items| {
      forall i | 0 <= i < |v.items| ensures Canon(v.items[i]) == Canon(w.items[i]) <==> Equal(v.items[i], w.items[i]) {
        CanonEqualIff(v.items[i], w.items[i]);
      }
      ArraysEqualIff(v.items, w.items);
    } else if v.Obj? && w.Obj? && |v.members| == |w.members| {
      forall i, j | 0 <= i < |v.members| && 0 <= j < |w.members|
        ensures Canon(v.members[i].value) == Canon(w.members[j].value)
                <==> Equal(v.members[i].value, w.members[j].value)
      {
        CanonEqualIff(v.members[i].value, w.members[j].value);
      }
      ObjectsEqualIff(v.members, w.members);
    } else if v.Obj? && w.Obj? {
      CanonKeys(v.members);
      CanonKeys(w.members);
      assert Canon(v) == Obj(Sort(CanonMembers(v.members))) && Canon(w) == Obj(Sort(CanonMembers(w.members)));
      EqualObjects(v.members, w.members);
    } else if v.Arr? && w.Arr? {
      assert |Canon(v).items| == |v.items| && |Canon(w).items| == |w.items|;
    }
  }

  lemma ArraysEqualIff(a: seq<Value>, b: seq<Value>)
    requires |a| == |b|
    requires forall i :: 0 <= i < |a| ==> (Canon(a[i]) == Canon(b[i]) <==> Equal(a[i], b[i]))
    ensures Canon(Arr(a)) == Canon(Arr(b)) <==> Equal(Arr(a), Arr(b))
  {
    var x, y := Canon(Arr(a)).items, Canon(Arr(b)).items;
    if x == y {
      forall i | 0 <= i < |a| ensures Equal(a[i], b[i]) {
        assert x[i] == Canon(a[i]) && y[i] == Canon(b[i]);
      }
    } else {
      assert exists i :: 0 <= i < |a| && x[i] != y[i];
    }
  }

  ghost predicate ValuesAgree(a: seq<Member>, b: seq<Member>) {
    forall i, j :: 0 <= i < |a| && 0 <= j < |b| ==>
      (Canon(a[i].value) == Canon(b[j].value) <==> Equal(a[i].value, b[j].value))
  }

  lemma CoveredIff(a: seq<Member>, b: seq<Member>)
    requires ValuesAgree(a, b) && UniqueKeys(b)
    ensures Covered(a, b) <==> forall m :: m in CanonMembers(a) ==> m in CanonMembers(b)
  {
    var x, y := CanonMembers(a), CanonMembers(b);
    hide Canon, Equal, Lookup;
    forall i | 0 <= i < |a|
      ensures Lookup(b, a[i].key).Some? && Equal(a[i].value, Lookup(b, a[i].key).value) <==> x[i] in y
    {
      LookupIff(b, a[i].key);
      if Lookup(b, a[i].key).Some? {
        var j :| 0 <= j < |b| && b[j] == Member(a[i].key, Lookup(b, a[i].key).value);
        assert Equal(a[i].value, b[j].value) <==> Canon(a[i].value) == Canon(b[j].value);
        assert y[j] == x[i] <==> Equal(a[i].value, b[j].value);
        forall k | 0 <= k < |b| && y[k] == x[i] ensures k == j {
        }
      }
    }
    if Covered(a, b) {
      forall m | m in x ensures m in y {
        var i :| 0 <= i < |a| && x[i] == m;
        assert Lookup(b, a[i].key).Some?;
      }
    } else {
      var i :| 0 <= i < |a| && !(Lookup(b, a[i].key).Some? && Equal(a[i].value, Lookup(b, a[i].key).value));
      assert x[i] in x && x[i] !in y;
    }
  }

  lemma SortedEqualIff(a: seq<Member>, b: seq<Member>)
    requires |a| == |b| && UniqueKeys(a) && UniqueKeys(b) && EncodableKeys(a) && EncodableKeys(b)
    ensures Sort(CanonMembers(a)) == Sort(CanonMembers(b))
            <==> forall m :: m in CanonMembers(a) ==> m in CanonMembers(b)
  {
    CanonKeys(a);
    CanonKeys(b);
    hide CanonMembers, Sort, StrictlySorted, Scalars;
    if forall m :: m in CanonMembers(a) ==> m in CanonMembers(b) {
      SortedUnique(Sort(CanonMembers(a)), Sort(CanonMembers(b)));
    } else {
      var m :| m in CanonMembers(a) && m !in CanonMembers(b);
      assert m in Sort(CanonMembers(a)) && m !in Sort(CanonMembers(b));
    }
  }

  lemma ObjectsEqualIff(a: seq<Member>, b: seq<Member>)
    requires |a| == |b| && UniqueKeys(a) && UniqueKeys(b) && EncodableKeys(a) && EncodableKeys(b)
    requires ValuesAgree(a, b)
    ensures Canon(Obj(a)) == Canon(Obj(b)) <==> Equal(Obj(a), Obj(b))
  {
    assert Canon(Obj(a)) == Obj(Sort(CanonMembers(a))) && Canon(Obj(b)) == Obj(Sort(CanonMembers(b)));
    CoveredIff(a, b);
    SortedEqualIff(a, b);
    EqualObjects(a, b);
    hide CanonMembers, Sort;
  }

  /** The canonical form is the same value, is its own canonical form, and keeps every bound. */
  lemma {:induction false} CanonIsEqual(v: Value)
    requires IsDict(v) && Encodable(v)
    ensures IsDict(Canon(v)) && Encodable(Canon(v)) && Equal(Canon(v), v) && Equal(v, Canon(v))
  {
    match v {
      case Arr(items) =>
        forall i | 0 <= i < |items|
          ensures IsDict(Canon(items[i])) && Encodable(Canon(items[i]))
          ensures Equal(Canon(items[i]), items[i]) && Equal(items[i], Canon(items[i]))
        {
          CanonIsEqual(items[i]);
        }
      case Obj(ms) =>
        forall i | 0 <= i < |ms|
          ensures IsDict(Canon(ms[i].value)) && Encodable(Canon(ms[i].value))
          ensures Equal(Canon(ms[i].value), ms[i].value) && Equal(ms[i].value, Canon(ms[i].value))
        {
          CanonIsEqual(ms[i].value);
        }
        CanonObject(ms);
      case _ =>
    }
  }

  lemma CanonObject(ms: seq<Member>)
    requires UniqueKeys(ms) && EncodableKeys(ms)
    requires forall i :: 0 <= i < |ms| ==> var c := Canon(ms[i].value);
               IsDict(c) && Encodable(c) && Equal(c, ms[i].value) && Equal(ms[i].value, c)
    ensures var c := Canon(Obj(ms)); IsDict(c) && Encodable(c) && Equal(c, Obj(ms)) && Equal(Obj(ms), c)
  {
    CanonKeys(ms);
    var r := Sort(CanonMembers(ms));
    assert Canon(Obj(ms)) == Obj(r);
    SortedAreUnique(r);
    CanonCovers(ms);
    EqualObjects(r, ms);
    EqualObjects(ms, r);
    hide Sort, Canon, Equal, Covered, StrictlySorted;
    forall i | 0 <= i < |r| ensures IsDict(r[i].value) && Encodable(r[i].value) {
      assert r[i] in CanonMembers(ms);
    }
  }

  lemma CanonCovers(ms: seq<Member>)
    requires UniqueKeys(ms) && EncodableKeys(ms)
    requires forall i :: 0 <= i < |ms| ==> var c := Canon(ms[i].value); Equal(c, ms[i].value) && Equal(ms[i].value, c)
    ensures var r := Sort(CanonMembers(ms)); Covered(r, ms) && Covered(ms, r)
  {
    CanonKeys(ms);
    var r := Sort(CanonMembers(ms));
    SortedAreUnique(r);
    hide Sort, Canon, StrictlySorted, Equal, Lookup, Scalars;
    SameMembersCover(ms, r);
  }

  /** Lists of the same keys with each other's canonical values cover each other. */
  lemma SameMembersCover(ms: seq<Member>, r: seq<Member>)
    requires UniqueKeys(ms) && UniqueKeys(r)
    requires forall i :: 0 <= i < |ms| ==> var c := Canon(ms[i].value); Equal(c, ms[i].value) && Equal(ms[i].value, c)
    requires forall m :: m in r <==> m in CanonMembers(ms)
    ensures Covered(r, ms) && Covered(ms, r)
  {
    var cs := CanonMembers(ms);
    hide Canon, Equal, Lookup, UniqueKeys;
    forall i | 0 <= i < |r| ensures Lookup(ms, r[i].key).Some? && Equal(r[i].value, Lookup(ms, r[i].key).value) {
      assert r[i] in cs;
      var j :| 0 <= j < |ms| && cs[j] == r[i];
      LookupIff(ms, ms[j].key);
    }
    forall i | 0 <= i < |ms| ensures Lookup(r, ms[i].key).Some? && Equal(ms[i].value, Lookup(r, ms[i].key).value) {
      assert cs[i] in r;
      var j :| 0 <= j < |r| && r[j] == cs[i];
      LookupIff(r, ms[i].key);
    }
  }

  lemma EqualObjects(a: seq<Member>, b: seq<Member>)
    ensures Equal(Obj(a), Obj(b)) <==> |a| == |b| && Covered(a, b)
  {
    hide Covered;
  }

  lemma SortedAreUnique(ms: seq<Member>)
    requires StrictlySorted(ms) && EncodableKeys(ms)
    ensures UniqueKeys(ms)
  {
    hide KeyLess;
    forall i, j | 0 <= i < j < |ms| ensures ms[i].key != ms[j].key {
      KeysTotal(ms[i].key, ms[j].key);
    }
  }
}
