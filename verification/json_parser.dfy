/** The strict JSON parser: a function from bytes to values, and the object that walks a position. */
module JsonParser {
  import opened Types
  import opened Unicode
  import opened Json

  datatype Parsed<T> = Done(value: T, rest: Bytes) | Fail

  const MAX_DEPTH := 32
  const MAX_JSON_INT: nat := 2147483647

  /** What the parser of the repository admits. */
  const WIRE := Limits(MAX_DEPTH, MAX_JSON_INT)

  predicate IsSpace(b: Byte) {
    b == 0x20 || b == 0x09 || b == 0x0A || b == 0x0D
  }

  function SkipWs(s: Bytes): (r: Bytes)
    ensures |r| <= |s|
  {
    if s != [] && IsSpace(s[0]) then SkipWs(s[1..]) else s
  }

  function Literal(s: Bytes, lit: Bytes, v: Value): (r: Parsed<Value>)
    requires lit != []
    ensures r.Done? ==> |r.rest| < |s|
  {
    if lit <= s then Done(v, s[|lit|..]) else Fail
  }

  // ---- numbers ----

  /** The longest run of digits, read into a number. */
  function DigitRun(s: Bytes, acc: nat): (r: (nat, Bytes))
    ensures |r.1| <= |s|
  {
    if s != [] && IsDigit(s[0]) then DigitRun(s[1..], acc * 10 + (s[0] - 0x30)) else (acc, s)
  }

  predicate StartsFraction(s: Bytes) {
    s != [] && (s[0] == 0x2E || s[0] == 0x65 || s[0] == 0x45)
  }

  function Signed(neg: bool, n: nat): int {
    if neg then -(n as int) else n
  }

  /** An integer without leading zeros, fraction or exponent, of bounded size. */
  function Number(s: Bytes, limit: nat): (r: Parsed<Value>)
    ensures r.Done? ==> |r.rest| < |s|
  {
    var neg := s != [] && s[0] == 0x2D;
    var t := if neg then s[1..] else s;
    if t == [] || !IsDigit(t[0]) then Fail
    else if t[0] == 0x30 && |t| > 1 && IsDigit(t[1]) then Fail
    else
      var (n, u) := DigitRun(t[1..], t[0] - 0x30);
      if StartsFraction(u) || n > limit then Fail else Done(Num(Signed(neg, n)), u)
  }

  // ---- strings ----

  function Unescape(e: Byte): Option<CodePoint> {
    if e == 0x22 then Some(0x22)
    else if e == 0x5C then Some(0x5C)
    else if e == 0x2F then Some(0x2F)
    else if e == 0x62 then Some(0x08)
    else if e == 0x66 then Some(0x0C)
    else if e == 0x6E then Some(0x0A)
    else if e == 0x72 then Some(0x0D)
    else if e == 0x74 then Some(0x09)
    else None
  }

  /** A hexadecimal digit of either case. */
  function HexValue(b: Byte): Option<nat> {
    if 0x30 <= b <= 0x39 then Some(b - 0x30)
    else if 0x61 <= b <= 0x66 then Some(b - 0x61 + 10)
    else if 0x41 <= b <= 0x46 then Some(b - 0x41 + 10)
    else None
  }

  /** Four hexadecimal digits. */
  function Hex4(s: Bytes): (r: Option<nat>)
    requires |s| == 4
    ensures r.Some? ==> r.value < 0x1_0000
  {
    var a, b, c, d := HexValue(s[0]), HexValue(s[1]), HexValue(s[2]), HexValue(s[3]);
    if a.None? || b.None? || c.None? || d.None? then None
    else Some(a.value * 4096 + b.value * 256 + c.value * 16 + d.value)
  }

  function Combine(high: int, low: int): CodePoint
    requires 0xD800 <= high <= 0xDBFF && 0xDC00 <= low <= 0xDFFF
  {
    0x1_0000 + (high - 0xD800) * 1024 + (low - 0xDC00)
  }

  /** After a backslash and a u: four digits, and a second escape when they name a high surrogate. */
  function UEscape(s: Bytes): (r: Parsed<CodePoint>)
    ensures r.Done? ==> |r.rest| < |s|
  {
    if |s| < 4 || Hex4(s[..4]).None? then Fail
    else
      var cp := Hex4(s[..4]).value;
      if !(0xD800 <= cp <= 0xDBFF) then Done(cp, s[4..])
      else if |s| < 10 || s[4] != 0x5C || s[5] != 0x75 || Hex4(s[6..10]).None? then Fail
      else
        var low := Hex4(s[6..10]).value;
        if !(0xDC00 <= low <= 0xDFFF) then Fail else Done(Combine(cp, low), s[10..])
  }

  /** One character of a string: escaped, or as it stands. */
  function StringChar(s: Bytes): (r: Parsed<CodePoint>)
    ensures r.Done? ==> |r.rest| < |s|
  {
    if s == [] || s[0] < 0x20 then Fail
    else if s[0] == 0x5C then
      if |s| < 2 then Fail
      else if s[1] == 0x75 then UEscape(s[2..])
      else
        match Unescape(s[1])
        case None => Fail
        case Some(c) => Done(c, s[2..])
    else
      match DecodeOne(s)
      case Malformed => Fail
      case Decoded(c, rest) => Done(c, rest)
  }

  /** The rest of a string after its opening quote; `acc` is what was read so far. */
  function StringBody(s: Bytes, acc: Text): (r: Parsed<Text>)
    ensures r.Done? ==> |r.rest| < |s|
  {
    if s == [] then Fail
    else if s[0] == 0x22 then if Scalars(acc) then Done(acc, s[1..]) else Fail
    else
      match StringChar(s)
      case Fail => Fail
      case Done(c, rest) => StringBody(rest, acc + [c])
  }

  // ---- values ----

  predicate HasKey(ms: seq<Member>, k: Text) {
    exists i :: 0 <= i < |ms| && ms[i].key == k
  }

  function ParseValue(s: Bytes, depth: int, lim: Limits): (r: Parsed<Value>)
    ensures r.Done? ==> |r.rest| < |s|
    decreases |s|, 1
  {
    if depth > lim.depth || s == [] then Fail
    else if s[0] == 0x7B then
      var t := SkipWs(s[1..]);
      if t != [] && t[0] == 0x7D then Done(Obj([]), t[1..]) else ParseMembers(t, depth, [], lim)
    else if s[0] == 0x5B then
      var t := SkipWs(s[1..]);
      if t != [] && t[0] == 0x5D then Done(Arr([]), t[1..]) else ParseItems(t, depth, [], lim)
    else if s[0] == 0x22 then
      match StringBody(s[1..], [])
      case Fail => Fail
      case Done(str, rest) => Done(Str(str), rest)
    else if s[0] == 0x74 then Literal(s, [0x74, 0x72, 0x75, 0x65], Bool(true))
    else if s[0] == 0x66 then Literal(s, [0x66, 0x61, 0x6C, 0x73, 0x65], Bool(false))
    else if s[0] == 0x6E then Literal(s, [0x6E, 0x75, 0x6C, 0x6C], Null)
    else if s[0] == 0x2D || IsDigit(s[0]) then Number(s, lim.number)
    else Fail
  }

  /** The entries of an array from the current one on. */
  function ParseItems(s: Bytes, depth: int, acc: seq<Value>, lim: Limits): (r: Parsed<Value>)
    ensures r.Done? ==> |r.rest| < |s|
    decreases |s|, 2
  {
    match ParseValue(SkipWs(s), depth + 1, lim)
    case Fail => Fail
    case Done(v, rest) =>
      var t := SkipWs(rest);
      if t == [] then Fail
      else if t[0] == 0x5D then Done(Arr(acc + [v]), t[1..])
      else if t[0] == 0x2C then ParseItems(t[1..], depth, acc + [v], lim)
      else Fail
  }

  /** A key and its colon, up to the value. */
  function ParseKey(s: Bytes): (r: Parsed<Text>)
    ensures r.Done? ==> |r.rest| < |s|
  {
    var t := SkipWs(s);
    if t == [] || t[0] != 0x22 then Fail
    else
      match StringBody(t[1..], [])
      case Fail => Fail
      case Done(k, rest) =>
        var u := SkipWs(rest);
        if u == [] || u[0] != 0x3A then Fail else Done(k, SkipWs(u[1..]))
  }

  /** The members of an object from the current one on. */
  function ParseMembers(s: Bytes, depth: int, acc: seq<Member>, lim: Limits): (r: Parsed<Value>)
    ensures r.Done? ==> |r.rest| < |s|
    decreases |s|, 2
  {
    match ParseKey(s)
    case Fail => Fail
    case Done(k, rest) =>
      match ParseValue(rest, depth + 1, lim)
      case Fail => Fail
      case Done(v, rest) =>
        var t := SkipWs(rest);
        if HasKey(acc, k) || t == [] then Fail
        else if t[0] == 0x7D then Done(Obj(acc + [Member(k, v)]), t[1..])
        else if t[0] == 0x2C then ParseMembers(t[1..], depth, acc + [Member(k, v)], lim)
        else Fail
  }

  /** A whole document. */
  function ParseDocument(s: Bytes, lim: Limits): Option<Value> {
    match ParseValue(SkipWs(s), 0, lim)
    case Fail => None
    case Done(v, rest) => if SkipWs(rest) == [] then Some(v) else None
  }

  predicate HasMark(s: Bytes) {
    |s| >= 3 && s[0] == 0xEF && s[1] == 0xBB && s[2] == 0xBF
  }

  /** `loads`: no byte order mark, valid UTF-8, one document within the limits. */
  function LoadsWithin(s: Bytes, lim: Limits): Option<Value> {
    if HasMark(s) || !ValidUtf8(s) then None else ParseDocument(s, lim)
  }

  function Loads(s: Bytes): Option<Value> {
    LoadsWithin(s, WIRE)
  }
}
