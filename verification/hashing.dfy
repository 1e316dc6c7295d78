/** The framing of everything that is hashed or signed: a label, a zero byte, and the canonical bytes. */
module Hashing {
  import opened Types
  import opened Unicode
  import opened Json
  import opened JsonPrinter
  import opened Canonical

  /** SHA-256 over bytes, as an uninterpreted function. */
  type Sha = Bytes -> string

  function Label(kind: string): (t: Text)
    requires forall i :: 0 <= i < |kind| ==> 0 < kind[i] as int < 0x80
    ensures |t| == |kind| && forall i :: 0 <= i < |t| ==> t[i] == kind[i] as int
  {
    seq(|kind|, i requires 0 <= i < |kind| => kind[i] as int)
  }

  const D_CONFIG := Label("LEXWATT-CONFIG/1")
  const D_ACTION := Label("LEXWATT-ACTION/1")
  const D_EVENT := Label("LEXWATT-EVENT/1")
  const D_REQUEST := Label("LEXWATT-REQUEST/1")
  const SIGN_EVENT := Label("LEXWATT-SIGN/1")
  const SIGN_TOKEN := Label("LEXWATT-TOKEN/1")

  const DOMAINS := [D_CONFIG, D_ACTION, D_EVENT, D_REQUEST, SIGN_EVENT, SIGN_TOKEN]

  /** A label free of zero bytes. */
  predicate IsLabel(t: Text) {
    forall i :: 0 <= i < |t| ==> 0 < t[i] < 0x80
  }

  function Frame(domain: Text, payload: Bytes): Bytes {
    Utf8(domain) + [0] + payload
  }

  /** `d`: the hash of a value under a label, or an error if the value cannot be printed. */
  ghost function D(sha: Sha, domain: Text, v: Value): Result<string, Code> {
    match Dumps(v)
    case Err(code) => Err(code)
    case Ok(bytes) => Ok(sha(Frame(domain, bytes)))
  }

  /** A frame determines its label and its payload. */
  lemma {:induction false} FrameInjective(a: Text, b: Text, x: Bytes, y: Bytes)
    requires IsLabel(a) && IsLabel(b)
    ensures Frame(a, x) == Frame(b, y) <==> a == b && x == y
  {
    LabelBytes(a);
    LabelBytes(b);
    var f, g := Frame(a, x), Frame(b, y);
    if f == g {
      assert (a == [] <==> f[0] == 0) && (b == [] <==> g[0] == 0);
      if a == [] {
        assert f[1..] == x && g[1..] == y;
      } else {
        assert f[0] == a[0] && g[0] == b[0];
        assert Frame(a[1..], x) == f[1..] && Frame(b[1..], y) == g[1..] by {
          LabelBytes(a[1..]);
          LabelBytes(b[1..]);
        }
        FrameInjective(a[1..], b[1..], x, y);
        assert a == [a[0]] + a[1..] && b == [b[0]] + b[1..];
      }
    }
  }

  lemma {:induction false} LabelBytes(t: Text)
    requires IsLabel(t)
    ensures Utf8(t) == t
  {
    if t != [] {
      LabelBytes(t[1..]);
    }
  }

  /** Two printable values hash alike under two labels only if they are the same label and equal values,
      or their two different frames are a collision of the hash. */
  lemma SameDigest(sha: Sha, a: Text, v: Value, b: Text, w: Value)
    requires IsLabel(a) && IsLabel(b) && Printable(v) && Printable(w)
    ensures D(sha, a, v).Ok? && D(sha, b, w).Ok?
    ensures a == b && Equal(v, w) ==> D(sha, a, v) == D(sha, b, w)
    ensures D(sha, a, v) == D(sha, b, w) ==>
              (a == b && Equal(v, w))
              || (var f, g := Frame(a, Dumps(v).value), Frame(b, Dumps(w).value); f != g && sha(f) == sha(g))
  {
    CanonicalIff(v, w);
    FrameInjective(a, b, Dumps(v).value, Dumps(w).value);
    hide Frame, Equal;
  }

  /** The six domains are separate: no bytes framed in one are ever the bytes framed in another. */
  lemma DomainsSeparate(x: Bytes, y: Bytes)
    ensures forall i, j :: 0 <= i < j < |DOMAINS| ==> Frame(DOMAINS[i], x) != Frame(DOMAINS[j], y)
  {
    forall i, j | 0 <= i < j < |DOMAINS| ensures Frame(DOMAINS[i], x) != Frame(DOMAINS[j], y) {
      hide Frame;
      assert IsLabel(DOMAINS[i]) && IsLabel(DOMAINS[j]);
      assert DOMAINS[i][8] != DOMAINS[j][8];
      FrameInjective(DOMAINS[i], DOMAINS[j], x, y);
    }
  }
}
