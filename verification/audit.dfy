/** The signed, hash-chained journal: how the supervisor appends to it, and how a bundle exported from it
    is verified offline. */
module Audit {
  import opened Types
  import Replay
  import opened Streams

  // ---- appending ----

  /** Whose journal it is: run, key, seed, and the primitives used to hash and sign. */
  datatype Signer = Signer(runId: Id, keyId: Id, seed: Seed, crypto: Crypto)

  /** The event id and the clock reading given to one event. */
  datatype Stamp = Stamp(eventId: Id, t: Time)

  /** `event_head`: number and hash of the last event. */
  function HeadOf(j: seq<Entry>): (nat, Hash) {
    (|j|, if j == [] then ZERO_HASH else j[|j| - 1].hash)
  }

  function MakeEntry(s: Signer, seqNo: int, prevHash: Hash, e: Event, stamp: Stamp): Entry {
    var body := Body(s.runId, stamp.eventId, s.keyId, seqNo, prevHash, stamp.t, e);
    var h := s.crypto.bodyHash(body);
    Entry(body, h, s.crypto.sign(s.seed, h))
  }

  /** The journal after a commit of `events`. */
  function Append(s: Signer, j: seq<Entry>, events: seq<Event>, stamps: seq<Stamp>): (r: seq<Entry>)
    requires |stamps| == |events|
    ensures |r| == |j| + |events| && r[..|j|] == j
  {
    if events == [] then j
    else
      var n := |events| - 1;
      var j' := Append(s, j, events[..n], stamps[..n]);
      j' + [MakeEntry(s, HeadOf(j').0 + 1, HeadOf(j').1, events[n], stamps[n])]
  }

  /** The loop of `_commit`: number, link, hash, sign and append the events one by one. */
  method AppendEvents(s: Signer, j: seq<Entry>, events: seq<Event>, stamps: seq<Stamp>) returns (r: seq<Entry>)
    requires |stamps| == |events|
    ensures r == Append(s, j, events, stamps)
  {
    r := j;
    var seqNo, lastHash := |j|, if j == [] then ZERO_HASH else j[|j| - 1].hash;
    for i := 0 to |events|
      invariant r == Append(s, j, events[..i], stamps[..i])
      invariant (seqNo, lastHash) == HeadOf(r)
    {
      assert events[..i + 1][..i] == events[..i] && stamps[..i + 1][..i] == stamps[..i];
      seqNo := seqNo + 1;
      var body := Body(s.runId, stamps[i].eventId, s.keyId, seqNo, lastHash, stamps[i].t, events[i]);
      var h := s.crypto.bodyHash(body);
      r := r + [Entry(body, h, s.crypto.sign(s.seed, h))];
      lastHash := h;
    }
    assert events[..|events|] == events && stamps[..|stamps|] == stamps;
  }

  function Bodies(es: seq<Entry>): (bs: seq<Body>)
    ensures |bs| == |es|
    ensures forall i :: 0 <= i < |es| ==> bs[i] == es[i].body
  {
    seq(|es|, i requires 0 <= i < |es| => es[i].body)
  }

  /** Entry `i` is numbered, linked, hashed and signed by `s`. */
  ghost predicate Sealed(s: Signer, j: seq<Entry>, i: nat)
    requires i < |j|
  {
    var b := j[i].body;
    && b.runId == s.runId && b.keyId == s.keyId
    && b.seqNo == i + 1
    && b.prevHash == (if i == 0 then ZERO_HASH else j[i - 1].hash)
    && 0 <= b.t && (i > 0 ==> j[i - 1].body.t <= b.t)
    && j[i].hash == s.crypto.bodyHash(b)
    && j[i].sig == s.crypto.sign(s.seed, j[i].hash)
  }

  ghost predicate Chained(s: Signer, j: seq<Entry>) {
    forall i :: 0 <= i < |j| ==> Sealed(s, j, i)
  }

  ghost function LastTime(j: seq<Entry>): int {
    if j == [] then 0 else j[|j| - 1].body.t
  }

  ghost predicate Ordered(from: int, stamps: seq<Stamp>) {
    && (stamps != [] ==> from <= stamps[0].t)
    && forall i, k :: 0 <= i <= k < |stamps| ==> stamps[i].t <= stamps[k].t
  }

  /** Event ids are unique in the journal: the ids of a commit differ from each other and from those before. */
  ghost predicate FreshStamps(j: seq<Entry>, stamps: seq<Stamp>) {
    && (forall i, k :: 0 <= i < k < |stamps| ==> stamps[i].eventId != stamps[k].eventId)
    && (forall i, k :: 0 <= i < |stamps| && 0 <= k < |j| ==> stamps[i].eventId != j[k].body.eventId)
  }

  ghost predicate DistinctEvents(j: seq<Entry>) {
    forall i, k :: 0 <= i < k < |j| ==> j[i].body.eventId != j[k].body.eventId
  }

  /** Each appended body carries its own stamp. */
  lemma {:induction false} AppendedStamps(s: Signer, j: seq<Entry>, events: seq<Event>, stamps: seq<Stamp>)
    requires |stamps| == |events|
    ensures var r := Append(s, j, events, stamps);
            forall i :: 0 <= i < |events| ==>
              r[|j| + i].body.t == stamps[i].t && r[|j| + i].body.eventId == stamps[i].eventId
  {
    if events != [] {
      var n := |events| - 1;
      AppendedStamps(s, j, events[..n], stamps[..n]);
      hide HeadOf;
    }
  }

  /** Appending with fresh ids keeps all ids distinct. */
  lemma AppendDistinct(s: Signer, j: seq<Entry>, events: seq<Event>, stamps: seq<Stamp>)
    requires DistinctEvents(j) && |stamps| == |events| && FreshStamps(j, stamps)
    ensures DistinctEvents(Append(s, j, events, stamps))
  {
    AppendedStamps(s, j, events, stamps);
    var r := Append(s, j, events, stamps);
    hide Append;
    assert forall i :: 0 <= i < |j| ==> r[i] == r[..|j|][i];
    forall i, k | 0 <= i < k < |r| ensures r[i].body.eventId != r[k].body.eventId {
      assert i >= |j| ==> r[|j| + (i - |j|)].body.eventId == stamps[i - |j|].eventId;
      assert k >= |j| ==> r[|j| + (k - |j|)].body.eventId == stamps[k - |j|].eventId;
    }
  }

  lemma AppendOne(s: Signer, j: seq<Entry>, e: Event, stamp: Stamp)
    requires Chained(s, j) && LastTime(j) <= stamp.t
    ensures var r := j + [MakeEntry(s, HeadOf(j).0 + 1, HeadOf(j).1, e, stamp)];
            && Chained(s, r) && LastTime(r) == stamp.t
            && Replay.Events(Bodies(r)) == Replay.Events(Bodies(j)) + [e]
  {
    var r := j + [MakeEntry(s, HeadOf(j).0 + 1, HeadOf(j).1, e, stamp)];
    forall i | 0 <= i < |r| ensures Sealed(s, r, i) {
      if i < |j| {
        assert Sealed(s, j, i);
      } else if i > 0 {
        assert Sealed(s, j, i - 1);
      }
    }
  }

  lemma OrderedInit(from: int, stamps: seq<Stamp>)
    requires stamps != [] && Ordered(from, stamps)
    ensures var n := |stamps| - 1;
            && Ordered(from, stamps[..n])
            && (if n == 0 then from else stamps[..n][n - 1].t) <= stamps[n].t
  {
  }

  /** Appending with a clock that does not run backwards keeps the chain intact. */
  lemma {:induction false} AppendChained(s: Signer, j: seq<Entry>, events: seq<Event>, stamps: seq<Stamp>)
    requires Chained(s, j) && |stamps| == |events| && Ordered(LastTime(j), stamps)
    ensures Chained(s, Append(s, j, events, stamps))
    ensures LastTime(Append(s, j, events, stamps)) == (if stamps == [] then LastTime(j) else stamps[|stamps| - 1].t)
    ensures Replay.Events(Bodies(Append(s, j, events, stamps))) == Replay.Events(Bodies(j)) + events
  {
    if events != [] {
      var n := |events| - 1;
      var j' := Append(s, j, events[..n], stamps[..n]);
      assert Append(s, j, events, stamps) == j' + [MakeEntry(s, HeadOf(j').0 + 1, HeadOf(j').1, events[n], stamps[n])];
      OrderedInit(LastTime(j), stamps);
      hide *;
      assert events[..n] + [events[n]] == events;
      AppendChained(s, j, events[..n], stamps[..n]);
      AppendOne(s, j', events[n], stamps[n]);
    }
  }

  lemma {:induction false} AppendAppend(s: Signer, j: seq<Entry>, e1: seq<Event>, s1: seq<Stamp>, e2: seq<Event>,
          s2: seq<Stamp>)
    requires |s1| == |e1| && |s2| == |e2|
    ensures Append(s, Append(s, j, e1, s1), e2, s2) == Append(s, j, e1 + e2, s1 + s2)
  {
    hide *;
    if e2 == [] {
      assert e1 + e2 == e1 && s1 + s2 == s1 && s2 == [];
      AppendNone(s, Append(s, j, e1, s1));
    } else {
      var n := |e2| - 1;
      var e, t := e2[n], s2[n];
      AppendAppend(s, j, e1, s1, e2[..n], s2[..n]);
      LastApart(e1, e2);
      LastApart(s1, s2);
      AppendLast(s, Append(s, j, e1, s1), e2[..n], s2[..n], e, t);
      AppendLast(s, j, e1 + e2[..n], s1 + s2[..n], e, t);
    }
  }

  lemma AppendNone(s: Signer, j: seq<Entry>)
    ensures Append(s, j, [], []) == j
  {
  }

  lemma LastApart<T>(a: seq<T>, b: seq<T>)
    requires b != []
    ensures var n := |b| - 1; b[..n] + [b[n]] == b && (a + b[..n]) + [b[n]] == a + b
  {
  }

  lemma AppendLast(s: Signer, j: seq<Entry>, events: seq<Event>, stamps: seq<Stamp>, e: Event, t: Stamp)
    requires |stamps| == |events|
    ensures var j' := Append(s, j, events, stamps);
            Append(s, j, events + [e], stamps + [t]) == j' + [MakeEntry(s, HeadOf(j').0 + 1, HeadOf(j').1, e, t)]
  {
    assert (events + [e])[..|events|] == events && (stamps + [t])[..|stamps|] == stamps;
  }

  // ---- verifying a bundle ----

  const MAX_ENTRIES := 1_000_000
  const MAX_PINS := 32

  datatype Head = Head(seqNo: int, hash: Hash)
  datatype Pin = Pin(keyId: Id, publicKey: PublicKey)
  datatype Bundle = Bundle(entries: seq<Entry>, expectedHead: Option<Head>)
  datatype Report = Report(complete: bool, head: Head, phase: Phase)

  /** The pinned keys by id; a later pin replaces an earlier one. */
  function KeyMap(pins: seq<Pin>): map<Id, PublicKey> {
    if pins == [] then map[]
    else KeyMap(pins[..|pins| - 1])[pins[|pins| - 1].keyId := pins[|pins| - 1].publicKey]
  }

  ghost predicate HashesOk(cr: Crypto, es: seq<Entry>) {
    forall i :: 0 <= i < |es| ==> cr.bodyHash(es[i].body) == es[i].hash
  }

  ghost predicate KeysPinned(keys: map<Id, PublicKey>, es: seq<Entry>) {
    forall i :: 0 <= i < |es| ==> es[i].body.keyId in keys
  }

  ghost predicate SignaturesOk(cr: Crypto, keys: map<Id, PublicKey>, es: seq<Entry>)
    requires KeysPinned(keys, es)
  {
    forall i :: 0 <= i < |es| ==> cr.verify(keys[es[i].body.keyId], es[i].hash, es[i].sig)
  }

  /** Entry `i` continues its chain: number, link, same run and key, time order. */
  ghost predicate Continues(es: seq<Entry>, i: nat)
    requires i < |es|
  {
    && es[i].body.seqNo == i + 1
    && es[i].body.prevHash == (if i == 0 then ZERO_HASH else es[i - 1].hash)
    && es[i].body.runId == es[0].body.runId && es[i].body.keyId == es[0].body.keyId
    && (if i == 0 then -1 else es[i - 1].body.t) <= es[i].body.t
  }

  ghost predicate Linked(es: seq<Entry>) {
    forall i :: 0 <= i < |es| ==> Continues(es, i)
  }

  function BundleHead(es: seq<Entry>): Head {
    if es == [] then Head(0, ZERO_HASH) else Head(es[|es| - 1].body.seqNo, es[|es| - 1].hash)
  }

  function EndsComplete(es: seq<Entry>): bool {
    es != [] && EndsRun(es[|es| - 1].body.event)
  }

  /** The verifier's answer: the first failing stage, or what the bundle proves. */
  ghost function Verdict(cr: Crypto, b: Bundle, pins: seq<Pin>, requireComplete: bool): Result<Report, Code> {
    var es, keys := b.entries, KeyMap(pins);
    if |es| > MAX_ENTRIES || |pins| > MAX_PINS then Err(INVALID_INPUT)
    else if !HashesOk(cr, es) then Err(HASH_MISMATCH)
    else if !KeysPinned(keys, es) then Err(UNTRUSTED_KEY)
    else if !SignaturesOk(cr, keys, es) then Err(SIGNATURE_INVALID)
    else if !Linked(es) then Err(CHAIN_INVALID)
    else match Replay.Run(Replay.START, Bodies(es))
      case None => Err(TRANSITION_INVALID)
      case Some(s) =>
        if b.expectedHead.Some? && b.expectedHead.value != BundleHead(es) then Err(CHAIN_INVALID)
        else if requireComplete && !EndsComplete(es) then Err(INCOMPLETE)
        else Ok(Report(EndsComplete(es), BundleHead(es), s.phase))
  }

  /** `verify_bundle`: successive passes over the entries, each stopping at its first offence. */
  method VerifyBundle(cr: Crypto, b: Bundle, pins: seq<Pin>, requireComplete: bool) returns (r: Result<Report, Code>)
    ensures r == Verdict(cr, b, pins, requireComplete)
  {
    var es := b.entries;
    if |es| > MAX_ENTRIES || |pins| > MAX_PINS {
      return Err(INVALID_INPUT);
    }
    for i := 0 to |es|
      invariant forall k :: 0 <= k < i ==> cr.bodyHash(es[k].body) == es[k].hash
    {
      if cr.bodyHash(es[i].body) != es[i].hash {
        return Err(HASH_MISMATCH);
      }
    }
    var keys := map[];
    for i := 0 to |pins|
      invariant keys == KeyMap(pins[..i])
    {
      assert pins[..i + 1][..i] == pins[..i];
      keys := keys[pins[i].keyId := pins[i].publicKey];
    }
    assert pins[..|pins|] == pins;
    for i := 0 to |es|
      invariant forall k :: 0 <= k < i ==> es[k].body.keyId in keys
    {
      if es[i].body.keyId !in keys {
        return Err(UNTRUSTED_KEY);
      }
    }
    for i := 0 to |es|
      invariant forall k :: 0 <= k < i ==> cr.verify(keys[es[k].body.keyId], es[k].hash, es[k].sig)
    {
      if !cr.verify(keys[es[i].body.keyId], es[i].hash, es[i].sig) {
        return Err(SIGNATURE_INVALID);
      }
    }
    hide Linked, HashesOk, KeysPinned, SignaturesOk;
    var linked := CheckLinks(es);
    if !linked {
      return Err(CHAIN_INVALID);
    }
    var bodies := Bodies(es);
    var replayed := Replay.ReplayEvents(bodies);
    if replayed.Err? {
      return Err(replayed.error);
    }
    var head := if es == [] then Head(0, ZERO_HASH) else Head(es[|es| - 1].body.seqNo, es[|es| - 1].hash);
    if b.expectedHead.Some? && b.expectedHead.value != head {
      return Err(CHAIN_INVALID);
    }
    var complete := es != [] && (es[|es| - 1].body.event.RunRejected? || es[|es| - 1].body.event.RunFinalized?);
    if requireComplete && !complete {
      return Err(INCOMPLETE);
    }
    return Ok(Report(complete, head, replayed.value));
  }

  /** Step 5 of the verifier, with the running `prev` hash and last time. */
  method CheckLinks(es: seq<Entry>) returns (ok: bool)
    ensures ok == Linked(es)
  {
    if es == [] {
      return true;
    }
    var runId, keyId := es[0].body.runId, es[0].body.keyId;
    var prev, lastT := ZERO_HASH, -1;
    for i := 0 to |es|
      invariant prev == if i == 0 then ZERO_HASH else es[i - 1].hash
      invariant lastT == if i == 0 then -1 else es[i - 1].body.t
      invariant forall k :: 0 <= k < i ==> Continues(es, k)
    {
      var body := es[i].body;
      if body.seqNo != i + 1 || body.prevHash != prev || body.runId != runId || body.keyId != keyId || body.t < lastT {
        assert !Continues(es, i);
        return false;
      }
      lastT := body.t;
      prev := es[i].hash;
    }
    return true;
  }

  // ---- what a verdict means ----

  /** The last pin with this key id holds this key. */
  ghost predicate Pinned(pins: seq<Pin>, keyId: Id, key: PublicKey) {
    exists k :: && 0 <= k < |pins| && pins[k].keyId == keyId && pins[k].publicKey == key
                && forall m :: k < m < |pins| ==> pins[m].keyId != keyId
  }

  lemma {:induction false} KeyMapIsLast(pins: seq<Pin>, keyId: Id)
    ensures keyId in KeyMap(pins) <==> exists k :: 0 <= k < |pins| && pins[k].keyId == keyId
    ensures keyId in KeyMap(pins) ==> Pinned(pins, keyId, KeyMap(pins)[keyId])
    ensures forall key :: Pinned(pins, keyId, key) ==> keyId in KeyMap(pins) && key == KeyMap(pins)[keyId]
  {
    if pins != [] {
      var n := |pins| - 1;
      KeyMapIsLast(pins[..n], keyId);
      if pins[n].keyId == keyId {
        assert Pinned(pins, keyId, pins[n].publicKey);
      } else {
        forall key ensures Pinned(pins, keyId, key) <==> Pinned(pins[..n], keyId, key) {
          PinnedBefore(pins, keyId, key);
        }
        assert forall k :: 0 <= k < n ==> pins[..n][k] == pins[k];
      }
    }
  }

  lemma PinnedBefore(pins: seq<Pin>, keyId: Id, key: PublicKey)
    requires pins != [] && pins[|pins| - 1].keyId != keyId
    ensures Pinned(pins, keyId, key) <==> Pinned(pins[..|pins| - 1], keyId, key)
  {
    var init := pins[..|pins| - 1];
    assert forall k :: 0 <= k < |init| ==> init[k] == pins[k];
  }

  ghost predicate Known(pins: seq<Pin>, keyId: Id) {
    exists k :: 0 <= k < |pins| && pins[k].keyId == keyId
  }

  /** The pinned key verifies the entry's signature. */
  ghost predicate Attested(cr: Crypto, pins: seq<Pin>, e: Entry) {
    exists key :: Pinned(pins, e.body.keyId, key) && cr.verify(key, e.hash, e.sig)
  }

  /** What makes entry `i` genuine: hash, signature, number, link, run and key, time. */
  ghost predicate GenuineEntry(cr: Crypto, es: seq<Entry>, pins: seq<Pin>, i: nat)
    requires i < |es|
  {
    && es[i].hash == cr.bodyHash(es[i].body)
    && Attested(cr, pins, es[i])
    && es[i].body.seqNo == i + 1
    && es[i].body.prevHash == (if i == 0 then ZERO_HASH else es[i - 1].hash)
    && es[i].body.runId == es[0].body.runId && es[i].body.keyId == es[0].body.keyId
    && (if i == 0 then -1 else es[i - 1].body.t) <= es[i].body.t
  }

  /** A genuine bundle, whatever the order of the checks. */
  ghost predicate Genuine(cr: Crypto, es: seq<Entry>, pins: seq<Pin>) {
    |es| <= 1_000_000 && |pins| <= 32 && forall i :: 0 <= i < |es| ==> GenuineEntry(cr, es, pins, i)
  }

  lemma AttestedIff(cr: Crypto, pins: seq<Pin>, e: Entry)
    ensures Known(pins, e.body.keyId) <==> e.body.keyId in KeyMap(pins)
    ensures Attested(cr, pins, e)
       <==> e.body.keyId in KeyMap(pins) && cr.verify(KeyMap(pins)[e.body.keyId], e.hash, e.sig)
  {
    KeyMapIsLast(pins, e.body.keyId);
    hide KeyMap, Pinned;
  }

  lemma GenuineIff(cr: Crypto, es: seq<Entry>, pins: seq<Pin>)
    ensures Genuine(cr, es, pins)
       <==> && |es| <= MAX_ENTRIES && |pins| <= MAX_PINS && HashesOk(cr, es) && KeysPinned(KeyMap(pins), es)
            && SignaturesOk(cr, KeyMap(pins), es) && Linked(es)
  {
    forall i | 0 <= i < |es|
      ensures GenuineEntry(cr, es, pins, i)
         <==> && cr.bodyHash(es[i].body) == es[i].hash && es[i].body.keyId in KeyMap(pins)
              && cr.verify(KeyMap(pins)[es[i].body.keyId], es[i].hash, es[i].sig) && Continues(es, i)
    {
      AttestedIff(cr, pins, es[i]);
      hide Attested, KeyMap;
    }
    hide KeyMap, GenuineEntry, Continues;
  }

  /** Verifier soundness and completeness: a bundle is accepted exactly when it is genuine, its events replay, it
      ends in the expected head if there is one, and it is complete if it has to be; and the report says what its
      last entry and its replay say. */
  lemma AcceptedIff(cr: Crypto, b: Bundle, pins: seq<Pin>, requireComplete: bool)
    ensures var es, verdict := b.entries, Verdict(cr, b, pins, requireComplete);
            var head := if es == [] then Head(0, ZERO_HASH) else Head(|es|, es[|es| - 1].hash);
            var complete := es != [] && (es[|es| - 1].body.event.RunRejected? || es[|es| - 1].body.event.RunFinalized?);
            && (verdict.Ok? <==> && Genuine(cr, es, pins) && Replay.Run(Replay.START, Bodies(es)).Some?
                                 && (b.expectedHead.None? || b.expectedHead.value == head)
                                 && (requireComplete ==> complete))
            && (verdict.Ok? ==> verdict.value
                                == Report(complete, head, Replay.Run(Replay.START, Bodies(es)).value.phase))
  {
    GenuineIff(cr, b.entries, pins);
    if Linked(b.entries) { HeadNumbers(b.entries); }
    hide Genuine, HashesOk, KeysPinned, SignaturesOk, Linked, KeyMap, Replay.Run;
  }

  /** Which code a bundle is refused with: that of the first stage at which some entry, or the whole, offends. */
  lemma RefusedAs(cr: Crypto, b: Bundle, pins: seq<Pin>, requireComplete: bool)
    ensures var es, verdict := b.entries, Verdict(cr, b, pins, requireComplete);
            var sized := |es| <= 1_000_000 && |pins| <= 32;
            var hashed := forall i :: 0 <= i < |es| ==> es[i].hash == cr.bodyHash(es[i].body);
            var known := forall i :: 0 <= i < |es| ==> Known(pins, es[i].body.keyId);
            var signed := forall i :: 0 <= i < |es| ==> Attested(cr, pins, es[i]);
            && (verdict == Err(INVALID_INPUT) <==> !sized)
            && (verdict == Err(HASH_MISMATCH) <==> sized && !hashed)
            && (verdict == Err(UNTRUSTED_KEY) <==> sized && hashed && !known)
            && (verdict == Err(SIGNATURE_INVALID) <==> sized && hashed && known && !signed)
            && (verdict == Err(CHAIN_INVALID) <==>
                  && sized && hashed && known && signed
                  && (!Genuine(cr, es, pins)
                      || (Replay.Run(Replay.START, Bodies(es)).Some?
                          && b.expectedHead.Some? && b.expectedHead.value != BundleHead(es))))
            && (verdict == Err(TRANSITION_INVALID) <==>
                  Genuine(cr, es, pins) && Replay.Run(Replay.START, Bodies(es)) == None)
            && (verdict == Err(INCOMPLETE) <==>
                  && requireComplete && (es == [] || !EndsRun(es[|es| - 1].body.event))
                  && Verdict(cr, b, pins, false).Ok?)
  {
    var es, keys := b.entries, KeyMap(pins);
    forall i | 0 <= i < |es|
      ensures Known(pins, es[i].body.keyId) <==> es[i].body.keyId in keys
      ensures Attested(cr, pins, es[i])
         <==> es[i].body.keyId in keys && cr.verify(keys[es[i].body.keyId], es[i].hash, es[i].sig)
    {
      AttestedIff(cr, pins, es[i]);
    }
    GenuineIff(cr, es, pins);
    hide Genuine, Linked, KeyMap, Known, Attested, Replay.Run;
  }

  // ---- completeness: a chained journal with a legal stream verifies ----

  /** Every chained journal whose events replay is accepted under a pin of the signer's key; the report
      names the replayed phase, and completeness is exactly having reached a terminal phase. */
  lemma ChainedVerifies(s: Signer, j: seq<Entry>, expected: Option<Head>, pins: seq<Pin>, requireComplete: bool)
    requires s.crypto.Sound() && Chained(s, j) && |j| <= MAX_ENTRIES && |pins| <= MAX_PINS
    requires s.keyId in KeyMap(pins) && KeyMap(pins)[s.keyId] == s.crypto.publicKey(s.seed)
    requires Accepted(Bodies(j))
    requires expected == None || expected == Some(BundleHead(j))
    ensures var phase := Replay.Run(Replay.START, Bodies(j)).value.phase;
            Verdict(s.crypto, Bundle(j, expected), pins, requireComplete)
            == (if requireComplete && !Terminal(phase) then Err(INCOMPLETE)
                else Ok(Report(Terminal(phase), BundleHead(j), phase)))
  {
    var keys := KeyMap(pins);
    assert Replay.Run(Replay.START, Bodies(j)).Some?;
    hide *;
    CompleteIffTerminal(Bodies(j));
    ChainedPasses(s, j, keys);
    PassedAnswer(s.crypto, Bundle(j, expected), pins, requireComplete);
    hide EndsComplete;
  }

  lemma PassedAnswer(cr: Crypto, b: Bundle, pins: seq<Pin>, requireComplete: bool)
    requires |b.entries| <= MAX_ENTRIES && |pins| <= MAX_PINS
    requires HashesOk(cr, b.entries) && KeysPinned(KeyMap(pins), b.entries)
    requires SignaturesOk(cr, KeyMap(pins), b.entries) && Linked(b.entries)
    requires Replay.Run(Replay.START, Bodies(b.entries)).Some?
    requires b.expectedHead == None || b.expectedHead == Some(BundleHead(b.entries))
    ensures var es, phase := b.entries, Replay.Run(Replay.START, Bodies(b.entries)).value.phase;
            var complete := es != [] && EndsRun(Bodies(es)[|es| - 1].event);
            Verdict(cr, b, pins, requireComplete)
            == if requireComplete && !complete then Err(INCOMPLETE)
               else Ok(Report(complete, BundleHead(es), phase))
  {
    hide HashesOk, KeysPinned, SignaturesOk, Linked, KeyMap, Replay.Run;
  }

  /** The report on any bundle that verifies, with payloads as the schema has them: it is complete exactly when
      the phase it names is terminal. */
  lemma VerdictComplete(cr: Crypto, b: Bundle, pins: seq<Pin>, requireComplete: bool)
    requires Verdict(cr, b, pins, requireComplete).Ok? && SchemaTyped(Bodies(b.entries))
    ensures var report := Verdict(cr, b, pins, requireComplete).value;
            && (report.complete <==> Terminal(report.phase))
            && (requireComplete ==> report.complete)
  {
    hide HashesOk, KeysPinned, SignaturesOk, Linked, Replay.Run, SchemaTyped;
    LinkedConsecutive(b.entries);
    CompleteIffTerminal(Bodies(b.entries));
  }

  lemma LinkedConsecutive(es: seq<Entry>)
    requires Linked(es)
    ensures Consecutive(Bodies(es))
  {
    forall i | 0 <= i < |es| ensures Bodies(es)[i].seqNo == i + 1 {
      assert Continues(es, i);
    }
  }

  lemma ChainedPasses(s: Signer, j: seq<Entry>, keys: map<Id, PublicKey>)
    requires s.crypto.Sound() && Chained(s, j)
    requires s.keyId in keys && keys[s.keyId] == s.crypto.publicKey(s.seed)
    ensures HashesOk(s.crypto, j) && KeysPinned(keys, j) && SignaturesOk(s.crypto, keys, j) && Linked(j)
  {
    forall i | 0 <= i < |j|
      ensures s.crypto.bodyHash(j[i].body) == j[i].hash && j[i].body.keyId == s.keyId
      ensures s.crypto.verify(s.crypto.publicKey(s.seed), j[i].hash, j[i].sig)
      ensures Continues(j, i)
    {
      assert Sealed(s, j, i) && Sealed(s, j, 0);
    }
  }

  // ---- tamper evidence ----

  /** Two distinct bodies with the same hash. */
  ghost predicate Collision(cr: Crypto, pair: (Body, Body)) {
    pair.0 != pair.1 && cr.bodyHash(pair.0) == cr.bodyHash(pair.1)
  }

  /** Walk both chains backwards from their common last hash to the first pair of differing bodies. */
  function Divergence(a: seq<Entry>, b: seq<Entry>): Option<(Body, Body)> {
    if a == [] || b == [] then None
    else if a[|a| - 1].body != b[|b| - 1].body then Some((a[|a| - 1].body, b[|b| - 1].body))
    else Divergence(a[..|a| - 1], b[..|b| - 1])
  }

  lemma LinkedPrefix(cr: Crypto, es: seq<Entry>)
    requires es != [] && Linked(es) && HashesOk(cr, es)
    ensures Linked(es[..|es| - 1]) && HashesOk(cr, es[..|es| - 1])
    ensures es[|es| - 1].body.prevHash == (if |es| == 1 then ZERO_HASH else es[..|es| - 1][|es| - 2].hash)
  {
    var init := es[..|es| - 1];
    forall i | 0 <= i < |init| ensures Continues(init, i) && cr.bodyHash(init[i].body) == init[i].hash {
      assert Continues(es, i) && init[i] == es[i];
    }
    assert Continues(es, |es| - 1);
  }

  lemma {:induction false} WalkBack(cr: Crypto, a: seq<Entry>, b: seq<Entry>)
    requires Linked(a) && HashesOk(cr, a) && Linked(b) && HashesOk(cr, b)
    requires |a| == |b| && (a != [] ==> a[|a| - 1].hash == b[|b| - 1].hash)
    ensures Divergence(a, b).None? ==> Bodies(a) == Bodies(b)
    ensures Divergence(a, b).Some? ==> Collision(cr, Divergence(a, b).value)
  {
    if a != [] {
      var n := |a| - 1;
      assert cr.bodyHash(a[n].body) == a[n].hash && cr.bodyHash(b[n].body) == b[n].hash;
      if a[n].body == b[n].body {
        LinkedPrefix(cr, a);
        LinkedPrefix(cr, b);
        WalkBack(cr, a[..n], b[..n]);
        if Divergence(a, b).None? {
          forall i | 0 <= i < |a| ensures Bodies(a)[i] == Bodies(b)[i] {
            if i < n {
              assert Bodies(a[..n])[i] == a[i].body && Bodies(b[..n])[i] == b[i].body;
            }
          }
        }
      }
    }
  }

  /** Tamper evidence: two bundles that both verify against the same expected head carry the same bodies,
      or walking their links backwards exhibits two different bodies with one hash. Truncating, extending
      or editing a bundle under a pinned head therefore needs an explicit collision. */
  lemma SameHeadSameHistory(cr: Crypto, a: Bundle, b: Bundle, pinsA: seq<Pin>, pinsB: seq<Pin>)
    requires Verdict(cr, a, pinsA, false).Ok? && Verdict(cr, b, pinsB, false).Ok?
    requires Verdict(cr, a, pinsA, false).value.head == Verdict(cr, b, pinsB, false).value.head
    ensures |a.entries| == |b.entries|
    ensures Bodies(a.entries) == Bodies(b.entries)
         || (Divergence(a.entries, b.entries).Some? && Collision(cr, Divergence(a.entries, b.entries).value))
  {
    HeadNumbers(a.entries);
    HeadNumbers(b.entries);
    WalkBack(cr, a.entries, b.entries);
  }

  lemma HeadNumbers(es: seq<Entry>)
    requires Linked(es)
    ensures BundleHead(es).seqNo == |es|
  {
    if es != [] {
      assert Continues(es, |es| - 1);
    }
  }

  /** An expected head is only ever met by a bundle that ends in it. */
  lemma ExpectedHeadMet(cr: Crypto, b: Bundle, pins: seq<Pin>, requireComplete: bool)
    requires b.expectedHead.Some? && Verdict(cr, b, pins, requireComplete).Ok?
    ensures Verdict(cr, b, pins, requireComplete).value.head == b.expectedHead.value
    ensures b.expectedHead.value.seqNo == |b.entries|
  {
    HeadNumbers(b.entries);
  }
}
