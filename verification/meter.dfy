/** RAPL sampling arithmetic, the energy guard, and what one sampling pass does to the meter. */
module Metering {
  import opened Types

  datatype Domain = Domain(id: Id, maxPowerUw: nat, marginUj: nat)

  datatype SensorFault = COUNTER_RANGE | STALE_SAMPLE | WRAP_AMBIGUOUS | DELTA_IMPLAUSIBLE

  const STUCK_ENERGY_WINDOW_US := 1_000_000
  const STUCK_CPU_ADVANCE_US := 10_000

  /** The most energy a power of `p` microwatts can deliver in `dt` microseconds, rounded up. */
  function Ceiling(p: nat, dt: int): int {
    (p * dt + 999_999) / 1_000_000
  }

  function RaplDelta(a: int, b: int, range: int, dt: int, stale: int, power: nat, margin: nat)
    : Result<nat, SensorFault>
  {
    if range <= 0 then Err(COUNTER_RANGE)
    else if !(0 <= a < range) || !(0 <= b < range) then Err(COUNTER_RANGE)
    else if dt > stale then Err(STALE_SAMPLE)
    else
      var possible := Ceiling(power, dt) + margin;
      if possible >= range then Err(WRAP_AMBIGUOUS)
      else
        var delta := (b - a + range) % range;
        if delta > possible then Err(DELTA_IMPLAUSIBLE) else Ok(delta)
  }

  /** The energy all domains together may still draw in one stale interval plus the kill deadline. */
  function ReserveUj(domains: seq<Domain>, staleUs: nat, killUs: nat): int {
    if domains == [] then 0
    else
      var d := domains[|domains| - 1];
      ReserveUj(domains[..|domains| - 1], staleUs, killUs) + Ceiling(d.maxPowerUw, staleUs + killUs) + d.marginUj
  }

  /** `reserve_uj`: the same total, accumulated in a loop. */
  method SumReserve(domains: seq<Domain>, staleUs: nat, killUs: nat) returns (total: int)
    ensures total == ReserveUj(domains, staleUs, killUs)
  {
    total := 0;
    for i := 0 to |domains|
      invariant total == ReserveUj(domains[..i], staleUs, killUs)
    {
      assert domains[..i + 1][..i] == domains[..i];
      var d := domains[i];
      total := total + (d.maxPowerUw * (staleUs + killUs) + 999_999) / 1_000_000 + d.marginUj;
    }
    assert domains[..|domains|] == domains;
  }

  /** `guard_eval`: the reason to stop, if the energy metered so far demands one. */
  function GuardEval(energy: int, cap: int, reserve: int): Option<Reason> {
    if energy >= cap then Some(MEASUREMENT_OVERRUN)
    else if energy + reserve >= cap then Some(ENERGY_GUARD)
    else None
  }

  // ---- one sampling pass ----

  datatype Meter = Meter(prev: map<Id, Reading>, energyUj: nat, index: nat, lastCpuUs: int,
                         unchangedSinceUs: Option<int>, unchangedCpuAtUs: int)

  const FRESH_METER := Meter(map[], 0, 0, 0, None, 0)

  /** What the host answers to one pass: a reading per domain and the CPU time used, or an error. */
  datatype SampleInput = SampleInput(now: Time, shown: seq<Option<Reading>>, cpuUs: Option<int>)

  /** Progress of the loop over the domains. `ok` turns false when a read or a check raises. */
  datatype Pass = Pass(prev: map<Id, Reading>, delta: nat, changed: bool, ok: bool)

  predicate IsU(n: int) { 0 <= n <= U_MAX }

  /** One domain: the plausibility check against its previous reading, then the new reading is kept.
      `strict` adds the check for a changed counter range, which only regular samples make. */
  function ReadDomain(d: Domain, stale: nat, read: Option<Reading>, s: Pass, strict: bool): Pass {
    if !s.ok || read.None? then s.(ok := false)
    else
      var r := read.value;
      var writable := IsU(r.counter) && IsU(r.range) && IsU(r.t);
      if d.id !in s.prev then s.(prev := s.prev[d.id := r], ok := writable)
      else
        var p := s.prev[d.id];
        match RaplDelta(p.counter, r.counter, r.range, r.t - p.t, stale, d.maxPowerUw, d.marginUj)
        case Err(_) => s.(ok := false)
        case Ok(x) =>
          if strict && r.range != p.range then s.(ok := false)
          else Pass(s.prev[d.id := r], s.delta + x, s.changed || x != 0, writable)
  }

  /** The loop over the first `n` domains; it stops at the first exception. */
  function ReadUpTo(domains: seq<Domain>, stale: nat, shown: seq<Option<Reading>>, n: nat, prev: map<Id, Reading>,
          strict: bool): Pass
    requires n <= |domains| == |shown|
  {
    if n == 0 then Pass(prev, 0, false, true)
    else
      var s := ReadUpTo(domains, stale, shown, n - 1, prev, strict);
      if s.ok then ReadDomain(domains[n - 1], stale, shown[n - 1], s, strict) else s
  }

  function Readings(shown: seq<Option<Reading>>): seq<Reading> {
    if shown == [] then []
    else Readings(shown[..|shown| - 1])
         + (if shown[|shown| - 1].Some? then [shown[|shown| - 1].value] else [])
  }

  /** `_sample` up to its commit: the new meter, and the sample unless a check raised. */
  function TakeSample(domains: seq<Domain>, stale: nat, m: Meter, inp: SampleInput): (r: (Meter, Option<Sample>))
    requires |inp.shown| == |domains|
  {
    var s := ReadUpTo(domains, stale, inp.shown, |domains|, m.prev, true);
    var m1 := m.(prev := s.prev);
    if !s.ok || inp.cpuUs.None? || inp.cpuUs.value < m.lastCpuUs then (m1, None)
    else
      var cpu := inp.cpuUs.value;
      var still := !s.changed && s.prev != map[];
      if still && m.unchangedSinceUs.Some?
         && inp.now - m.unchangedSinceUs.value >= STUCK_ENERGY_WINDOW_US
         && cpu - m.unchangedCpuAtUs >= STUCK_CPU_ADVANCE_US
      then (m1, None)
      else
        var m2 := if !still then m1.(unchangedSinceUs := None)
                  else if m.unchangedSinceUs.None? then m1.(unchangedSinceUs := Some(inp.now), unchangedCpuAtUs := cpu)
                  else m1;
        var m3 := m2.(lastCpuUs := cpu, energyUj := m.energyUj + s.delta, index := m.index + 1);
        (m3, if IsU(m3.index) && IsU(cpu) && IsU(s.delta) && IsU(m3.energyUj)
             then Some(Sample(m3.index, inp.now, cpu, Readings(inp.shown), s.delta, m3.energyUj)) else None)
  }

  /** `_read_final_sample`: counts the energy, but leaves index, CPU and stuck-sensor state alone. */
  function TakeFinal(domains: seq<Domain>, stale: nat, m: Meter, inp: SampleInput): (r: (Meter, Option<Sample>))
    requires |inp.shown| == |domains|
  {
    var s := ReadUpTo(domains, stale, inp.shown, |domains|, m.prev, false);
    var m1 := m.(prev := s.prev);
    if !s.ok || inp.cpuUs.None? then (m1, None)
    else
      var cpu := if inp.cpuUs.value < 0 then 0 else inp.cpuUs.value;
      var m2 := m1.(energyUj := m.energyUj + s.delta);
      (m2, if IsU(m.index + 1) && IsU(cpu) && IsU(s.delta) && IsU(m2.energyUj)
           then Some(Sample(m.index + 1, inp.now, cpu, Readings(inp.shown), s.delta, m2.energyUj)) else None)
  }

  // ---- what the counters really show ----

  /** The energy each domain has truly drawn up to a time, and the modulus of its counter. */
  datatype World = World(draw: (Id, int) -> int, range: Id -> int)

  /** The power assumption: over any interval a domain draws at most its rated power plus its margin. */
  ghost predicate Rated(w: World, d: Domain) {
    && w.range(d.id) > 0
    && forall t1, t2 :: t1 <= t2 ==>
         0 <= w.draw(d.id, t2) - w.draw(d.id, t1) <= Ceiling(d.maxPowerUw, t2 - t1) + d.marginUj
  }

  /** A reading shows the true draw modulo the counter's range. */
  ghost predicate Shows(w: World, id: Id, r: Reading) {
    r.range == w.range(id) && r.range > 0 && r.counter == w.draw(id, r.t) % r.range
  }

  lemma ModDifference(A: int, D: int, R: int)
    requires 0 <= D < R
    ensures ((A + D) % R - A % R + R) % R == D
  {
    var q := A / R;
    assert A == q * R + A % R;
    if A % R + D < R {
      ModUnique(A + D, q, A % R + D, R);
      ModUnique(D + R, 1, D, R);
    } else {
      assert (q + 1) * R == q * R + R;
      ModUnique(A + D, q + 1, A % R + D - R, R);
      ModUnique(D, 0, D, R);
    }
  }

  lemma ModUnique(n: int, q: int, r: int, R: int)
    requires 0 <= r < R && n == q * R + r
    ensures n % R == r
  {
    var q', r' := n / R, n % R;
    assert n == q' * R + r';
    assert (q - q') * R == r' - r;
    if q - q' >= 1 {
      MulAtLeast(q - q', R);
    } else if q' - q >= 1 {
      MulAtLeast(q' - q, R);
    }
  }

  lemma MulAtLeast(k: int, R: int)
    requires k >= 1 && R >= 0
    ensures k * R >= R
  {
  }

  /** Wraparound is exact: under the power assumption a difference is computed exactly when the interval
      is not stale and too short to wrap, and then it is the true draw. */
  lemma RaplExact(w: World, d: Domain, p: Reading, r: Reading, stale: nat)
    requires Rated(w, d) && Shows(w, d.id, p) && Shows(w, d.id, r) && p.t <= r.t
    ensures var x := RaplDelta(p.counter, r.counter, r.range, r.t - p.t, stale, d.maxPowerUw, d.marginUj);
            && (x.Ok? <==> r.t - p.t <= stale && Ceiling(d.maxPowerUw, r.t - p.t) + d.marginUj < w.range(d.id))
            && (x.Ok? ==> x.value == w.draw(d.id, r.t) - w.draw(d.id, p.t))
  {
    var D := w.draw(d.id, r.t) - w.draw(d.id, p.t);
    if Ceiling(d.maxPowerUw, r.t - p.t) + d.marginUj < w.range(d.id) {
      ModDifference(w.draw(d.id, p.t), D, w.range(d.id));
    }
  }

  // ---- the energy account ----

  ghost predicate DistinctIds(domains: seq<Domain>) {
    forall i, j :: 0 <= i < j < |domains| ==> domains[i].id != domains[j].id
  }

  /** The true draw of all read domains from their anchor times to their latest readings. */
  ghost function Drawn(w: World, domains: seq<Domain>, prev: map<Id, Reading>, anchors: map<Id, int>): int
    requires anchors.Keys == prev.Keys
  {
    if domains == [] then 0
    else
      var id := domains[|domains| - 1].id;
      Drawn(w, domains[..|domains| - 1], prev, anchors)
      + (if id in prev then w.draw(id, prev[id].t) - w.draw(id, anchors[id]) else 0)
  }

  lemma {:induction false} DrawnOther(w: World, domains: seq<Domain>, prev: map<Id, Reading>, anchors: map<Id, int>,
          prev': map<Id, Reading>, anchors': map<Id, int>)
    requires anchors.Keys == prev.Keys && anchors'.Keys == prev'.Keys
    requires forall i :: 0 <= i < |domains| ==> var id := domains[i].id;
               (id in prev <==> id in prev') && (id in prev ==> prev'[id] == prev[id] && anchors'[id] == anchors[id])
    ensures Drawn(w, domains, prev', anchors') == Drawn(w, domains, prev, anchors)
  {
    if domains != [] {
      DrawnOther(w, domains[..|domains| - 1], prev, anchors, prev', anchors');
    }
  }

  /** Reading one domain moves the account by that domain's own draw. */
  lemma {:induction false} DrawnRead(w: World, domains: seq<Domain>, prev: map<Id, Reading>, anchors: map<Id, int>,
          i: nat, r: Reading)
    requires anchors.Keys == prev.Keys && DistinctIds(domains) && i < |domains|
    ensures var id := domains[i].id;
            var anchors' := if id in anchors then anchors else anchors[id := r.t];
            && anchors'.Keys == prev[id := r].Keys
            && Drawn(w, domains, prev[id := r], anchors')
               == Drawn(w, domains, prev, anchors)
                  + (if id in prev then w.draw(id, r.t) - w.draw(id, prev[id].t) else 0)
  {
    var id, n := domains[i].id, |domains| - 1;
    var anchors' := if id in anchors then anchors else anchors[id := r.t];
    if i == n {
      DrawnOther(w, domains[..n], prev, anchors, prev[id := r], anchors');
    } else {
      assert domains[..n][i] == domains[i];
      DrawnRead(w, domains[..n], prev, anchors, i, r);
    }
  }

  /** The host's readings are true, and each domain's clock does not run backwards. */
  ghost predicate Truthful(w: World, domains: seq<Domain>, prev: map<Id, Reading>, shown: seq<Option<Reading>>) {
    && |shown| == |domains|
    && forall i :: 0 <= i < |domains| && shown[i].Some? ==>
         && Shows(w, domains[i].id, shown[i].value)
         && (domains[i].id in prev ==> prev[domains[i].id].t <= shown[i].value.t)
  }

  ghost predicate AllShown(w: World, domains: seq<Domain>, prev: map<Id, Reading>) {
    forall i :: 0 <= i < |domains| && domains[i].id in prev ==> Shows(w, domains[i].id, prev[domains[i].id])
  }

  /** Anchors of the domains read for the first time join those already there. */
  ghost function Anchored(anchors: map<Id, int>, prev: map<Id, Reading>): map<Id, int> {
    map id | id in prev :: if id in anchors then anchors[id] else prev[id].t
  }

  /** Energy counted by a pass equals the true draw it moved the latest readings by. */
  ghost predicate PassCounts(w: World, domains: seq<Domain>, prev: map<Id, Reading>, anchors: map<Id, int>, s: Pass)
    requires anchors.Keys == prev.Keys
  {
    Drawn(w, domains, s.prev, Anchored(anchors, s.prev)) == Drawn(w, domains, prev, anchors) + s.delta
  }

  /** Where the latest readings come from after a pass over the first `n` domains. */
  ghost predicate PassKeeps(domains: seq<Domain>, shown: seq<Option<Reading>>, n: nat, prev: map<Id, Reading>,
          after: map<Id, Reading>)
    requires n <= |domains| == |shown|
  {
    && prev.Keys <= after.Keys
    && (forall i :: n <= i < |domains| ==> (domains[i].id in after <==> domains[i].id in prev))
    && (forall id :: id in after ==>
          || (id in prev && after[id] == prev[id])
          || (exists i :: 0 <= i < n && domains[i].id == id && shown[i] == Some(after[id])))
  }

  /** Rated domains with distinct ids, whose readings before and during the pass are true. */
  ghost predicate Setting(w: World, domains: seq<Domain>, shown: seq<Option<Reading>>, prev: map<Id, Reading>) {
    && DistinctIds(domains) && (forall i :: 0 <= i < |domains| ==> Rated(w, domains[i]))
    && Truthful(w, domains, prev, shown) && AllShown(w, domains, prev)
  }

  lemma {:induction false} PassAccounts(w: World, domains: seq<Domain>, stale: nat, shown: seq<Option<Reading>>,
          n: nat, prev: map<Id, Reading>, anchors: map<Id, int>, strict: bool)
    requires Setting(w, domains, shown, prev) && anchors.Keys == prev.Keys && n <= |domains| == |shown|
    ensures var s := ReadUpTo(domains, stale, shown, n, prev, strict);
            PassCounts(w, domains, prev, anchors, s) && PassKeeps(domains, shown, n, prev, s.prev)
  {
    hide PassCounts, PassKeeps, Setting, ReadDomain;
    if n == 0 {
      PassStarts(w, domains, shown, prev, anchors);
    } else {
      PassAccounts(w, domains, stale, shown, n - 1, prev, anchors, strict);
      var s := ReadUpTo(domains, stale, shown, n - 1, prev, strict);
      KeepsOn(domains, shown, n - 1, prev, s.prev);
      if s.ok {
        ReadCounts(w, domains, stale, shown, n - 1, prev, anchors, strict, s);
        ReadKeeps(domains, stale, shown, n - 1, prev, strict, s) by {
          SettingDistinct(w, domains, shown, prev);
        }
      }
    }
  }

  lemma SettingDistinct(w: World, domains: seq<Domain>, shown: seq<Option<Reading>>, prev: map<Id, Reading>)
    requires Setting(w, domains, shown, prev)
    ensures DistinctIds(domains)
  {
  }

  lemma PassStarts(w: World, domains: seq<Domain>, shown: seq<Option<Reading>>, prev: map<Id, Reading>,
          anchors: map<Id, int>)
    requires anchors.Keys == prev.Keys && |shown| == |domains|
    ensures PassCounts(w, domains, prev, anchors, Pass(prev, 0, false, true))
    ensures PassKeeps(domains, shown, 0, prev, prev)
  {
    assert Anchored(anchors, prev) == anchors;
  }

  lemma KeepsOn(domains: seq<Domain>, shown: seq<Option<Reading>>, n: nat, prev: map<Id, Reading>,
          after: map<Id, Reading>)
    requires n < |domains| == |shown| && PassKeeps(domains, shown, n, prev, after)
    ensures PassKeeps(domains, shown, n + 1, prev, after)
  {
  }

  lemma ReadKeeps(domains: seq<Domain>, stale: nat, shown: seq<Option<Reading>>, n: nat, prev: map<Id, Reading>,
          strict: bool, s: Pass)
    requires DistinctIds(domains) && n < |domains| == |shown|
    requires PassKeeps(domains, shown, n, prev, s.prev)
    ensures PassKeeps(domains, shown, n + 1, prev, ReadDomain(domains[n], stale, shown[n], s, strict).prev)
  {
    hide RaplDelta;
    var s' := ReadDomain(domains[n], stale, shown[n], s, strict);
    KeepsOn(domains, shown, n, prev, s.prev);
    if s'.prev != s.prev {
      var id := domains[n].id;
      assert s'.prev == s.prev[id := shown[n].value];
      forall k | k in s'.prev
        ensures (k in prev && s'.prev[k] == prev[k])
             || (exists i :: 0 <= i < n + 1 && domains[i].id == k && shown[i] == Some(s'.prev[k]))
      {
        if k == id {
          assert shown[n] == Some(s'.prev[k]);
        } else {
          assert s'.prev[k] == s.prev[k];
        }
      }
    }
  }

  /** A read that moves the account sets one reading and adds the true draw since the previous one. */
  lemma ReadEffect(w: World, domains: seq<Domain>, stale: nat, shown: seq<Option<Reading>>, n: nat,
          prev: map<Id, Reading>, strict: bool, s: Pass)
    requires n < |domains| == |shown| && Setting(w, domains, shown, prev)
    requires PassKeeps(domains, shown, n, prev, s.prev)
    ensures var s' := ReadDomain(domains[n], stale, shown[n], s, strict);
            var id := domains[n].id;
            || (s'.prev == s.prev && s'.delta == s.delta)
            || (&& shown[n].Some? && s'.prev == s.prev[id := shown[n].value]
                && s'.delta == s.delta
                   + (if id in s.prev then w.draw(id, shown[n].value.t) - w.draw(id, s.prev[id].t) else 0))
  {
    LatestIsOld(domains, shown, n, prev, s.prev);
    hide PassKeeps, DistinctIds, RaplDelta;
    var d := domains[n];
    if shown[n].Some? && d.id in prev {
      RaplExact(w, d, prev[d.id], shown[n].value, stale);
    }
  }

  lemma AnchoredRead(anchors: map<Id, int>, prev: map<Id, Reading>, id: Id, r: Reading)
    requires id in prev ==> id in anchors
    ensures Anchored(anchors, prev[id := r])
         == (if id in Anchored(anchors, prev) then Anchored(anchors, prev)
             else Anchored(anchors, prev)[id := if id in anchors then anchors[id] else r.t])
    ensures Anchored(anchors, prev).Keys == prev.Keys
  {
  }

  /** One read counts exactly the domain's true draw since its previous reading. */
  lemma ReadCounts(w: World, domains: seq<Domain>, stale: nat, shown: seq<Option<Reading>>, n: nat,
          prev: map<Id, Reading>, anchors: map<Id, int>, strict: bool, s: Pass)
    requires n < |domains| == |shown| && Setting(w, domains, shown, prev) && anchors.Keys == prev.Keys
    requires PassCounts(w, domains, prev, anchors, s) && PassKeeps(domains, shown, n, prev, s.prev)
    ensures PassCounts(w, domains, prev, anchors, ReadDomain(domains[n], stale, shown[n], s, strict))
  {
    SettingDistinct(w, domains, shown, prev);
    hide Setting, PassKeeps, DistinctIds, ReadDomain, Drawn;
    ReadEffect(w, domains, stale, shown, n, prev, strict, s);
    LatestIsOld(domains, shown, n, prev, s.prev);
    var s' := ReadDomain(domains[n], stale, shown[n], s, strict);
    if s'.prev != s.prev || s'.delta != s.delta {
      var id, r := domains[n].id, shown[n].value;
      AnchoredRead(anchors, s.prev, id, r);
      var anchored := Anchored(anchors, s.prev);
      hide Anchored;
      DrawnRead(w, domains, s.prev, anchored, n, r);
    }
  }

  /** A domain not yet visited by the pass still has the reading it had before. */
  lemma LatestIsOld(domains: seq<Domain>, shown: seq<Option<Reading>>, n: nat, prev: map<Id, Reading>,
          after: map<Id, Reading>)
    requires DistinctIds(domains) && n < |domains| == |shown| && PassKeeps(domains, shown, n, prev, after)
    ensures var id := domains[n].id; (id in after <==> id in prev) && (id in after ==> after[id] == prev[id])
  {
  }
}
