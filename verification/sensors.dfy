/** Which readings a sample accepts and what it counts, spelled out on the readings; and that the reserve is the
    least there can be. */
module Sensors {
  import opened Types
  import opened Metering

  /** From one reading of a domain to the next the counter has moved by `delta`: at most what the domain can draw in
      the time between, in one turn of the counter at most, and not after too long. */
  predicate Moved(d: Domain, stale: nat, p: Reading, r: Reading, delta: int) {
    var possible := (d.maxPowerUw * (r.t - p.t) + 999_999) / 1_000_000 + d.marginUj;
    && 0 <= p.counter < r.range && 0 <= r.counter < r.range && r.t - p.t <= stale
    && 0 <= delta <= possible < r.range
    && (r.counter == p.counter + delta || r.counter == p.counter + delta - r.range)
  }

  lemma RaplIff(d: Domain, stale: nat, p: Reading, r: Reading, delta: nat)
    ensures RaplDelta(p.counter, r.counter, r.range, r.t - p.t, stale, d.maxPowerUw, d.marginUj) == Ok(delta)
       <==> Moved(d, stale, p, r, delta)
  {
    if 0 <= p.counter < r.range && 0 <= r.counter < r.range {
      var up := r.counter - p.counter + r.range;
      if r.counter >= p.counter {
        ModUnique(up, 1, r.counter - p.counter, r.range);
      } else {
        ModUnique(up, 0, up, r.range);
      }
    }
  }

  /** A reading that a pass accepts: its numbers can be written, and it is plausible after the one before it. Regular
      samples also want the counter's range unchanged. */
  predicate Plausible(d: Domain, stale: nat, before: Option<Reading>, r: Reading, strict: bool) {
    && 0 <= r.counter <= U_MAX && 0 <= r.range <= U_MAX && 0 <= r.t <= U_MAX
    && (before.Some? ==>
          (exists delta :: 0 <= delta < r.range && Moved(d, stale, before.value, r, delta))
          && (strict ==> r.range == before.value.range))
  }

  function At(prev: map<Id, Reading>, id: Id): Option<Reading> {
    if id in prev then Some(prev[id]) else None
  }

  /** What one accepted reading counts. */
  function Delta(d: Domain, before: Option<Reading>, r: Reading): int {
    if before.None? then 0
    else if r.counter >= before.value.counter then r.counter - before.value.counter
    else r.counter - before.value.counter + r.range
  }

  /** What the first `n` readings count together. */
  function Deltas(domains: seq<Domain>, prev: map<Id, Reading>, shown: seq<Option<Reading>>, n: nat): int
    requires n <= |domains| == |shown|
  {
    if n == 0 then 0
    else Deltas(domains, prev, shown, n - 1)
         + if shown[n - 1].Some? then Delta(domains[n - 1], At(prev, domains[n - 1].id), shown[n - 1].value) else 0
  }

  predicate Accepts(d: Domain, stale: nat, prev: map<Id, Reading>, shown: Option<Reading>, strict: bool) {
    shown.Some? && Plausible(d, stale, At(prev, d.id), shown.value, strict)
  }

  lemma ReadOne(d: Domain, stale: nat, shown: Option<Reading>, s: Pass, strict: bool)
    requires s.ok
    ensures var s' := ReadDomain(d, stale, shown, s, strict);
            && (s'.ok <==> Accepts(d, stale, s.prev, shown, strict))
            && (forall id :: id != d.id ==> At(s'.prev, id) == At(s.prev, id))
            && (s'.ok ==>
                  && shown.Some?
                  && var delta := Delta(d, At(s.prev, d.id), shown.value);
                  && delta >= 0
                  && s' == Pass(s.prev[d.id := shown.value], s.delta + delta, s.changed || delta != 0, true))
  {
    if shown.Some? && d.id in s.prev {
      var p, r := s.prev[d.id], shown.value;
      var x := RaplDelta(p.counter, r.counter, r.range, r.t - p.t, stale, d.maxPowerUw, d.marginUj);
      forall delta: nat ensures x == Ok(delta) <==> Moved(d, stale, p, r, delta) {
        RaplIff(d, stale, p, r, delta);
      }
      hide RaplDelta;
    }
  }

  /** A pass over the domains accepts exactly if every reading is there and plausible; those of the domains it has not
      come to are as before. */
  lemma {:induction false} PassAccepts(domains: seq<Domain>, stale: nat, shown: seq<Option<Reading>>, n: nat,
          prev: map<Id, Reading>, strict: bool)
    requires DistinctIds(domains) && n <= |domains| == |shown|
    ensures var s := ReadUpTo(domains, stale, shown, n, prev, strict);
            && (s.ok <==> forall i :: 0 <= i < n ==> Accepts(domains[i], stale, prev, shown[i], strict))
            && (forall i :: n <= i < |domains| ==> At(s.prev, domains[i].id) == At(prev, domains[i].id))
  {
    hide Accepts, ReadDomain, Delta, At;
    if n > 0 {
      PassAccepts(domains, stale, shown, n - 1, prev, strict);
      var s, d := ReadUpTo(domains, stale, shown, n - 1, prev, strict), domains[n - 1];
      if s.ok {
        ReadOne(d, stale, shown[n - 1], s, strict);
        SamePlausible(d, stale, s.prev, prev, shown[n - 1], strict);
      }
    }
  }

  /** An accepting pass keeps every reading, and counts what each counter has moved by. */
  lemma {:induction false} PassCountsAll(domains: seq<Domain>, stale: nat, shown: seq<Option<Reading>>, n: nat,
          prev: map<Id, Reading>, strict: bool)
    requires DistinctIds(domains) && n <= |domains| == |shown|
    requires ReadUpTo(domains, stale, shown, n, prev, strict).ok
    ensures var s := ReadUpTo(domains, stale, shown, n, prev, strict);
            && s.delta == Deltas(domains, prev, shown, n) && (s.changed <==> s.delta != 0)
            && (s.prev == map[] <==> n == 0 && prev == map[])
            && forall i :: 0 <= i < n ==> At(s.prev, domains[i].id) == shown[i]
  {
    hide Accepts, ReadDomain, Delta;
    if n > 0 {
      var s, d := ReadUpTo(domains, stale, shown, n - 1, prev, strict), domains[n - 1];
      PassCountsAll(domains, stale, shown, n - 1, prev, strict);
      PassAccepts(domains, stale, shown, n - 1, prev, strict);
      ReadOne(d, stale, shown[n - 1], s, strict);
      assert At(s.prev, d.id) == At(prev, d.id);
    }
  }

  lemma SamePlausible(d: Domain, stale: nat, prev: map<Id, Reading>, prev': map<Id, Reading>, shown: Option<Reading>,
          strict: bool)
    requires At(prev, d.id) == At(prev', d.id)
    ensures Accepts(d, stale, prev, shown, strict) <==> Accepts(d, stale, prev', shown, strict)
  {
  }

  /** Every reading is accepted. */
  ghost predicate AllAccepted(domains: seq<Domain>, stale: nat, prev: map<Id, Reading>, shown: seq<Option<Reading>>,
          strict: bool)
  {
    |shown| == |domains| && forall i :: 0 <= i < |domains| ==> Accepts(domains[i], stale, prev, shown[i], strict)
  }

  /** The readings of a sample are those that were shown. */
  ghost predicate Kept(shown: seq<Option<Reading>>, readings: seq<Reading>) {
    |readings| == |shown| && forall i :: 0 <= i < |shown| ==> shown[i] == Some(readings[i])
  }

  lemma {:induction false} ReadingsAre(shown: seq<Option<Reading>>)
    requires forall i :: 0 <= i < |shown| ==> shown[i].Some?
    ensures Kept(shown, Readings(shown))
  {
    if shown != [] {
      ReadingsAre(shown[..|shown| - 1]);
    }
  }

  lemma PassFacts(domains: seq<Domain>, stale: nat, shown: seq<Option<Reading>>, prev: map<Id, Reading>, strict: bool)
    requires DistinctIds(domains) && |shown| == |domains|
    ensures var s := ReadUpTo(domains, stale, shown, |domains|, prev, strict);
            && (s.ok <==> AllAccepted(domains, stale, prev, shown, strict))
            && (s.ok ==>
                  && s.delta == Deltas(domains, prev, shown, |domains|) && (s.changed <==> s.delta != 0)
                  && (s.prev == map[] <==> domains == [] && prev == map[])
                  && Kept(shown, Readings(shown)))
  {
    PassAccepts(domains, stale, shown, |domains|, prev, strict);
    if ReadUpTo(domains, stale, shown, |domains|, prev, strict).ok {
      assert forall i :: 0 <= i < |domains| ==> Accepts(domains[i], stale, prev, shown[i], strict) && shown[i].Some?;
      hide ReadUpTo, Accepts, Deltas, DistinctIds, Kept;
      PassCountsAll(domains, stale, shown, |domains|, prev, strict);
      ReadingsAre(shown);
    }
  }

  // ---- a sample as a whole ----

  /** Every reading is accepted, and the CPU time has not gone back. */
  ghost predicate Sound(domains: seq<Domain>, stale: nat, m: Meter, inp: SampleInput)
    requires |inp.shown| == |domains|
  {
    && AllAccepted(domains, stale, m.prev, inp.shown, true)
    && inp.cpuUs.Some? && m.lastCpuUs <= inp.cpuUs.value
  }

  /** No counter has moved. */
  predicate Still(domains: seq<Domain>, m: Meter, inp: SampleInput)
    requires |inp.shown| == |domains|
  {
    Deltas(domains, m.prev, inp.shown, |domains|) == 0 && (domains != [] || m.prev != map[])
  }

  /** For a second or more no counter has moved while at least ten milliseconds of CPU time were used. */
  predicate Stuck(domains: seq<Domain>, m: Meter, inp: SampleInput)
    requires |inp.shown| == |domains| && inp.cpuUs.Some?
  {
    && Still(domains, m, inp) && m.unchangedSinceUs.Some?
    && inp.now - m.unchangedSinceUs.value >= 1_000_000 && inp.cpuUs.value - m.unchangedCpuAtUs >= 10_000
  }

  predicate Writable(index: int, cpu: int, delta: int, total: int) {
    index <= U_MAX && 0 <= cpu <= U_MAX && 0 <= delta <= U_MAX && total <= U_MAX
  }

  /** A regular sample: its energy counts exactly if the readings are sound and the sensor is not stuck; it is recorded
      exactly if its numbers can also be written; and the watch for a stuck sensor starts when the counters stand
      still and ends when they move. */
  lemma SampleIff(domains: seq<Domain>, stale: nat, m: Meter, inp: SampleInput)
    requires DistinctIds(domains) && |inp.shown| == |domains|
    ensures var (m', sample) := TakeSample(domains, stale, m, inp);
            var delta := Deltas(domains, m.prev, inp.shown, |domains|);
            var counted := Sound(domains, stale, m, inp) && !Stuck(domains, m, inp);
            && (counted ==>
                  && m'.energyUj == m.energyUj + delta && m'.index == m.index + 1 && m'.lastCpuUs == inp.cpuUs.value
                  && (m'.unchangedSinceUs.Some? <==> Still(domains, m, inp))
                  && (Still(domains, m, inp) && m.unchangedSinceUs.None? ==>
                        m'.unchangedSinceUs == Some(inp.now) && m'.unchangedCpuAtUs == inp.cpuUs.value)
                  && (Still(domains, m, inp) && m.unchangedSinceUs.Some? ==>
                        m'.unchangedSinceUs == m.unchangedSinceUs && m'.unchangedCpuAtUs == m.unchangedCpuAtUs))
            && (!counted ==> m' == m.(prev := m'.prev))
            && (sample.Some? <==> counted && Writable(m.index + 1, inp.cpuUs.value, delta, m.energyUj + delta))
            && (sample.Some? ==> RecordsAll(sample.value, m, inp, delta))
  {
    hide ReadUpTo, AllAccepted, Deltas, DistinctIds, Readings, Kept;
    PassFacts(domains, stale, inp.shown, m.prev, true);
  }

  /** The record of a sample: numbered on, with every reading, the delta and the new total. */
  ghost predicate RecordsAll(sample: Sample, m: Meter, inp: SampleInput, delta: int) {
    && sample.index == m.index + 1 && sample.t == inp.now && inp.cpuUs.Some?
    && sample.delta == delta && sample.total == m.energyUj + delta
    && Kept(inp.shown, sample.readings)
  }

  /** The final reading: its energy counts exactly if every reading is accepted and the CPU time is known, whether or
      not a counter's range has changed; nothing but the readings and the total moves. */
  lemma FinalIff(domains: seq<Domain>, stale: nat, m: Meter, inp: SampleInput)
    requires DistinctIds(domains) && |inp.shown| == |domains|
    ensures var (m', sample) := TakeFinal(domains, stale, m, inp);
            var delta := Deltas(domains, m.prev, inp.shown, |domains|);
            var counted := inp.cpuUs.Some? && AllAccepted(domains, stale, m.prev, inp.shown, false);
            var cpu := if inp.cpuUs.None? || inp.cpuUs.value < 0 then 0 else inp.cpuUs.value;
            && m' == m.(prev := m'.prev, energyUj := m'.energyUj)
            && m'.energyUj == m.energyUj + (if counted then delta else 0)
            && (sample.Some? <==> counted && Writable(m.index + 1, cpu, delta, m.energyUj + delta))
            && (sample.Some? ==> RecordsAll(sample.value, m, inp, delta) && sample.value.cpu == cpu)
  {
    hide ReadUpTo, AllAccepted, Deltas, DistinctIds, Readings, Kept;
    PassFacts(domains, stale, inp.shown, m.prev, false);
  }

  // ---- the reserve is tight ----

  /** A host whose domains draw nothing until time 0, and from then on as much as they may. */
  function Greedy(domains: seq<Domain>): World {
    World((id: Id, t: int) => if t <= 0 then 0 else Demand(domains, id, t), (id: Id) => 1)
  }

  /** What the domain with this id may draw in `t`. */
  function Demand(domains: seq<Domain>, id: Id, t: int): int {
    if domains == [] then 0
    else
      var d := domains[|domains| - 1];
      if d.id == id then Ceiling(d.maxPowerUw, t) + d.marginUj else Demand(domains[..|domains| - 1], id, t)
  }

  lemma {:induction false} DemandOf(domains: seq<Domain>, i: nat, t: int)
    requires DistinctIds(domains) && i < |domains|
    ensures Demand(domains, domains[i].id, t) == Ceiling(domains[i].maxPowerUw, t) + domains[i].marginUj
  {
    var n := |domains| - 1;
    if i < n {
      assert domains[..n][i] == domains[i];
      DemandOf(domains[..n], i, t);
    }
  }

  lemma CeilingSplits(p: nat, a: nat, b: nat)
    ensures 0 <= Ceiling(p, a) <= Ceiling(p, a + b) <= Ceiling(p, a) + Ceiling(p, b)
  {
    assert p * (a + b) == p * a + p * b;
  }

  lemma GreedyIsRated(domains: seq<Domain>)
    requires DistinctIds(domains)
    ensures forall i :: 0 <= i < |domains| ==> Rated(Greedy(domains), domains[i])
  {
    var w := Greedy(domains);
    forall i | 0 <= i < |domains| ensures Rated(w, domains[i]) {
      var d := domains[i];
      forall t1, t2 | t1 <= t2
        ensures 0 <= w.draw(d.id, t2) - w.draw(d.id, t1) <= Ceiling(d.maxPowerUw, t2 - t1) + d.marginUj
      {
        DemandOf(domains, i, t1);
        DemandOf(domains, i, t2);
        if t1 > 0 {
          CeilingSplits(d.maxPowerUw, t1, t2 - t1);
        } else if t2 > 0 {
          CeilingSplits(d.maxPowerUw, t2, -t1);
        } else {
          CeilingSplits(d.maxPowerUw, t2 - t1, 0);
        }
      }
    }
  }

  function AllRead(domains: seq<Domain>, t: int): map<Id, Reading> {
    map i | 0 <= i < |domains| :: domains[i].id := Reading(0, 1, t)
  }

  lemma {:induction false} GreedyDraws(domains: seq<Domain>, n: nat, span: nat, prev: map<Id, Reading>,
          anchors: map<Id, int>)
    requires DistinctIds(domains) && n <= |domains| && span > 0 && anchors.Keys == prev.Keys
    requires forall i :: 0 <= i < |domains| ==>
               domains[i].id in prev && prev[domains[i].id].t == span && anchors[domains[i].id] == 0
    ensures Drawn(Greedy(domains), domains[..n], prev, anchors) == ReserveUj(domains[..n], span, 0)
  {
    if n > 0 {
      GreedyDraws(domains, n - 1, span, prev, anchors);
      assert domains[..n][..n - 1] == domains[..n - 1];
      DemandOf(domains, n - 1, span);
    }
  }

  lemma {:induction false} ReserveSpans(domains: seq<Domain>, stale: nat, kill: nat)
    ensures ReserveUj(domains, stale + kill, 0) == ReserveUj(domains, stale, kill)
  {
    if domains != [] {
      ReserveSpans(domains[..|domains| - 1], stale, kill);
    }
  }

  /** The reserve is the least that covers a stale interval and the kill deadline: some host keeps to its rated power
      and draws exactly that much. */
  lemma ReserveIsTight(domains: seq<Domain>, stale: nat, kill: nat)
    returns (w: World, prev: map<Id, Reading>, anchors: map<Id, int>)
    requires DistinctIds(domains) && stale + kill > 0
    ensures forall i :: 0 <= i < |domains| ==> Rated(w, domains[i])
    ensures anchors.Keys == prev.Keys && forall id :: id in prev ==> prev[id].t - anchors[id] == stale + kill
    ensures Drawn(w, domains, prev, anchors) == ReserveUj(domains, stale, kill)
  {
    w, prev := Greedy(domains), AllRead(domains, stale + kill);
    anchors := map id | id in prev :: 0;
    GreedyIsRated(domains);
    GreedyDraws(domains, |domains|, stale + kill, prev, anchors);
    assert domains[..|domains|] == domains;
    ReserveSpans(domains, stale, kill);
    hide Rated, Drawn, ReserveUj, Greedy;
  }
}
