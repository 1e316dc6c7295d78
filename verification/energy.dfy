/** Metered energy over whole runs: it is the true draw of the domains, and it stays below the cap. */
module Energy {
  import opened Types
  import opened Ledger
  import opened Invariants
  import opened Supervisor
  import opened Runs
  import opened Theorems
  import opened Metering
  import opened Audit

  // ---- what is assumed of the host ----

  predicate Reads(st: Move) {
    st.Sampling? || st.FinalReading?
  }

  /** A reading taken in a step shows the true draw at a moment within that step. */
  ghost predicate HostTrue(su: Setup, w: World, r: Run, st: Move) {
    Reads(st) ==>
      && |st.inp.shown| == |su.domains|
      && forall i :: 0 <= i < |su.domains| && st.inp.shown[i].Some? ==>
           Shows(w, su.domains[i].id, st.inp.shown[i].value) && r.clock <= st.inp.shown[i].value.t <= st.at
  }

  /** Until the stop is latched, each step ends at most `stale_us` after the latest reading of every
      domain; from then on readings are only taken up to `kill_deadline_us` after the latch. */
  ghost predicate Prompt(su: Setup, r: Run, st: Move) {
    && (r.core.stopReason.None? ==>
          && (forall id :: id in r.meter.prev ==> st.at <= r.meter.prev[id].t + su.staleUs)
          && (Reads(st) ==> forall i :: 0 <= i < |st.inp.shown| && st.inp.shown[i].Some? ==>
                              st.at <= st.inp.shown[i].value.t + su.staleUs))
    && (Reads(st) && r.core.stopLatchedUs.Some? ==>
          forall i :: 0 <= i < |st.inp.shown| && st.inp.shown[i].Some? ==>
            st.inp.shown[i].value.t <= r.core.stopLatchedUs.value + su.killUs)
  }

  ghost predicate Physical(su: Setup, w: World) {
    DistinctIds(su.domains) && forall i :: 0 <= i < |su.domains| ==> Rated(w, su.domains[i])
  }

  /** Every reading of the history is true. */
  ghost predicate Honest(su: Setup, w: World, steps: seq<Move>)
    requires History(su, steps)
  {
    steps == []
    || (var init := steps[..|steps| - 1];
        Honest(su, w, init) && HostTrue(su, w, Supervisor.After(su, init), steps[|steps| - 1]))
  }

  ghost predicate Timely(su: Setup, steps: seq<Move>)
    requires History(su, steps)
  {
    steps == []
    || (var init := steps[..|steps| - 1];
        Timely(su, init) && Prompt(su, Supervisor.After(su, init), steps[|steps| - 1]))
  }

  // ---- one step's effect on the meter ----

  /** The pass over the domains that a step makes. */
  function PassOf(su: Setup, r: Run, st: Move): Pass
    requires Reads(st) && |st.inp.shown| == |su.domains|
  {
    ReadUpTo(su.domains, su.staleUs, st.inp.shown, |su.domains|, r.meter.prev, st.Sampling?)
  }

  predicate Recorded(su: Setup, r: Run, st: Move)
    requires Reads(st) && |st.inp.shown| == |su.domains|
  {
    if st.Sampling? then TakeSample(su.domains, su.staleUs, r.meter, st.inp).1.Some?
    else TakeFinal(su.domains, su.staleUs, r.meter, st.inp).1.Some?
  }

  /** A step without readings leaves the meter alone; one with readings keeps the pass's readings and
      counts the pass's energy, or none of it when a check raised. */
  lemma MeterMoves(su: Setup, r: Run, st: Move)
    requires Legal(su, r, st)
    ensures !Reads(st) ==> NextRun(su, r, st).meter == r.meter
    ensures Reads(st) ==>
              var s, m := PassOf(su, r, st), NextRun(su, r, st).meter;
              && m.prev == s.prev
              && (m.energyUj == r.meter.energyUj || m.energyUj == r.meter.energyUj + s.delta)
              && (Recorded(su, r, st) ==> m.energyUj == r.meter.energyUj + s.delta)
  {
    hide ReadUpTo, ApplyAll, Append, OpsOf, AllEnabled, Latches, Commits, Answer, Readings;
  }

  /** The account before and after a step with readings. */
  lemma StepAccount(su: Setup, w: World, r: Run, st: Move, anchors: map<Id, int>)
    requires Legal(su, r, st) && Reads(st) && HostTrue(su, w, r, st) && Physical(su, w)
    requires anchors.Keys == r.meter.prev.Keys && AllShown(w, su.domains, r.meter.prev)
    requires forall id :: id in r.meter.prev ==> r.meter.prev[id].t <= r.clock
    ensures Setting(w, su.domains, st.inp.shown, r.meter.prev)
    ensures PassCounts(w, su.domains, r.meter.prev, anchors, PassOf(su, r, st))
    ensures PassKeeps(su.domains, st.inp.shown, |su.domains|, r.meter.prev, PassOf(su, r, st).prev)
  {
    hide Legal;
    assert Setting(w, su.domains, st.inp.shown, r.meter.prev);
    hide Setting, PassCounts, PassKeeps, HostTrue, Physical, ReadUpTo, AllShown;
    PassAccounts(w, su.domains, su.staleUs, st.inp.shown, |su.domains|, r.meter.prev, anchors, st.Sampling?);
  }

  // ---- metered energy is true draw ----

  function LatestTimes(prev: map<Id, Reading>): map<Id, int> {
    map id | id in prev :: prev[id].t
  }

  /** The latest readings are true and not from the future. */
  ghost predicate Genuine(su: Setup, w: World, r: Run) {
    && AllShown(w, su.domains, r.meter.prev)
    && forall id :: id in r.meter.prev ==> r.meter.prev[id].t <= r.clock
  }

  /** Each reading kept by a pass is an old one or one the host showed in this step. */
  lemma KeptReadings(su: Setup, w: World, r: Run, st: Move, after: map<Id, Reading>)
    requires Reads(st) && HostTrue(su, w, r, st) && Genuine(su, w, r) && r.clock <= st.at
    requires PassKeeps(su.domains, st.inp.shown, |su.domains|, r.meter.prev, after)
    ensures KeptFacts(su, w, r, st, after)
  {
    hide Shows;
    forall id | id in after
      ensures after[id].t <= st.at && (id in r.meter.prev ==> r.meter.prev[id].t <= after[id].t)
      ensures id !in r.meter.prev ==> r.clock <= after[id].t
      ensures forall i :: 0 <= i < |su.domains| && su.domains[i].id == id ==> Shows(w, id, after[id])
    {
      if id !in r.meter.prev || after[id] != r.meter.prev[id] {
        var i :| 0 <= i < |su.domains| && su.domains[i].id == id && st.inp.shown[i] == Some(after[id]);
        assert Shows(w, su.domains[i].id, st.inp.shown[i].value);
      }
    }
  }

  ghost predicate KeptFacts(su: Setup, w: World, r: Run, st: Move, after: map<Id, Reading>) {
    && AllShown(w, su.domains, after) && (forall id :: id in after ==> after[id].t <= st.at)
    && (forall id :: id in r.meter.prev ==> id in after && r.meter.prev[id].t <= after[id].t)
    && (forall id :: id in after && id !in r.meter.prev ==> r.clock <= after[id].t)
  }

  /** What a step with readings does to the latest readings. */
  lemma StepReadings(su: Setup, w: World, r: Run, st: Move)
    requires Legal(su, r, st) && Reads(st) && HostTrue(su, w, r, st) && Physical(su, w) && Genuine(su, w, r)
    ensures PassKeeps(su.domains, st.inp.shown, |su.domains|, r.meter.prev, NextRun(su, r, st).meter.prev)
    ensures KeptFacts(su, w, r, st, NextRun(su, r, st).meter.prev)
  {
    var anchors := LatestTimes(r.meter.prev);
    assert AllShown(w, su.domains, r.meter.prev) && forall id :: id in r.meter.prev ==> r.meter.prev[id].t <= r.clock;
    hide Legal, NextRun, ReadUpTo, HostTrue, Genuine, Physical, PassOf, PassKeeps, KeptFacts, AllShown, Setting,
         PassCounts;
    MeterMoves(su, r, st);
    StepAccount(su, w, r, st, anchors);
    KeptReadings(su, w, r, st, NextRun(su, r, st).meter.prev) by { LegalCommit(su, r, st); }
  }

  lemma StaysGenuine(su: Setup, w: World, r: Run, st: Move)
    requires Legal(su, r, st) && HostTrue(su, w, r, st) && Physical(su, w) && Genuine(su, w, r)
    ensures Genuine(su, w, NextRun(su, r, st))
  {
    LegalCommit(su, r, st);
    if Reads(st) {
      StepReadings(su, w, r, st);
    } else {
      MeterMoves(su, r, st);
    }
    hide Legal, NextRun, PassKeeps, ApplyAll, Append, OpsOf, AllEnabled, Latches, Ordered, AllShown;
  }

  /** Metered energy against the true draw since the anchors. */
  ghost predicate Accounted(su: Setup, w: World, r: Run, anchors: map<Id, int>, base: nat, exact: bool) {
    && anchors.Keys == r.meter.prev.Keys
    && r.meter.energyUj <= base + Drawn(w, su.domains, r.meter.prev, anchors)
    && (exact ==> r.meter.energyUj == base + Drawn(w, su.domains, r.meter.prev, anchors))
  }

  lemma StepAccounts(su: Setup, w: World, r: Run, st: Move, anchors: map<Id, int>, base: nat, exact: bool)
    requires Legal(su, r, st) && HostTrue(su, w, r, st) && Physical(su, w) && Genuine(su, w, r)
    requires Accounted(su, w, r, anchors, base, exact)
    ensures var r' := NextRun(su, r, st);
            Accounted(su, w, r', Anchored(anchors, r'.meter.prev), base,
                      exact && (Reads(st) && |st.inp.shown| == |su.domains| ==> Recorded(su, r, st)))
  {
    MeterMoves(su, r, st);
    if Reads(st) {
      StepAccount(su, w, r, st, anchors);
    } else {
      assert Anchored(anchors, r.meter.prev) == anchors;
    }
    hide Legal, NextRun, PassKeeps, Setting, ReadUpTo, Recorded, Drawn;
  }

  lemma {:induction false} DrawnNothing(w: World, domains: seq<Domain>, prev: map<Id, Reading>, anchors: map<Id, int>)
    requires anchors.Keys == prev.Keys && forall id :: id in prev ==> anchors[id] == prev[id].t
    ensures Drawn(w, domains, prev, anchors) == 0
  {
    if domains != [] {
      DrawnNothing(w, domains[..|domains| - 1], prev, anchors);
    }
  }

  /** When each domain was first read by a recorded or faulted sample; the baseline reading of `arm` is
      not kept, so metering starts here. */
  ghost function FirstReads(su: Setup, steps: seq<Move>): map<Id, int>
    requires History(su, steps)
  {
    if steps == [] then map[]
    else Anchored(FirstReads(su, steps[..|steps| - 1]), Supervisor.After(su, steps).meter.prev)
  }

  /** No sample of the history raised. */
  ghost predicate Faultless(su: Setup, steps: seq<Move>)
    requires History(su, steps)
  {
    steps == []
    || (var init, st := steps[..|steps| - 1], steps[|steps| - 1];
        Faultless(su, init) && (Reads(st) ==> Recorded(su, Supervisor.After(su, init), st)))
  }

  /** RAPL exactness over a whole run: the metered energy is exactly what the domains drew from their
      first reading to their latest one, if no sample faulted, and never more than that. */
  lemma {:induction false} MeterIsExact(su: Setup, w: World, steps: seq<Move>)
    requires History(su, steps) && Honest(su, w, steps) && Physical(su, w)
    ensures Genuine(su, w, Supervisor.After(su, steps))
    ensures Accounted(su, w, Supervisor.After(su, steps), FirstReads(su, steps), 0, Faultless(su, steps))
  {
    if steps == [] {
      DrawnNothing(w, su.domains, map[], map[]);
    } else {
      var init, st := steps[..|steps| - 1], steps[|steps| - 1];
      var r := Supervisor.After(su, init);
      MeterIsExact(su, w, init);
      StaysGenuine(su, w, r, st);
      StepAccounts(su, w, r, st, FirstReads(su, init), 0, Faultless(su, init));
      hide Accounted, Genuine, NextRun, Physical;
    }
  }

  lemma FaultLatchesRunning(cfg: Config, c: Core)
    requires c.phase in {RUNNING, STOPPING, UNCONFIRMED} && Coherent(c)
    ensures ApplyAll(cfg, c, [Observe(SENSOR_FAULT)]).0.stopReason.Some?
  {
    var ops := [Observe(SENSOR_FAULT)];
    assert ops[..0] == [] && ops[0] == Observe(SENSOR_FAULT);
  }

  lemma FaultedOps(su: Setup, r: Run, st: Move)
    requires Legal(su, r, st) && Reads(st) && !Recorded(su, r, st)
    ensures OpsOf(su, r, st) == [Observe(SENSOR_FAULT)] && r.core.phase in {RUNNING, STOPPING, UNCONFIRMED}
  {
    hide TakeSample, TakeFinal, ApplyAll, AllEnabled, Ordered;
  }

  /** A sample that raises latches the stop. */
  lemma FaultLatches(su: Setup, r: Run, st: Move)
    requires Legal(su, r, st) && Reads(st) && !Recorded(su, r, st) && Coherent(r.core)
    ensures NextRun(su, r, st).core.stopReason.Some?
  {
    LegalCommit(su, r, st);
    FaultedOps(su, r, st);
    hide Legal, NextRun, ApplyAll, OpsOf, Recorded, Append, Ordered, AllEnabled;
    FaultLatchesRunning(su.cfg, r.core);
  }

  /** As long as a run has not latched its stop, no sample has faulted: a running run's meter is exact. */
  lemma {:induction false} UnlatchedIsFaultless(su: Setup, steps: seq<Move>)
    requires History(su, steps) && Supervisor.After(su, steps).core.stopReason.None?
    ensures Faultless(su, steps)
  {
    if steps != [] {
      var init, st := steps[..|steps| - 1], steps[|steps| - 1];
      var r := Supervisor.After(su, init);
      NothingUndone(su, steps, |steps| - 1);
      Reachable(su, init);
      Parts(su.cfg, r.core);
      hide RunInv, NextRun, Legal, Recorded, Coherent;
      UnlatchedIsFaultless(su, init);
      if Reads(st) && !Recorded(su, r, st) {
        FaultLatches(su, r, st);
      }
    }
  }

  // ---- metered energy stays below the cap ----

  lemma CeilingMono(p: nat, dt: int, dt': int)
    requires dt <= dt'
    ensures Ceiling(p, dt) <= Ceiling(p, dt')
  {
    assert p * dt <= p * dt';
  }

  /** What the domains draw within a stale interval plus the kill deadline fits the reserve. */
  lemma {:induction false} DrawnWithinReserve(w: World, domains: seq<Domain>, prev: map<Id, Reading>,
          anchors: map<Id, int>, stale: nat, kill: nat)
    requires forall i :: 0 <= i < |domains| ==> Rated(w, domains[i])
    requires anchors.Keys == prev.Keys && forall id :: id in prev ==> 0 <= prev[id].t - anchors[id] <= stale + kill
    ensures Drawn(w, domains, prev, anchors) <= ReserveUj(domains, stale, kill)
  {
    if domains != [] {
      var n := |domains| - 1;
      var d := domains[n];
      DrawnWithinReserve(w, domains[..n], prev, anchors, stale, kill);
      assert Rated(w, d) && Ceiling(d.maxPowerUw, stale + kill) >= 0;
      if d.id in prev {
        CeilingMono(d.maxPowerUw, prev[d.id].t - anchors[d.id], stale + kill);
      }
    }
  }

  /** Every domain's latest reading lies within the window the reserve was computed for. The window of a
      run that is not stopping starts at its latest readings. */
  ghost predicate InWindow(su: Setup, r: Run, base: map<Id, int>) {
    && base.Keys == r.meter.prev.Keys
    && (forall id :: id in base ==> base[id] <= r.meter.prev[id].t)
    && (r.core.stopReason.None? ==> forall id :: id in base ==> base[id] == r.meter.prev[id].t)
    && (r.core.stopLatchedUs.Some? ==> forall id :: id in base ==>
          r.core.stopLatchedUs.value <= base[id] + su.staleUs
          && r.meter.prev[id].t <= r.core.stopLatchedUs.value + su.killUs)
  }

  ghost function NextBase(base: map<Id, int>, r': Run): map<Id, int> {
    if r'.core.stopReason.None? then LatestTimes(r'.meter.prev) else Anchored(base, r'.meter.prev)
  }

  /** The latch time of a step's successor: the old one, or the step's own end. */
  lemma LatchTime(su: Setup, r: Run, st: Move)
    requires RunInv(su, r) && Legal(su, r, st)
    ensures var r' := NextRun(su, r, st);
            && Timed(r')
            && (r.core.stopReason.Some? ==> r'.core.stopReason == r.core.stopReason)
            && (r.core.stopReason.Some? ==> r'.core.stopLatchedUs == r.core.stopLatchedUs)
            && (r.core.stopReason.None? && r'.core.stopReason.Some? ==> r'.core.stopLatchedUs == Some(st.at))
  {
    StepKeeps(su, r, st);
    LegalCommit(su, r, st);
    hide Legal, Inv, Faithful, Released, NextRun, Apply, ApplyAll, Append, AllEnabled, Latches, Ordered, OpsOf;
    ApplyAllFrame(su.cfg, r.core, OpsOf(su, r, st));
  }

  /** A step's latest readings: no domain goes back in time, and what is new was read within the step,
      promptly, and before the kill deadline. */
  ghost predicate FreshReadings(su: Setup, r: Run, at: int, after: map<Id, Reading>) {
    && (forall id :: id in r.meter.prev ==> id in after && r.meter.prev[id].t <= after[id].t)
    && (forall id :: id in after ==> after[id].t <= at)
    && (forall id :: id in after && (id !in r.meter.prev || after[id] != r.meter.prev[id]) ==>
          && r.clock <= after[id].t
          && (r.core.stopReason.None? ==> at <= after[id].t + su.staleUs)
          && (r.core.stopLatchedUs.Some? ==> after[id].t <= r.core.stopLatchedUs.value + su.killUs))
  }

  lemma NewReadings(su: Setup, w: World, r: Run, st: Move)
    requires Legal(su, r, st) && HostTrue(su, w, r, st) && Physical(su, w) && Genuine(su, w, r) && Prompt(su, r, st)
    ensures FreshReadings(su, r, st.at, NextRun(su, r, st).meter.prev)
  {
    hide Legal, NextRun, HostTrue, Physical, Genuine, Prompt, PassKeeps, KeptFacts, FreshReadings, RunInv;
    hide ApplyAll, OpsOf, Append, Ordered, AllEnabled;
    LegalCommit(su, r, st);
    if Reads(st) {
      StepReadings(su, w, r, st);
      FreshWithReadings(su, w, r, st, NextRun(su, r, st).meter.prev);
    } else {
      MeterMoves(su, r, st);
      FreshWithout(su, w, r, st.at);
    }
  }

  lemma FreshWithout(su: Setup, w: World, r: Run, at: int)
    requires Genuine(su, w, r) && r.clock <= at
    ensures FreshReadings(su, r, at, r.meter.prev)
  {
  }

  lemma FreshWithReadings(su: Setup, w: World, r: Run, st: Move, after: map<Id, Reading>)
    requires Reads(st) && |st.inp.shown| == |su.domains| && HostTrue(su, w, r, st) && Prompt(su, r, st)
    requires PassKeeps(su.domains, st.inp.shown, |su.domains|, r.meter.prev, after) && KeptFacts(su, w, r, st, after)
    ensures FreshReadings(su, r, st.at, after)
  {
    hide AllShown, Shows;
    forall id | id in after && (id !in r.meter.prev || after[id] != r.meter.prev[id])
      ensures exists i :: 0 <= i < |su.domains| && su.domains[i].id == id && st.inp.shown[i] == Some(after[id])
    {
    }
    hide PassKeeps;
  }

  lemma WindowMoves(su: Setup, r: Run, r': Run, base: map<Id, int>)
    requires Timed(r) && Timed(r') && InWindow(su, r, base) && r.clock <= r'.clock
    requires FreshReadings(su, r, r'.clock, r'.meter.prev)
    requires r.core.stopReason.Some? ==> r'.core.stopReason == r.core.stopReason
    requires r.core.stopReason.Some? ==> r'.core.stopLatchedUs == r.core.stopLatchedUs
    requires r.core.stopReason.None? && r'.core.stopReason.Some? ==> r'.core.stopLatchedUs == Some(r'.clock)
    requires r.core.stopReason.None? ==> forall id :: id in r.meter.prev ==> r'.clock <= r.meter.prev[id].t + su.staleUs
    ensures InWindow(su, r', NextBase(base, r'))
  {
  }

  lemma StaysInWindow(su: Setup, w: World, r: Run, st: Move, base: map<Id, int>)
    requires RunInv(su, r) && Legal(su, r, st) && HostTrue(su, w, r, st) && Physical(su, w) && Genuine(su, w, r)
    requires Prompt(su, r, st) && InWindow(su, r, base)
    ensures InWindow(su, NextRun(su, r, st), NextBase(base, NextRun(su, r, st)))
  {
    LatchTime(su, r, st);
    NewReadings(su, w, r, st);
    LegalCommit(su, r, st);
    hide Legal, NextRun, Inv, Faithful, Released, AllShown, Physical, InWindow, FreshReadings, NextBase, HostTrue,
         Ordered, ApplyAll, OpsOf, Append, Latches, AllEnabled;
    WindowMoves(su, r, NextRun(su, r, st), base);
  }

  /** Which reasons an operation can latch. */
  lemma LatchedReasons(cfg: Config, c: Core, op: Op)
    requires c.stopReason.None?
    ensures var reason := Apply(cfg, c, op).core.stopReason;
            reason.Some? ==> reason.value in {SPAWN_CAP, FLOPS_CAP}
                             || (op.Halt? && reason.value == op.reason) || (op.Observe? && reason.value == op.reason)
  {
    hide PolicyAllows, ChargeOf, ObservedCharge, SweepEvents, AuditOf, FinishedRec, FinalPhase;
  }

  /** What the guard demands after a recorded sample is what the run latches. */
  lemma GuardLatches(cfg: Config, c: Core, sample: Sample, guard: Option<Reason>)
    requires c.phase == RUNNING && c.stopReason.None?
    ensures ApplyAll(cfg, c, [Record(sample)] + (if guard.None? then [] else [Halt(guard.value)])).0.stopReason == guard
  {
    ApplyOne(cfg, c, Record(sample));
    if guard.None? {
      assert [Record(sample)] + [] == [Record(sample)];
    } else {
      var ops := [Record(sample)] + [Halt(guard.value)];
      assert ops[..1] == [Record(sample)] && ops[1] == Halt(guard.value);
      assert ApplyAll(cfg, c, ops).0 == Stop(c, guard.value).core;
    }
  }

  /** The operations of a recorded sample, and the meter after it. */
  lemma RecordedOps(su: Setup, r: Run, st: Move)
    requires Legal(su, r, st) && st.Sampling? && Recorded(su, r, st)
    ensures var (m, sample) := TakeSample(su.domains, su.staleUs, r.meter, st.inp);
            && NextRun(su, r, st).meter == m && sample.Some?
            && OpsOf(su, r, st) == [Record(sample.value)] + GuardOps(su, r.core.phase, m.energyUj)
  {
    hide TakeSample, ApplyAll, Append, AllEnabled, Latches, GuardOps, Ordered;
  }

  lemma SamplesWhileRunning(su: Setup, r: Run, st: Move)
    requires Legal(su, r, st) && Reads(st) && r.core.stopReason.None? && Coherent(r.core)
    ensures r.core.phase == RUNNING && st.Sampling?
  {
    hide ApplyAll, AllEnabled, OpsOf;
  }

  lemma GuardSays(total: int, cap: int, reserve: int)
    ensures GuardEval(total, cap, reserve)
         == if cap <= total then Some(MEASUREMENT_OVERRUN)
            else if cap <= total + reserve then Some(ENERGY_GUARD)
            else None
  {
  }

  /** A recorded sample of a running run: the guard sees the new total, and the run is stopped exactly if the cap is
      reached or the reserve does not fit under it any more. */
  lemma GuardedSample(su: Setup, r: Run, st: Move)
    requires Legal(su, r, st) && st.Sampling? && Recorded(su, r, st)
    requires r.core.stopReason.None? && Coherent(r.core) && su.cfg.budgets.maxEnergyUj.Some?
    ensures var r' := NextRun(su, r, st);
            r'.core.stopReason == GuardEval(r'.meter.energyUj, su.cfg.budgets.maxEnergyUj.value, su.Reserve())
    ensures var total, cap := NextRun(su, r, st).meter.energyUj, su.cfg.budgets.maxEnergyUj.value;
            NextRun(su, r, st).core.stopReason
            == if cap <= total then Some(MEASUREMENT_OVERRUN)
               else if cap <= total + su.Reserve() then Some(ENERGY_GUARD)
               else None
  {
    GuardSays(NextRun(su, r, st).meter.energyUj, su.cfg.budgets.maxEnergyUj.value, su.Reserve());
    hide TakeSample, NextRun, Legal, GuardEval, ApplyAll, OpsOf, Recorded, Append, Ordered, AllEnabled, Coherent;
    LegalCommit(su, r, st);
    RecordedOps(su, r, st);
    SamplesWhileRunning(su, r, st);
    var (m, sample) := TakeSample(su.domains, su.staleUs, r.meter, st.inp);
    GuardLatches(su.cfg, r.core, sample.value, GuardEval(m.energyUj, su.cfg.budgets.maxEnergyUj.value, su.Reserve()));
  }

  /** The drain resolves actions and nothing else. */
  lemma {:induction false} DrainNeverLatches(cfg: Config, c: Core, ops: seq<Op>)
    requires Resolves(ops)
    ensures ApplyAll(cfg, c, ops).0.stopReason == c.stopReason
  {
    hide Apply;
    if ops != [] {
      var n := |ops| - 1;
      DrainNeverLatches(cfg, c, ops[..n]);
      ResolvingKeepsReason(cfg, ApplyAll(cfg, c, ops[..n]).0, ops[n]);
    }
  }

  lemma ResolvingKeepsReason(cfg: Config, c: Core, op: Op)
    requires op.Finish? || op.GiveUp?
    ensures Apply(cfg, c, op).core.stopReason == c.stopReason
  {
    hide AuditOf, FinishedRec;
  }

  /** Every step but a recorded sample and the drain applies at most one operation, and none that latches
      an overrun. */
  lemma OneOpSteps(su: Setup, r: Run, st: Move)
    requires Legal(su, r, st) && (st.Sampling? ==> !Recorded(su, r, st)) && !st.Drain?
    ensures var ops := OpsOf(su, r, st);
            ops == [] || (|ops| == 1 && ops == [ops[0]]
                          && !(ops[0].Halt? && ops[0].reason in {ENERGY_GUARD, MEASUREMENT_OVERRUN})
                          && !(ops[0].Observe? && ops[0].reason in {ENERGY_GUARD, MEASUREMENT_OVERRUN}))
  {
    hide ApplyAll, AllEnabled, TakeSample, TakeFinal, Commits, TokenSigned, Ordered;
  }

  lemma DrainResolves(su: Setup, r: Run, st: Move)
    requires Legal(su, r, st) && st.Drain?
    ensures OpsOf(su, r, st) == st.ops && Resolves(st.ops)
  {
    hide ApplyAll, AllEnabled;
  }

  /** An energy stop can only be latched by a recorded sample of a capped run whose total, with the reserve, reaches the
      cap; an overrun only by one whose total alone does. */
  lemma OverrunNeedsTotal(su: Setup, r: Run, st: Move)
    requires Legal(su, r, st) && Coherent(r.core) && r.core.stopReason.None?
    requires NextRun(su, r, st).core.stopReason in {Some(ENERGY_GUARD), Some(MEASUREMENT_OVERRUN)}
    ensures st.Sampling? && su.cfg.budgets.maxEnergyUj.Some?
    ensures var total := NextRun(su, r, st).meter.energyUj;
            if NextRun(su, r, st).core.stopReason == Some(MEASUREMENT_OVERRUN)
            then total >= su.cfg.budgets.maxEnergyUj.value
            else total + su.Reserve() >= su.cfg.budgets.maxEnergyUj.value
  {
    hide NextRun, Legal, Apply, ApplyAll, Append, AllEnabled, Latches, Recorded, Ordered, OpsOf, Coherent;
    LegalCommit(su, r, st);
    if st.Sampling? && Recorded(su, r, st) {
      if su.cfg.budgets.maxEnergyUj.Some? {
        GuardedSample(su, r, st);
      } else {
        UncappedSample(su, r, st);
      }
    } else if st.Drain? {
      DrainResolves(su, r, st);
      DrainNeverLatches(su.cfg, r.core, st.ops);
    } else {
      OneOpSteps(su, r, st);
      ApplyNone(su.cfg, r.core);
      var ops := OpsOf(su, r, st);
      if ops != [] {
        ApplyOne(su.cfg, r.core, ops[0]);
        LatchedReasons(su.cfg, r.core, ops[0]);
      }
    }
  }

  /** Without a cap no sample stops a run. */
  lemma UncappedSample(su: Setup, r: Run, st: Move)
    requires Legal(su, r, st) && st.Sampling? && Recorded(su, r, st) && su.cfg.budgets.maxEnergyUj.None?
    ensures NextRun(su, r, st).core.stopReason == r.core.stopReason
  {
    LegalCommit(su, r, st);
    RecordedOps(su, r, st);
    var sample := TakeSample(su.domains, su.staleUs, r.meter, st.inp).1.value;
    assert GuardOps(su, r.core.phase, TakeSample(su.domains, su.staleUs, r.meter, st.inp).0.energyUj) == [];
    assert [Record(sample)] + [] == [Record(sample)];
    ApplyOne(su.cfg, r.core, Record(sample));
    hide TakeSample, NextRun, Legal, ApplyAll, OpsOf, Recorded, Append, Ordered, AllEnabled, Latches, GuardOps;
  }

  /** A run stopped for energy has a cap, which its total reaches with the reserve, and alone if it was stopped for an
      overrun. */
  predicate StopJustified(su: Setup, r: Run) {
    var cap, total := su.cfg.budgets.maxEnergyUj, r.meter.energyUj;
    && (r.core.stopReason == Some(ENERGY_GUARD) ==> cap.Some? && total + su.Reserve() >= cap.value)
    && (r.core.stopReason == Some(MEASUREMENT_OVERRUN) ==> cap.Some? && total >= cap.value)
  }

  lemma JustifiedStep(su: Setup, r: Run, st: Move)
    requires RunInv(su, r) && Legal(su, r, st) && StopJustified(su, r)
    ensures StopJustified(su, NextRun(su, r, st))
  {
    var r' := NextRun(su, r, st);
    if r.core.stopReason.None? { Parts(su.cfg, r.core); }
    hide *;
    MeterOnlyGrows(su, r, st);
    StepUndoesNothing(su, r, st);
    if r.core.stopReason.None? && r'.core.stopReason in {Some(ENERGY_GUARD), Some(MEASUREMENT_OVERRUN)} {
      OverrunNeedsTotal(su, r, st);
      JustifiedNow(su, r');
    }
    StaysJustified(su, r, r');
  }

  lemma JustifiedNow(su: Setup, r: Run)
    requires r.core.stopReason.Some? && su.cfg.budgets.maxEnergyUj.Some?
    requires if r.core.stopReason == Some(MEASUREMENT_OVERRUN)
             then r.meter.energyUj >= su.cfg.budgets.maxEnergyUj.value
             else r.meter.energyUj + su.Reserve() >= su.cfg.budgets.maxEnergyUj.value
    ensures StopJustified(su, r)
  {
  }

  lemma MeterOnlyGrows(su: Setup, r: Run, st: Move)
    requires Legal(su, r, st)
    ensures r.meter.energyUj <= NextRun(su, r, st).meter.energyUj
  {
    MeterMoves(su, r, st);
    hide Legal, NextRun, Recorded, PassOf;
  }

  lemma StaysJustified(su: Setup, r: Run, r': Run)
    requires StopJustified(su, r) && Extends(r, r') && r.meter.energyUj <= r'.meter.energyUj
    requires r.core.stopReason.None? && r'.core.stopReason in {Some(ENERGY_GUARD), Some(MEASUREMENT_OVERRUN)} ==>
               StopJustified(su, r')
    ensures StopJustified(su, r')
  {
  }

  /** No run is ever stopped for its energy without need. */
  lemma {:induction false} EnergyStopJustified(su: Setup, steps: seq<Move>)
    requires History(su, steps)
    ensures StopJustified(su, Supervisor.After(su, steps))
  {
    if steps != [] {
      var init := steps[..|steps| - 1];
      EnergyStopJustified(su, init);
      Reachable(su, init);
      hide RunInv, Legal, NextRun, StopJustified;
      JustifiedStep(su, Supervisor.After(su, init), steps[|steps| - 1]);
    }
  }

  /** The guard lets a run go on only while the reserve still fits under the cap. */
  lemma GuardHolds(su: Setup, r: Run, st: Move, cap: nat)
    requires Legal(su, r, st) && Coherent(r.core) && su.cfg.budgets.maxEnergyUj == Some(cap)
    requires r.meter.energyUj + su.Reserve() < cap
    requires r.core.stopReason.None? && NextRun(su, r, st).core.stopReason.None?
    ensures NextRun(su, r, st).meter.energyUj + su.Reserve() < cap
  {
    MeterMoves(su, r, st);
    if Reads(st) {
      if !Recorded(su, r, st) {
        FaultLatches(su, r, st);
      } else {
        GuardedSample(su, r, st);
      }
    }
  }

  /** The energy account of the current window: what was metered before it, plus what was drawn in it. */
  ghost predicate Capped(su: Setup, w: World, r: Run, base: map<Id, int>, before: nat, cap: nat) {
    && InWindow(su, r, base)
    && Accounted(su, w, r, base, before, false)
    && before + su.Reserve() < cap
    && (r.core.stopReason.None? ==> before == r.meter.energyUj)
    && r.core.stopReason != Some(MEASUREMENT_OVERRUN)
  }

  lemma CappedBelow(su: Setup, w: World, r: Run, base: map<Id, int>, before: nat, cap: nat)
    requires RunInv(su, r) && Physical(su, w)
    requires InWindow(su, r, base) && Accounted(su, w, r, base, before, false) && before + su.Reserve() < cap
    ensures r.meter.energyUj < cap
  {
    assert Timed(r);
    hide RunInv, Rated;
    DrawnWithinReserve(w, su.domains, r.meter.prev, base, su.staleUs, su.killUs);
  }

  /** The step after which the run still goes on: its window starts afresh. */
  lemma CappedOn(su: Setup, w: World, r: Run, st: Move, cap: nat)
    requires RunInv(su, r) && Legal(su, r, st) && su.cfg.budgets.maxEnergyUj == Some(cap)
    requires r.meter.energyUj + su.Reserve() < cap && r.core.stopReason.None?
    requires NextRun(su, r, st).core.stopReason.None?
    requires InWindow(su, NextRun(su, r, st), LatestTimes(NextRun(su, r, st).meter.prev))
    ensures var r' := NextRun(su, r, st); Capped(su, w, r', LatestTimes(r'.meter.prev), r'.meter.energyUj, cap)
  {
    Parts(su.cfg, r.core);
    hide RunInv, Legal, NextRun, InWindow, Coherent;
    var r' := NextRun(su, r, st);
    GuardHolds(su, r, st, cap);
    DrawnNothing(w, su.domains, r'.meter.prev, LatestTimes(r'.meter.prev));
  }

  /** A step of a stopped run, or the one that stops it: the window goes on. */
  lemma CappedStopped(su: Setup, w: World, r: Run, st: Move, base: map<Id, int>, before: nat, cap: nat)
    requires RunInv(su, r) && Legal(su, r, st) && HostTrue(su, w, r, st) && Physical(su, w) && Genuine(su, w, r)
    requires Capped(su, w, r, base, before, cap) && su.cfg.budgets.maxEnergyUj == Some(cap)
    requires NextRun(su, r, st).core.stopReason.Some?
    requires InWindow(su, NextRun(su, r, st), Anchored(base, NextRun(su, r, st).meter.prev))
    ensures var r' := NextRun(su, r, st); Capped(su, w, r', Anchored(base, r'.meter.prev), before, cap)
  {
    Parts(su.cfg, r.core);
    hide RunInv, Legal, NextRun, HostTrue, Physical, Genuine, InWindow, Recorded, Coherent, Accounted, Anchored, Drawn;
    var r' := NextRun(su, r, st);
    LatchTime(su, r, st);
    StepAccounts(su, w, r, st, base, before, false);
    StepKeeps(su, r, st);
    CappedBelow(su, w, r', Anchored(base, r'.meter.prev), before, cap);
    if r.core.stopReason.None? && r'.core.stopReason == Some(MEASUREMENT_OVERRUN) {
      OverrunNeedsTotal(su, r, st);
    }
  }

  /** A step keeps the energy account of its window: while the run goes on the window starts afresh after the
      step, and from the stop on it is the one the stop left. */
  lemma StaysCapped(su: Setup, w: World, r: Run, st: Move, base: map<Id, int>, before: nat, cap: nat)
    returns (base': map<Id, int>, before': nat)
    requires RunInv(su, r) && Legal(su, r, st) && HostTrue(su, w, r, st) && Physical(su, w) && Genuine(su, w, r)
    requires Prompt(su, r, st) && Capped(su, w, r, base, before, cap) && su.cfg.budgets.maxEnergyUj == Some(cap)
    ensures Capped(su, w, NextRun(su, r, st), base', before', cap)
  {
    var r' := NextRun(su, r, st);
    hide RunInv, Legal, NextRun, HostTrue, Physical, Genuine, Prompt, InWindow, Accounted, Anchored, LatestTimes, Timed;
    base' := NextBase(base, r');
    StaysInWindow(su, w, r, st, base);
    if r'.core.stopReason.None? {
      before' := r'.meter.energyUj;
      LatchTime(su, r, st);
      CappedOn(su, w, r, st, cap);
    } else {
      before' := before;
      CappedStopped(su, w, r, st, base, before, cap);
    }
  }

  lemma {:induction false} Watch(su: Setup, w: World, steps: seq<Move>, cap: nat)
    returns (base: map<Id, int>, before: nat)
    requires History(su, steps) && Honest(su, w, steps) && Timely(su, steps) && Physical(su, w)
    requires su.cfg.budgets.maxEnergyUj == Some(cap) && su.Reserve() < cap
    ensures Capped(su, w, Supervisor.After(su, steps), base, before, cap)
  {
    if steps == [] {
      base, before := map[], 0;
      DrawnNothing(w, su.domains, map[], map[]);
    } else {
      var init, st := steps[..|steps| - 1], steps[|steps| - 1];
      base, before := Watch(su, w, init, cap);
      Reachable(su, init);
      MeterIsExact(su, w, init);
      hide Capped, Genuine, HostTrue, Physical, Prompt, RunInv, Legal, NextRun;
      base, before := StaysCapped(su, w, Supervisor.After(su, init), st, base, before, cap);
    }
  }

  /** The energy bound: a run that passed the start gate never meters as much energy as its cap, up to and
      including the final sample, and never stops for a measurement overrun. */
  lemma EnergyBelowCap(su: Setup, w: World, steps: seq<Move>, cap: nat)
    requires History(su, steps) && Honest(su, w, steps) && Timely(su, steps) && Physical(su, w)
    requires su.cfg.budgets.maxEnergyUj == Some(cap) && su.Reserve() < cap
    ensures Supervisor.After(su, steps).meter.energyUj < cap
    ensures Supervisor.After(su, steps).core.stopReason != Some(MEASUREMENT_OVERRUN)
  {
    var base, before := Watch(su, w, steps, cap);
    Reachable(su, steps);
    hide RunInv, InWindow, Accounted, Physical, History, Supervisor.After;
    CappedBelow(su, w, Supervisor.After(su, steps), base, before, cap);
  }

  /** While a run is running, the total it shows is exactly what its domains have drawn since their first
      reading, and the guard's reserve still fits under the cap. */
  lemma RunningTotalIsTrue(su: Setup, w: World, steps: seq<Move>, cap: nat)
    requires History(su, steps) && Honest(su, w, steps) && Timely(su, steps) && Physical(su, w)
    requires su.cfg.budgets.maxEnergyUj == Some(cap) && su.Reserve() < cap
    requires Supervisor.After(su, steps).core.stopReason.None?
    ensures var r := Supervisor.After(su, steps);
            && FirstReads(su, steps).Keys == r.meter.prev.Keys
            && r.meter.energyUj == Drawn(w, su.domains, r.meter.prev, FirstReads(su, steps))
            && r.meter.energyUj + su.Reserve() < cap
  {
    UnlatchedIsFaultless(su, steps);
    MeterIsExact(su, w, steps);
    var _, _ := Watch(su, w, steps, cap);
  }
}