/** What a rebuild recalls of the meter, the latch and the end of a run, against the live run. */
module Recalls {
  import opened Types
  import opened Ledger
  import opened Invariants
  import opened Simulation
  import opened Audit
  import opened Metering
  import opened Streams
  import opened Supervisor
  import opened Runs
  import opened Theorems
  import opened Receipts
  import opened Energy
  import opened Steps
  import Replay

  // ---- energy ----

  /** The total after a list of events: that of the last sample since the last start. */
  function TotalAfter(e0: nat, events: seq<Event>): nat {
    if events == [] then e0
    else
      match events[|events| - 1]
      case SampleRecorded(sample) => sample.total
      case RunStarted(_) => 0
      case _ => TotalAfter(e0, events[..|events| - 1])
  }

  lemma {:induction false} TotalRecalled(bodies: seq<Body>)
    ensures RecallAll(bodies).energyUj == TotalAfter(0, Replay.Events(bodies))
  {
    if bodies != [] {
      TotalRecalled(bodies[..|bodies| - 1]);
      assert Replay.Events(bodies)[..|bodies| - 1] == Replay.Events(bodies[..|bodies| - 1]);
    }
  }

  lemma {:induction false} TotalAppend(e0: nat, a: seq<Event>, b: seq<Event>)
    ensures TotalAfter(e0, a + b) == TotalAfter(TotalAfter(e0, a), b)
  {
    if b == [] {
      assert a + b == a;
    } else {
      TotalAppend(e0, a, b[..|b| - 1]);
      assert (a + b)[..|a + b| - 1] == a + b[..|b| - 1];
    }
  }

  predicate Quiet(e: Event) {
    !e.SampleRecorded? && !e.RunStarted?
  }

  ghost predicate AllQuiet(events: seq<Event>) {
    forall i :: 0 <= i < |events| ==> Quiet(events[i])
  }

  lemma {:induction false} TotalQuiet(e0: nat, events: seq<Event>)
    requires AllQuiet(events)
    ensures TotalAfter(e0, events) == e0
  {
    if events != [] {
      TotalQuiet(e0, events[..|events| - 1]);
      assert Quiet(events[|events| - 1]);
    }
  }

  /** Only starting and recording emit events that carry a total. */
  lemma OpQuiet(cfg: Config, c: Core, op: Op)
    requires !op.Record? && !op.Start?
    ensures AllQuiet(Apply(cfg, c, op).out.events)
  {
    hide PolicyAllows, ChargeOf, ObservedCharge, SweepEvents, AuditOf, FinishedRec, FinalPhase;
    if op.Expire? {
      SweepNeverLatches(c.tokens.order, c.tokens.at, op.now);
    }
  }

  lemma {:induction false} OpsQuiet(cfg: Config, c: Core, ops: seq<Op>)
    requires forall i :: 0 <= i < |ops| ==> !ops[i].Record? && !ops[i].Start?
    ensures AllQuiet(ApplyAll(cfg, c, ops).1)
  {
    hide Apply;
    if ops != [] {
      var n := |ops| - 1;
      OpsQuiet(cfg, c, ops[..n]);
      OpQuiet(cfg, ApplyAll(cfg, c, ops[..n]).0, ops[n]);
    }
  }

  predicate Records(su: Setup, r: Run, st: Move) {
    st.Sampling? && |st.inp.shown| == |su.domains| && Recorded(su, r, st)
  }

  predicate Starts(st: Move) {
    st.Exec? && st.op.Start?
  }

  /** Every other step emits nothing that carries a total. */
  lemma StepQuiet(su: Setup, r: Run, st: Move)
    requires Legal(su, r, st) && !Records(su, r, st) && !Starts(st)
    ensures AllQuiet(ApplyAll(su.cfg, r.core, OpsOf(su, r, st)).1)
  {
    QuietOps(su, r, st);
    OpsQuiet(su.cfg, r.core, OpsOf(su, r, st));
  }

  lemma QuietOps(su: Setup, r: Run, st: Move)
    requires Legal(su, r, st) && !Records(su, r, st) && !Starts(st)
    ensures var ops := OpsOf(su, r, st); forall i :: 0 <= i < |ops| ==> !ops[i].Record? && !ops[i].Start?
  {
    hide ApplyAll, AllEnabled, TakeSample, TakeFinal, Commits, TokenSigned, Ordered;
  }

  /** A recorded sample carries the meter's new total. */
  lemma SampleTotal(su: Setup, r: Run, st: Move, e0: nat)
    requires Legal(su, r, st) && Records(su, r, st)
    ensures TotalAfter(e0, ApplyAll(su.cfg, r.core, OpsOf(su, r, st)).1) == NextRun(su, r, st).meter.energyUj
  {
    hide TakeSample, NextRun, Legal, GuardOps, OpsOf, ApplyAll, Recorded, TotalAfter;
    RecordedOps(su, r, st);
    SampleCarries(su.domains, su.staleUs, r.meter, st.inp);
    var (m, sample) := TakeSample(su.domains, su.staleUs, r.meter, st.inp);
    GuardHalts(su, r.core.phase, m.energyUj);
    RecordedTotal(su.cfg, r.core, sample.value, GuardOps(su, r.core.phase, m.energyUj), e0);
  }

  lemma GuardHalts(su: Setup, phase: Phase, energy: nat)
    ensures var guard := GuardOps(su, phase, energy); forall i :: 0 <= i < |guard| ==> guard[i].Halt?
  {
  }

  lemma RecordedTotal(cfg: Config, c: Core, sample: Sample, halts: seq<Op>, e0: nat)
    requires forall i :: 0 <= i < |halts| ==> halts[i].Halt?
    ensures TotalAfter(e0, ApplyAll(cfg, c, [Record(sample)] + halts).1) == sample.total
  {
    RecordThenHalts(cfg, c, sample, halts);
    OpsQuiet(cfg, c, halts);
    var events := ApplyAll(cfg, c, halts).1;
    hide ApplyAll;
    TotalAppend(e0, [SampleRecorded(sample)], events);
    TotalQuiet(sample.total, events);
  }

  lemma SampleCarries(domains: seq<Domain>, stale: nat, m: Meter, inp: SampleInput)
    requires |inp.shown| == |domains| && TakeSample(domains, stale, m, inp).1.Some?
    ensures TakeSample(domains, stale, m, inp).1.value.total == TakeSample(domains, stale, m, inp).0.energyUj
  {
    hide ReadUpTo, Readings;
  }

  /** Recording changes nothing in the ledger, so what follows is what would have come alone. */
  lemma {:induction false} RecordThenHalts(cfg: Config, c: Core, sample: Sample, halts: seq<Op>)
    requires forall i :: 0 <= i < |halts| ==> halts[i].Halt?
    ensures ApplyAll(cfg, c, [Record(sample)] + halts).0 == ApplyAll(cfg, c, halts).0
    ensures ApplyAll(cfg, c, [Record(sample)] + halts).1 == [SampleRecorded(sample)] + ApplyAll(cfg, c, halts).1
  {
    hide *;
    if halts == [] {
      RecordAlone(cfg, c, sample);
      assert [Record(sample)] + halts == [Record(sample)];
    } else {
      var n, first := |halts| - 1, [Record(sample)];
      RecordThenHalts(cfg, c, sample, halts[..n]);
      assert halts[..n] + [halts[n]] == halts;
      assert (first + halts[..n]) + [halts[n]] == first + halts;
      ApplyMore(cfg, c, halts[..n], halts[n]);
      ApplyMore(cfg, c, first + halts[..n], halts[n]);
    }
  }

  lemma RecordAlone(cfg: Config, c: Core, sample: Sample)
    ensures ApplyAll(cfg, c, [Record(sample)]) == (c, [SampleRecorded(sample)] + ApplyAll(cfg, c, []).1)
    ensures ApplyAll(cfg, c, []).0 == c
  {
    ApplyOne(cfg, c, Record(sample));
    ApplyNone(cfg, c);
    assert [SampleRecorded(sample)] + ApplyAll(cfg, c, []).1 == [SampleRecorded(sample)];
    hide ApplyAll;
  }

  lemma ApplyMore(cfg: Config, c: Core, ops: seq<Op>, op: Op)
    ensures var (c', events) := ApplyAll(cfg, c, ops);
            var s := Apply(cfg, c', op);
            ApplyAll(cfg, c, ops + [op]) == (s.core, events + s.out.events)
  {
    hide Apply;
    assert (ops + [op])[..|ops|] == ops;
  }

  /** The energy a step counts: what its pass over the domains adds up, unless a check raises on the way. */
  function Counted(su: Setup, r: Run, st: Move): nat
    requires Reads(st) ==> |st.inp.shown| == |su.domains|
  {
    if !Reads(st) || !PassOf(su, r, st).ok || st.inp.cpuUs.None? then 0
    else if st.Sampling? && st.inp.cpuUs.value < r.meter.lastCpuUs then 0
    else PassOf(su, r, st).delta
  }

  /** It is what the total grows by. */
  lemma TotalGrows(su: Setup, r: Run, st: Move)
    requires Legal(su, r, st)
    ensures Reads(st) ==> |st.inp.shown| == |su.domains|
    ensures NextRun(su, r, st).meter.energyUj == r.meter.energyUj + Counted(su, r, st)
  {
    hide ApplyAll, Append, OpsOf, AllEnabled, Latches, Commits, Answer, Readings, ReadUpTo, Ordered;
    if Reads(st) {
      UnchangedCountsNothing(su.domains, su.staleUs, st.inp.shown, |su.domains|, r.meter.prev, st.Sampling?);
    }
  }

  lemma {:induction false} UnchangedCountsNothing(domains: seq<Domain>, stale: nat, shown: seq<Option<Reading>>,
          n: nat, prev: map<Id, Reading>, strict: bool)
    requires n <= |domains| == |shown|
    ensures var s := ReadUpTo(domains, stale, shown, n, prev, strict); !s.changed ==> s.delta == 0
  {
    hide RaplDelta;
    if n > 0 {
      UnchangedCountsNothing(domains, stale, shown, n - 1, prev, strict);
    }
  }

  /** The energy counted since the last recorded sample by readings that left no record: samples that were
      too large to write, and final readings. */
  ghost function Unrecorded(su: Setup, steps: seq<Move>): nat
    requires History(su, steps)
  {
    if steps == [] then 0
    else
      var init, st := steps[..|steps| - 1], steps[|steps| - 1];
      var r := Supervisor.After(su, init);
      if Records(su, r, st) then 0 else Unrecorded(su, init) + Counted(su, r, st)
  }

  /** Every reading that counted energy is, or comes before, a recorded sample. */
  ghost predicate AllRecorded(su: Setup, steps: seq<Move>)
    requires History(su, steps)
  {
    steps == []
    || (var init, st := steps[..|steps| - 1], steps[|steps| - 1];
        var r := Supervisor.After(su, init);
        Records(su, r, st) || (Counted(su, r, st) == 0 && AllRecorded(su, init)))
  }

  lemma {:induction false} NoneUnrecordedIff(su: Setup, steps: seq<Move>)
    requires History(su, steps)
    ensures Unrecorded(su, steps) == 0 <==> AllRecorded(su, steps)
  {
    hide Counted, Records, Legal, NextRun;
    if steps != [] {
      NoneUnrecordedIff(su, steps[..|steps| - 1]);
    }
  }

  ghost function RecalledTotal(r: Run): nat {
    TotalAfter(0, Replay.Events(Bodies(r.journal)))
  }

  /** One step's effect on the recalled total. */
  lemma TotalStep(su: Setup, r: Run, st: Move)
    requires RunInv(su, r) && Legal(su, r, st)
    ensures RecalledTotal(NextRun(su, r, st))
         == (if Records(su, r, st) then NextRun(su, r, st).meter.energyUj
             else if Starts(st) then 0 else RecalledTotal(r))
  {
    JournalGrows(su, r, st);
    var r' := NextRun(su, r, st);
    var events := ApplyAll(su.cfg, r.core, OpsOf(su, r, st)).1;
    hide Legal, NextRun, ApplyAll, OpsOf, RunInv, Records, AllQuiet, TotalAfter;
    TotalAppend(0, Replay.Events(Bodies(r.journal)), events);
    if Records(su, r, st) {
      SampleTotal(su, r, st, RecalledTotal(r));
    } else if Starts(st) {
      StartEvents(su, r, st);
      StartTotal(RecalledTotal(r), st.op.baseline);
    } else {
      StepQuiet(su, r, st);
      TotalQuiet(RecalledTotal(r), events);
    }
  }

  lemma StartTotal(e0: nat, baseline: Sample)
    ensures TotalAfter(e0, [RunStarted(baseline)]) == 0
  {
  }

  lemma StartEvents(su: Setup, r: Run, st: Move)
    requires Starts(st)
    ensures ApplyAll(su.cfg, r.core, OpsOf(su, r, st)).1 == [RunStarted(st.op.baseline)]
  {
    ApplyOne(su.cfg, r.core, st.op);
    hide ApplyAll;
  }

  lemma JournalGrows(su: Setup, r: Run, st: Move)
    requires RunInv(su, r) && Legal(su, r, st)
    ensures Replay.Events(Bodies(NextRun(su, r, st).journal))
         == Replay.Events(Bodies(r.journal)) + ApplyAll(su.cfg, r.core, OpsOf(su, r, st)).1
  {
    LegalCommit(su, r, st);
    ClockOrder(su, r, StampsOf(st));
    hide Legal, NextRun, ApplyAll, OpsOf, Inv, Timed, Released, Append, AllEnabled, Ordered, Chained;
    AppendChained(su.Signer(), r.journal, ApplyAll(su.cfg, r.core, OpsOf(su, r, st)).1, StampsOf(st));
  }

  lemma ClockOrder(su: Setup, r: Run, stamps: seq<Stamp>)
    requires RunInv(su, r) && Ordered(r.clock, stamps)
    ensures Chained(su.Signer(), r.journal) && Ordered(LastTime(r.journal), stamps)
  {
    hide Inv, Chained, Timed, Released, Accepted, RefoldAll, Restored;
  }

  /** Nothing is metered before the start. */
  lemma {:induction false} NothingBeforeStart(su: Setup, steps: seq<Move>)
    requires History(su, steps) && Supervisor.After(su, steps).core.phase in {CREATED, ARMING}
    ensures Supervisor.After(su, steps).meter.energyUj == 0
  {
    if steps != [] {
      var init, st := steps[..|steps| - 1], steps[|steps| - 1];
      var r := Supervisor.After(su, init);
      NothingUndone(su, steps, |steps| - 1);
      hide Legal, NextRun, Extends;
      EarlyStep(su, r, st, Supervisor.After(su, steps));
      NothingBeforeStart(su, init);
    }
  }

  lemma EarlyStep(su: Setup, r: Run, st: Move, r': Run)
    requires Legal(su, r, st) && r' == NextRun(su, r, st) && Extends(r, r') && r'.core.phase in {CREATED, ARMING}
    ensures r.core.phase in {CREATED, ARMING} && r'.meter == r.meter
  {
    assert Rank(r.core.phase) <= Rank(r'.core.phase);
    MeterMoves(su, r, st);
    hide NextRun, ApplyAll, OpsOf, AllEnabled;
  }

  /** The rebuilt energy, exactly: in every history, the recalled total and what was counted since the last
      recorded sample make up the live total. */
  lemma {:induction false} RecalledEnergy(su: Setup, steps: seq<Move>)
    requires History(su, steps)
    ensures RecallAll(Bodies(Supervisor.After(su, steps).journal)).energyUj + Unrecorded(su, steps)
         == Supervisor.After(su, steps).meter.energyUj
  {
    var r' := Supervisor.After(su, steps);
    TotalRecalled(Bodies(r'.journal));
    if steps == [] {
      assert Bodies([]) == [];
    } else {
      var init, st := steps[..|steps| - 1], steps[|steps| - 1];
      var r := Supervisor.After(su, init);
      RecalledEnergy(su, init);
      TotalRecalled(Bodies(r.journal));
      Reachable(su, init);
      assert Starts(st) ==> r.meter.energyUj == 0 by {
        if Starts(st) {
          StartsFromArming(su, r, st);
          NothingBeforeStart(su, init);
        }
      }
      hide Legal, NextRun, RunInv, Records, TotalAfter, RecallAll, Counted;
      TotalStep(su, r, st);
      TotalGrows(su, r, st);
      StartsCountsNothing(su, r, st);
    }
  }

  lemma StartsCountsNothing(su: Setup, r: Run, st: Move)
    requires Reads(st) ==> |st.inp.shown| == |su.domains|
    ensures Starts(st) ==> Counted(su, r, st) == 0
  {
  }

  /** A rebuild recalls the live total exactly when no energy was counted after the last recorded sample. */
  lemma RecalledIff(su: Setup, steps: seq<Move>)
    requires History(su, steps)
    ensures var r := Supervisor.After(su, steps);
            RecallAll(Bodies(r.journal)).energyUj == r.meter.energyUj <==> AllRecorded(su, steps)
  {
    hide History, Supervisor.After, Unrecorded, AllRecorded, RecallAll;
    RecalledEnergy(su, steps);
    NoneUnrecordedIff(su, steps);
  }

  /** A final reading that counts energy is lost: whatever came before it, the rebuilt total is below the live one
      by at least what it counted. */
  lemma FinalReadingIsLost(su: Setup, steps: seq<Move>, st: Move)
    requires History(su, steps) && st.FinalReading? && Legal(su, Supervisor.After(su, steps), st)
    requires Counted(su, Supervisor.After(su, steps), st) > 0
    ensures History(su, steps + [st])
    ensures var r, r' := Supervisor.After(su, steps), Supervisor.After(su, steps + [st]);
            RecallAll(Bodies(r'.journal)).energyUj + Counted(su, r, st) <= r'.meter.energyUj
  {
    Extend(su, steps, st);
    assert (steps + [st])[..|steps|] == steps;
    hide History, Supervisor.After, RecallAll, Legal, NextRun, Counted;
    RecalledEnergy(su, steps + [st]);
  }

  lemma StartsFromArming(su: Setup, r: Run, st: Move)
    requires Legal(su, r, st) && Starts(st)
    ensures r.core.phase == ARMING
  {
    ApplyOne(su.cfg, r.core, st.op);
    hide ApplyAll;
  }

  // ---- the latch ----

  function LatchIn(bodies: seq<Body>): Option<int> {
    if bodies == [] then None
    else if bodies[|bodies| - 1].event.StopLatched? then Some(bodies[|bodies| - 1].t)
    else LatchIn(bodies[..|bodies| - 1])
  }

  lemma {:induction false} LatchRecalled(bodies: seq<Body>)
    ensures RecallAll(bodies).latchedUs == LatchIn(bodies)
  {
    if bodies != [] {
      LatchRecalled(bodies[..|bodies| - 1]);
    }
  }

  /** What the added bodies tell of the latch. */
  lemma {:induction false} LatchAppend(a: seq<Body>, b: seq<Body>)
    ensures !Latches(Replay.Events(b)) ==> LatchIn(a + b) == LatchIn(a)
    ensures Latches(Replay.Events(b)) ==> exists i :: 0 <= i < |b| && LatchIn(a + b) == Some(b[i].t)
  {
    if b == [] {
      assert a + b == a;
    } else {
      var n := |b| - 1;
      LatchAppend(a, b[..n]);
      assert (a + b)[..|a| + n] == a + b[..n];
      LatchesLast(Replay.Events(b));
      assert Replay.Events(b)[..n] == Replay.Events(b[..n]);
      if b[n].event.StopLatched? {
        assert LatchIn(a + b) == Some(b[n].t);
      } else if Latches(Replay.Events(b)) {
        var i :| 0 <= i < n && LatchIn(a + b[..n]) == Some(b[..n][i].t);
        assert b[i] == b[..n][i];
      }
    }
  }

  /** The recalled latch time: there exactly when the live one is, and not later. */
  ghost predicate LatchAgrees(recalled: Option<int>, live: Option<int>) {
    (recalled.Some? <==> live.Some?) && (recalled.Some? ==> recalled.value <= live.value)
  }

  ghost predicate LatchTrue(r: Run) {
    LatchAgrees(LatchIn(Bodies(r.journal)), r.core.stopLatchedUs)
  }

  lemma LatchMoves(before: seq<Body>, added: seq<Body>, live: Option<int>, at: int)
    requires LatchAgrees(LatchIn(before), live) && forall i :: 0 <= i < |added| ==> added[i].t <= at
    ensures LatchAgrees(LatchIn(before + added), if Latches(Replay.Events(added)) then Some(at) else live)
  {
    LatchAppend(before, added);
    hide LatchIn, Latches;
  }

  lemma LatchStep(su: Setup, r: Run, st: Move)
    requires RunInv(su, r) && Legal(su, r, st) && LatchTrue(r)
    ensures LatchTrue(NextRun(su, r, st))
  {
    hide Legal, NextRun, ApplyAll, OpsOf, RunInv, Append, AllEnabled, LatchIn, Latches, Ordered, LatchAgrees;
    LegalCommit(su, r, st);
    JournalParts(su, r, st);
    LatchedAt(su, r, st);
    var r' := NextRun(su, r, st);
    LatchMoves(Bodies(r.journal), Bodies(r'.journal[|r.journal|..]), r.core.stopLatchedUs, st.at);
  }

  /** A step records its own end as the latch time exactly when it latches. */
  lemma LatchedAt(su: Setup, r: Run, st: Move)
    requires Legal(su, r, st)
    ensures NextRun(su, r, st).core.stopLatchedUs
         == (if Latches(ApplyAll(su.cfg, r.core, OpsOf(su, r, st)).1) then Some(st.at) else r.core.stopLatchedUs)
  {
    hide Legal, NextRun, ApplyAll, OpsOf, Append, AllEnabled, Latches, Ordered;
    LegalCommit(su, r, st);
    ApplyAllFrame(su.cfg, r.core, OpsOf(su, r, st));
  }

  /** What a step adds to the journal: its own events, none stamped later than its end. */
  lemma JournalParts(su: Setup, r: Run, st: Move)
    requires RunInv(su, r) && Legal(su, r, st)
    ensures var r' := NextRun(su, r, st);
            && r.journal <= r'.journal
            && var added := Bodies(r'.journal[|r.journal|..]);
            && Bodies(r'.journal) == Bodies(r.journal) + added
            && Replay.Events(added) == ApplyAll(su.cfg, r.core, OpsOf(su, r, st)).1
            && forall i :: 0 <= i < |added| ==> added[i].t <= st.at
  {
    hide Legal, NextRun, ApplyAll, OpsOf, RunInv, Append, AllEnabled, Chained, Ordered, LastTime, Latches;
    LegalCommit(su, r, st);
    ClockOrder(su, r, StampsOf(st));
    StampsEnd(r.clock, StampsOf(st), st.at);
    AppendedParts(su.Signer(), r.journal, ApplyAll(su.cfg, r.core, OpsOf(su, r, st)).1, StampsOf(st), st.at);
  }

  lemma StampsEnd(from: Time, stamps: seq<Stamp>, at: Time)
    requires Ordered(from, stamps) && (stamps != [] ==> stamps[|stamps| - 1].t <= at)
    ensures forall i :: 0 <= i < |stamps| ==> stamps[i].t <= at
  {
  }

  lemma AppendedParts(s: Signer, j: seq<Entry>, events: seq<Event>, stamps: seq<Stamp>, at: Time)
    requires Chained(s, j) && |stamps| == |events| && Ordered(LastTime(j), stamps)
    requires forall i :: 0 <= i < |stamps| ==> stamps[i].t <= at
    ensures var r := Append(s, j, events, stamps);
            && j <= r
            && var added := Bodies(r[|j|..]);
            && Bodies(r) == Bodies(j) + added && Replay.Events(added) == events
            && forall i :: 0 <= i < |added| ==> added[i].t <= at
  {
    hide Chained, Ordered, Append, LastTime, Consecutive;
    AppendedBodies(s, j, events, stamps);
    AppendedStamps(s, j, events, stamps);
    TailTimes(j, Append(s, j, events, stamps), stamps, at);
  }

  lemma TailTimes(j: seq<Entry>, r: seq<Entry>, stamps: seq<Stamp>, at: Time)
    requires j <= r && |r| == |j| + |stamps| && forall i :: 0 <= i < |stamps| ==> r[|j| + i].body.t == stamps[i].t
    requires forall i :: 0 <= i < |stamps| ==> stamps[i].t <= at
    ensures var added := Bodies(r[|j|..]); forall i :: 0 <= i < |added| ==> added[i].t <= at
  {
    var added := Bodies(r[|j|..]);
    forall i | 0 <= i < |added| ensures added[i].t <= at {
      assert added[i] == r[|j| + i].body && stamps[i].t <= at;
    }
  }

  lemma {:induction false} RecalledLatch(su: Setup, steps: seq<Move>)
    requires History(su, steps)
    ensures LatchTrue(Supervisor.After(su, steps))
  {
    if steps != [] {
      var init := steps[..|steps| - 1];
      RecalledLatch(su, init);
      Reachable(su, init);
      hide Legal, NextRun, RunInv, LatchTrue;
      LatchStep(su, Supervisor.After(su, init), steps[|steps| - 1]);
    }
  }

  // ---- the end ----

  predicate Emptied(p: Phase) {
    p in {FINALIZING, COMPLETED, KILLED, FAILED}
  }

  predicate Finalized(p: Phase) {
    p in {COMPLETED, KILLED, FAILED}
  }

  lemma EndStep(s: Replay.State, b: Body, t: Replay.State)
    requires Replay.Step(s, b) == Some(t) && WellTyped(b.event) && (b.seqNo == 1 ==> s == Replay.START)
    ensures Emptied(t.phase) <==> Emptied(s.phase) || b.event.ContainmentEmpty?
    ensures Finalized(t.phase) <==> Finalized(s.phase) || b.event.RunFinalized?
  {
  }

  lemma {:induction false} EndRecalled(bodies: seq<Body>, i: nat)
    requires Accepted(bodies) && i <= |bodies|
    ensures RecallAll(bodies[..i]).emptied <==> Emptied(Streams.After(bodies, i).phase)
    ensures RecallAll(bodies[..i]).finalized <==> Finalized(Streams.After(bodies, i).phase)
  {
    if i == 0 {
      assert bodies[..0] == [];
    } else {
      EndRecalled(bodies, i - 1);
      AfterStep(bodies, i - 1);
      assert i == 1 ==> bodies[..0] == [];
      assert i == 1 ==> Streams.After(bodies, 0) == Replay.START;
      assert bodies[..i][..i - 1] == bodies[..i - 1];
      hide Streams.After, Accepted, Replay.Step;
      EndStep(Streams.After(bodies, i - 1), bodies[i - 1], Streams.After(bodies, i));
    }
  }

  // ---- main result ----

  /** What is recalled of a run, given what was counted without a record. */
  ghost predicate RecallsTrue(r: Run, recalled: Recalled, unrecorded: int) {
    && recalled.energyUj == r.meter.energyUj - unrecorded <= r.meter.energyUj
    && LatchAgrees(recalled.latchedUs, r.core.stopLatchedUs)
    && (recalled.latchedUs.Some? <==> r.core.stopReason.Some?)
    && (recalled.emptied <==> Emptied(r.core.phase)) && (recalled.finalized <==> Finalized(r.core.phase))
  }

  /** The rest of a rebuilt run, in every history whose journal fits the export: the energy total is short of
      the live one by exactly what was counted without a record since the last recorded sample, so it is the live
      one exactly when every counting reading was followed by a recorded sample; the latch time
      is there exactly when the run was stopped, and not later than the live one; and the flags tell whether
      containment was found empty and the run finalised. */
  lemma RebuildRecalls(su: Setup, steps: seq<Move>)
    requires History(su, steps) && |Supervisor.After(su, steps).journal| <= MAX_ENTRIES
    ensures var r := Supervisor.After(su, steps);
            Rebuilding(r.journal, Some(r.core.phase)).Ok?
            && var recalled := Rebuilding(r.journal, Some(r.core.phase)).value.2;
            && RecallsTrue(r, recalled, Unrecorded(su, steps))
            && (recalled.energyUj == r.meter.energyUj <==> AllRecorded(su, steps))
  {
    hide *;
    hide RecallsTrue, Unrecorded, AllRecorded, History, Supervisor.After, Rebuilding;
    RecalledIff(su, steps);
    JournalRecalls(su, steps);
    ReplayFollowsRun(su, steps);
    WholeExport(Supervisor.After(su, steps));
  }

  /** The same of the whole journal, whatever its length. */
  lemma JournalRecalls(su: Setup, steps: seq<Move>)
    requires History(su, steps)
    ensures var r := Supervisor.After(su, steps);
            RecallsTrue(r, RecallAll(Bodies(r.journal)), Unrecorded(su, steps))
  {
    hide History, Supervisor.After, RunInv, RecallAll, LatchIn, Accepted, Replay.Run, Mirrored, Unrecorded;
    var r := Supervisor.After(su, steps);
    RecalledEnergy(su, steps);
    RecalledLatch(su, steps);
    LatchRecalled(Bodies(r.journal));
    UnstoppedIffLive(su, steps);
    ReplayFollowsRun(su, steps);
    MirroredEnds(r);
  }

  lemma WholeExport(r: Run)
    requires Mirrored(r) && |r.journal| <= MAX_ENTRIES
    ensures Rebuilding(r.journal, Some(r.core.phase)).Ok?
    ensures Rebuilding(r.journal, Some(r.core.phase)).value.2 == RecallAll(Bodies(r.journal))
  {
    assert Exported(r.journal) == r.journal;
    hide RecallAll, Replay.Run;
  }

  lemma MirroredEnds(r: Run)
    requires Mirrored(r)
    ensures Replay.Run(Replay.START, Bodies(r.journal)).Some?
    ensures Replay.Run(Replay.START, Bodies(r.journal)).value.phase == r.core.phase
    ensures RecallAll(Bodies(r.journal)).emptied <==> Emptied(r.core.phase)
    ensures RecallAll(Bodies(r.journal)).finalized <==> Finalized(r.core.phase)
  {
    var bodies := Bodies(r.journal);
    EndRecalled(bodies, |bodies|);
    assert bodies[..|bodies|] == bodies;
    hide RecallAll;
  }
}
