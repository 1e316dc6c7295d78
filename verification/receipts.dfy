/** What is read back from a run's journal: the exported bundle passes the verifier, the rebuilt
    projection equals the live ledger, and exactly how far the export limit lets both be true. */
module Receipts {
  import opened Types
  import opened Ledger
  import opened Invariants
  import opened Simulation
  import opened Audit
  import opened Streams
  import opened Supervisor
  import opened Runs
  import opened Theorems
  import Replay

  // ---- receipts ----

  function Least(a: nat, b: nat): nat { if a < b then a else b }

  /** `events_after(0, 1000000)`: at most the first million events are ever exported or refolded. */
  function Exported(j: seq<Entry>): seq<Entry> { j[..Least(|j|, MAX_ENTRIES)] }

  lemma ExportChained(s: Signer, j: seq<Entry>)
    requires Chained(s, j) && Accepted(Bodies(j))
    ensures Chained(s, Exported(j)) && Accepted(Bodies(Exported(j)))
    ensures Bodies(Exported(j)) == Bodies(j)[..|Exported(j)|]
  {
    var e := Exported(j);
    forall i | 0 <= i < |e| ensures Sealed(s, e, i) {
      assert Sealed(s, j, i);
    }
    assert Bodies(e) == Bodies(j)[..|e|];
    Replay.RejectedPrefix(Replay.START, Bodies(j), |e|);
  }

  lemma PhaseStep(s: Replay.State, b: Body, t: Replay.State)
    requires Replay.Step(s, b) == Some(t) && WellTyped(b.event) && b.seqNo != 1
    ensures if Replay.NamesPhase(b.event) then Rank(s.phase) < Rank(t.phase) else t.phase == s.phase
  {
  }

  /** The phase stays the same exactly while no event names one. */
  lemma {:induction false} PhaseFrom(bodies: seq<Body>, n: nat, m: nat)
    requires Accepted(bodies) && 0 < n <= m <= |bodies|
    ensures Rank(Streams.After(bodies, n).phase) <= Rank(Streams.After(bodies, m).phase)
    ensures if forall i :: n <= i < m ==> !Replay.NamesPhase(bodies[i].event)
            then Streams.After(bodies, n).phase == Streams.After(bodies, m).phase
            else Rank(Streams.After(bodies, n).phase) < Rank(Streams.After(bodies, m).phase)
  {
    hide Accepted, Streams.After, Rank, Replay.NamesPhase, Replay.Step;
    if n < m {
      PhaseFrom(bodies, n, m - 1);
      AfterStep(bodies, m - 1);
      PhaseStep(Streams.After(bodies, m - 1), bodies[m - 1], Streams.After(bodies, m));
    }
  }

  /** Verifier completeness: at any point of any run, the exported bundle passes the whole verifier once
      the run's key is pinned, and is complete exactly when its events reach a terminal phase. That phase
      is the live one exactly when no event beyond the export limit names a phase. */
  lemma ExportVerifies(su: Setup, steps: seq<Move>, pins: seq<Pin>, pinHead: bool, requireComplete: bool)
    requires History(su, steps) && su.cfg.crypto.Sound() && |pins| <= MAX_PINS
    requires su.cfg.keyId in KeyMap(pins) && KeyMap(pins)[su.cfg.keyId] == su.cfg.crypto.publicKey(su.seed)
    ensures Accepted(Bodies(Exported(Supervisor.After(su, steps).journal)))
    ensures var r := Supervisor.After(su, steps);
            var e := Exported(r.journal);
            var phase := Replay.Run(Replay.START, Bodies(e)).value.phase;
            && Verdict(su.cfg.crypto, Bundle(e, if pinHead then Some(BundleHead(e)) else None), pins, requireComplete)
               == (if requireComplete && !Terminal(phase) then Err(INCOMPLETE)
                   else Ok(Report(Terminal(phase), BundleHead(e), phase)))
            && (phase == r.core.phase
                <==> forall i :: MAX_ENTRIES <= i < |r.journal| ==> !Replay.NamesPhase(r.journal[i].body.event))
  {
    hide Inv, Timed, Released, History, Supervisor.After, Faithful, Chained, Accepted, Verdict, KeyMap, Exported,
         Replay.Run;
    Reachable(su, steps);
    FaithfulExports(su, Supervisor.After(su, steps), pins, pinHead, requireComplete);
    FaithfulPhase(su, Supervisor.After(su, steps));
  }

  lemma FaithfulExports(su: Setup, r: Run, pins: seq<Pin>, pinHead: bool, requireComplete: bool)
    requires Faithful(su, r) && su.cfg.crypto.Sound() && |pins| <= MAX_PINS
    requires su.cfg.keyId in KeyMap(pins) && KeyMap(pins)[su.cfg.keyId] == su.cfg.crypto.publicKey(su.seed)
    ensures var e := Exported(r.journal);
            && Accepted(Bodies(e)) && Replay.Run(Replay.START, Bodies(e)).Some?
            && var phase := Replay.Run(Replay.START, Bodies(e)).value.phase;
            && Verdict(su.cfg.crypto, Bundle(e, if pinHead then Some(BundleHead(e)) else None), pins, requireComplete)
               == (if requireComplete && !Terminal(phase) then Err(INCOMPLETE)
                   else Ok(Report(Terminal(phase), BundleHead(e), phase)))
  {
    hide Chained, Verdict, TokenStates, ActionStates, ComputeStates, RefoldAll, Restored;
    ExportChained(su.Signer(), r.journal);
    var e := Exported(r.journal);
    assert Replay.Run(Replay.START, Bodies(e)).Some?;
    hide Accepted;
    ChainedVerifies(su.Signer(), e, if pinHead then Some(BundleHead(e)) else None, pins, requireComplete);
  }

  lemma FaithfulPhase(su: Setup, r: Run)
    requires Faithful(su, r) && Replay.Run(Replay.START, Bodies(Exported(r.journal))).Some?
    ensures Replay.Run(Replay.START, Bodies(Exported(r.journal))).value.phase == r.core.phase
            <==> forall i :: MAX_ENTRIES <= i < |r.journal| ==> !Replay.NamesPhase(r.journal[i].body.event)
  {
    hide Chained, RefoldAll, Restored, TokenStates, ActionStates, ComputeStates, Replay.NamesPhase, Rank,
         Replay.Run, Accepted;
    var j := r.journal;
    if |j| <= MAX_ENTRIES {
      assert Exported(j) == j;
    } else {
      var bodies := Bodies(j);
      PhaseFrom(bodies, MAX_ENTRIES, |j|);
      assert bodies[..|bodies|] == bodies && Bodies(Exported(j)) == bodies[..MAX_ENTRIES];
    }
  }

  // ---- rebuilding ----

  /** What `_rebuild` restores beside the ledger: the energy total, the time of the latch, and whether
      containment was empty and the run finalised. */
  datatype Recalled = Recalled(energyUj: nat, latchedUs: Option<int>, emptied: bool, finalized: bool)

  const NOTHING := Recalled(0, None, false, false)

  function Recall(r: Recalled, b: Body): Recalled {
    match b.event
    case RunStarted(_) => r.(energyUj := 0)
    case SampleRecorded(sample) => r.(energyUj := sample.total)
    case StopLatched(_) => r.(latchedUs := Some(b.t))
    case ContainmentEmpty(_, _) => r.(emptied := true)
    case RunFinalized(_, _, _, _, _, _) => r.(finalized := true)
    case _ => r
  }

  function RecallAll(bodies: seq<Body>): Recalled {
    if bodies == [] then NOTHING
    else Recall(RecallAll(bodies[..|bodies| - 1]), bodies[|bodies| - 1])
  }

  /** `_rebuild`: replay the exported bodies for the phase and fold them for the rest; a phase that is
      neither the stored projection's nor terminal is an integrity fault. */
  function Rebuilding(j: seq<Entry>, stored: Option<Phase>): Result<(Phase, Rebuilt, Recalled), Code> {
    var bodies := Bodies(Exported(j));
    match Replay.Run(Replay.START, bodies)
    case None => Err(TRANSITION_INVALID)
    case Some(s) =>
      if stored.Some? && stored.value != s.phase && !Terminal(s.phase) then Err(CONTAINMENT_FAULTED)
      else Ok((s.phase, RefoldAll(BLANK, Replay.Events(bodies)), RecallAll(bodies)))
  }

  method Rebuild(j: seq<Entry>, stored: Option<Phase>) returns (r: Result<(Phase, Rebuilt, Recalled), Code>)
    ensures r == Rebuilding(j, stored)
  {
    var bodies := Bodies(Exported(j));
    var phase := Replay.ReplayEvents(bodies);
    if phase.Err? {
      return Err(phase.error);
    }
    hide Replay.Run;
    if stored.Some? && stored.value != phase.value && phase.value !in {REJECTED, COMPLETED, KILLED, FAILED} {
      return Err(CONTAINMENT_FAULTED);
    }
    var ledger, rest := FoldBodies(bodies);
    return Ok((phase.value, ledger, rest));
  }

  /** The loop of `_rebuild`. */
  method FoldBodies(bodies: seq<Body>) returns (ledger: Rebuilt, rest: Recalled)
    ensures ledger == RefoldAll(BLANK, Replay.Events(bodies)) && rest == RecallAll(bodies)
  {
    var stopReason: Option<Reason>, charged: nat, spawnIssued: nat, issueSeq: nat := None, 0, 0, 0;
    var energyUj: nat, latchedUs: Option<int>, emptied, finalized := 0, None, false, false;
    ghost var events := Replay.Events(bodies);
    for i := 0 to |bodies|
      invariant Rebuilt(stopReason, charged, spawnIssued, issueSeq) == RefoldAll(BLANK, events[..i])
      invariant Recalled(energyUj, latchedUs, emptied, finalized) == RecallAll(bodies[..i])
    {
      RefoldNext(BLANK, events, i);
      assert bodies[..i + 1][..i] == bodies[..i];
      hide RefoldAll;
      var e := bodies[i].event;
      if e.RunStarted? {
        energyUj := 0;
      } else if e.SampleRecorded? {
        energyUj := e.sample.total;
      } else if e.StopLatched? {
        stopReason := Some(e.reason);
        latchedUs := Some(bodies[i].t);
      } else if e.TokenIssued? {
        spawnIssued := spawnIssued + 1;
        issueSeq := e.body.issueSeq;
      } else if e.ComputeReserved? {
        charged := charged + e.reservation.charged;
      } else if e.ContainmentEmpty? {
        emptied := true;
      } else if e.RunFinalized? {
        finalized := true;
      }
    }
    assert events[..|events|] == events && bodies[..|bodies|] == bodies;
    ledger := Rebuilt(stopReason, charged, spawnIssued, issueSeq);
    rest := Recalled(energyUj, latchedUs, emptied, finalized);
  }

  lemma RefoldNext(f: Rebuilt, events: seq<Event>, i: nat)
    requires i < |events|
    ensures RefoldAll(f, events[..i + 1]) == Refold(RefoldAll(f, events[..i]), events[i])
  {
    assert events[..i + 1][..i] == events[..i];
  }

  /** The events that change the phase or a rebuilt counter. */
  predicate Moves(e: Event) {
    Replay.NamesPhase(e) || e.TokenIssued? || (e.ComputeReserved? && e.reservation.charged > 0)
  }

  /** The fold of the first `i` events of a stream. */
  ghost function FoldedTo(bodies: seq<Body>, i: nat): Rebuilt
    requires i <= |bodies|
  {
    RefoldAll(BLANK, Replay.Events(bodies)[..i])
  }

  /** A number that grows with every event that moves, and with no other. */
  ghost function Progress(bodies: seq<Body>, i: nat): nat
    requires Accepted(bodies) && i <= |bodies|
  {
    Rank(Streams.After(bodies, i).phase) + FoldedTo(bodies, i).spawnIssued + FoldedTo(bodies, i).charged
  }

  lemma ProgressStep(bodies: seq<Body>, i: nat)
    requires Accepted(bodies) && 0 < i < |bodies|
    ensures if Moves(bodies[i].event) then Progress(bodies, i) < Progress(bodies, i + 1)
            else Progress(bodies, i) == Progress(bodies, i + 1)
                 && Streams.After(bodies, i).phase == Streams.After(bodies, i + 1).phase
                 && FoldedTo(bodies, i) == FoldedTo(bodies, i + 1)
  {
    hide Accepted, Streams.After, Replay.Step, RefoldAll, Rank, WellTyped;
    AfterStep(bodies, i);
    PhaseStep(Streams.After(bodies, i), bodies[i], Streams.After(bodies, i + 1));
    RefoldNext(BLANK, Replay.Events(bodies), i);
  }

  lemma {:induction false} ProgressFrom(bodies: seq<Body>, n: nat, m: nat)
    requires Accepted(bodies) && 0 < n <= m <= |bodies|
    ensures Progress(bodies, n) <= Progress(bodies, m)
    ensures if forall i :: n <= i < m ==> !Moves(bodies[i].event)
            then Streams.After(bodies, n).phase == Streams.After(bodies, m).phase
                 && FoldedTo(bodies, n) == FoldedTo(bodies, m)
            else Progress(bodies, n) < Progress(bodies, m)
  {
    hide Accepted, Streams.After, FoldedTo, Progress, Moves;
    if n < m {
      ProgressFrom(bodies, n, m - 1);
      ProgressStep(bodies, m - 1);
    }
  }

  /** The exported part of a stream folds to the same phase and counters as all of it exactly when no
      event beyond the export limit moves. */
  lemma {:induction false} FoldIff(bodies: seq<Body>, n: nat)
    requires Accepted(bodies) && 0 < n <= |bodies|
    ensures Accepted(bodies[..n]) && Replay.Run(Replay.START, bodies[..n]).Some?
    ensures var before, all := Replay.Run(Replay.START, bodies[..n]).value, Replay.Run(Replay.START, bodies).value;
            before.phase == all.phase
              && RefoldAll(BLANK, Replay.Events(bodies[..n])) == RefoldAll(BLANK, Replay.Events(bodies))
            <==> forall i :: n <= i < |bodies| ==> !Moves(bodies[i].event)
  {
    Replay.RejectedPrefix(Replay.START, bodies, n);
    var events := Replay.Events(bodies);
    assert events[..|events|] == events && events[..n] == Replay.Events(bodies[..n]);
    assert bodies[..|bodies|] == bodies;
    hide Moves, Rank, Replay.Run, RefoldAll, Replay.Events;
    ProgressFrom(bodies, n, |bodies|);
  }

  /** The rebuild succeeds with this phase and these counters. */
  predicate RebuildsTo(j: seq<Entry>, phase: Phase, ledger: Rebuilt) {
    Rebuilding(j, Some(phase)).Ok?
    && Rebuilding(j, Some(phase)).value.0 == phase && Rebuilding(j, Some(phase)).value.1 == ledger
  }

  /** Rebuilding a run from its own journal gives the live ledger's phase, stop reason and counters,
      exactly when none of the events beyond the millionth moves; in particular for every journal of at
      most a million events. */
  lemma RebuildAgreesIff(su: Setup, steps: seq<Move>)
    requires History(su, steps)
    ensures var r := Supervisor.After(su, steps);
            RebuildsTo(r.journal, r.core.phase, Restored(r.core))
            <==> forall i :: MAX_ENTRIES <= i < |r.journal| ==> !Moves(r.journal[i].body.event)
  {
    hide Inv, Timed, Released, History, Supervisor.After, Faithful, RebuildsTo, Restored, Moves;
    Reachable(su, steps);
    FaithfulRebuilds(su, Supervisor.After(su, steps));
  }

  lemma FaithfulRebuilds(su: Setup, r: Run)
    requires Faithful(su, r)
    ensures RebuildsTo(r.journal, r.core.phase, Restored(r.core))
            <==> forall i :: MAX_ENTRIES <= i < |r.journal| ==> !Moves(r.journal[i].body.event)
  {
    hide Chained, Restored, TokenStates, ActionStates, ComputeStates, Moves, Accepted, Replay.Run, RefoldAll, RecallAll;
    var j := r.journal;
    if |j| <= MAX_ENTRIES {
      assert Exported(j) == j;
    } else {
      FoldIff(Bodies(j), MAX_ENTRIES);
      assert Bodies(Exported(j)) == Bodies(j)[..MAX_ENTRIES];
    }
  }

  /** The rebuild of a run's own journal ends in the containment fault exactly when some event beyond the
      millionth names a phase, and succeeds otherwise: an export that ends in a terminal phase is the whole
      journal. */
  lemma RebuildFaultsIff(su: Setup, steps: seq<Move>)
    requires History(su, steps)
    ensures var r := Supervisor.After(su, steps);
            var rebuilt := Rebuilding(r.journal, Some(r.core.phase));
            && (rebuilt == Err(CONTAINMENT_FAULTED) <==>
                  exists i :: MAX_ENTRIES <= i < |r.journal| && Replay.NamesPhase(r.journal[i].body.event))
            && (rebuilt.Ok? <==> rebuilt != Err(CONTAINMENT_FAULTED))
  {
    hide Inv, Timed, Released, History, Supervisor.After, Faithful, Rebuilding, Exported, Replay.Run, Replay.NamesPhase;
    Reachable(su, steps);
    var r := Supervisor.After(su, steps);
    ExportReplays(su, r);
    FaithfulPhase(su, r);
    EarlyExportGoesOn(su, r);
    FaultsOn(r.journal, r.core.phase);
  }

  lemma ExportReplays(su: Setup, r: Run)
    requires Faithful(su, r)
    ensures Replay.Run(Replay.START, Bodies(Exported(r.journal))).Some?
  {
    hide Chained, Replay.Run, RefoldAll, Restored, Simulation.View;
    ExportChained(su.Signer(), r.journal);
  }

  lemma FaultsOn(j: seq<Entry>, live: Phase)
    requires Replay.Run(Replay.START, Bodies(Exported(j))).Some?
    ensures var p := Replay.Run(Replay.START, Bodies(Exported(j))).value.phase;
            && (Rebuilding(j, Some(live)) == Err(CONTAINMENT_FAULTED) <==> p != live && !Terminal(p))
            && (Rebuilding(j, Some(live)).Ok? <==> p == live || Terminal(p))
  {
    hide Replay.Run, RefoldAll, RecallAll, Exported;
  }

  /** The part of a journal that is exported has a terminal phase only if that is the live one. */
  lemma EarlyExportGoesOn(su: Setup, r: Run)
    requires Faithful(su, r) && Replay.Run(Replay.START, Bodies(Exported(r.journal))).Some?
    ensures var p := Replay.Run(Replay.START, Bodies(Exported(r.journal))).value.phase;
            Terminal(p) ==> p == r.core.phase
  {
    hide Chained, RefoldAll, Restored, TokenStates, ActionStates, ComputeStates, Replay.Run, Accepted, Chained;
    var j := r.journal;
    ExportChained(su.Signer(), j);
    if |j| <= MAX_ENTRIES {
      assert Exported(j) == j;
    } else {
      var bodies := Bodies(j);
      CompleteIffTerminal(bodies[..MAX_ENTRIES]);
      if EndsRun(bodies[MAX_ENTRIES - 1].event) {
        NothingFollowsTheEnd(bodies, MAX_ENTRIES - 1);
      }
    }
  }
}
