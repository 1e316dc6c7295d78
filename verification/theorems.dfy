/** The main results about whole runs: for every setup and every legal history of steps. */
module Theorems {
  import opened Types
  import opened Dicts
  import opened Ledger
  import opened Invariants
  import opened Simulation
  import opened Audit
  import opened Streams
  import opened Supervisor
  import opened Runs
  import Replay

  lemma {:induction false} Reachable(su: Setup, steps: seq<Move>)
    requires History(su, steps)
    ensures RunInv(su, Supervisor.After(su, steps))
    ensures steps != [] ==> Supervisor.After(su, steps).journal != []
  {
    if steps == [] {
      InitiallyInv(su.cfg);
      FreshFaithful(su);
    } else {
      var init := steps[..|steps| - 1];
      Reachable(su, init);
      hide RunInv, Legal, NextRun;
      StepKeeps(su, Supervisor.After(su, init), steps[|steps| - 1]);
    }
  }

  lemma FreshFaithful(su: Setup)
    ensures Faithful(su, FRESH) && Timed(FRESH) && Released(FRESH)
  {
    assert Bodies([]) == [];
    assert Replay.Events([]) == [];
    assert Simulation.View(INITIAL) == Replay.START;
  }

  // ---- simulation ----

  /** The checker accepts the journal and ends in exactly the ledger's phase, with exactly the states of
      the ledger's token, action and compute records. */
  ghost predicate Mirrored(r: Run) {
    && Accepted(Bodies(r.journal))
    && var s := Replay.Run(Replay.START, Bodies(r.journal)).value;
    && s.phase == r.core.phase
    && s.tokens.Keys == r.core.tokens.at.Keys && s.actions.Keys == r.core.actions.at.Keys
    && s.computes.Keys == r.core.computes.at.Keys
    && (forall k :: k in s.tokens ==> s.tokens[k] == r.core.tokens.at[k].state)
    && (forall k :: k in s.actions ==> s.actions[k] == r.core.actions.at[k].state)
    && (forall k :: k in s.computes ==> s.computes[k] == r.core.computes.at[k].reservation.state)
  }

  lemma FaithfulMirrored(su: Setup, r: Run)
    requires Faithful(su, r)
    ensures Mirrored(r)
  {
    hide Chained, Accepted, LastTime, Replay.Events, RefoldAll, Restored;
  }

  /** Simulation: whatever a run does, the replay checker follows it. */
  lemma ReplayFollowsRun(su: Setup, steps: seq<Move>)
    requires History(su, steps)
    ensures Mirrored(Supervisor.After(su, steps))
  {
    hide Inv, Timed, Released, History, Supervisor.After, Faithful, Mirrored;
    Reachable(su, steps);
    FaithfulMirrored(su, Supervisor.After(su, steps));
  }

  // ---- event ids ----

  /** No two events of a run's journal have the same id. */
  lemma {:induction false} EventIdsDistinct(su: Setup, steps: seq<Move>)
    requires History(su, steps)
    ensures DistinctEvents(Supervisor.After(su, steps).journal)
  {
    if steps != [] {
      var init, st := steps[..|steps| - 1], steps[|steps| - 1];
      EventIdsDistinct(su, init);
      hide NextRun, Append, DistinctEvents, FreshStamps, Ordered, AllEnabled;
      var r := Supervisor.After(su, init);
      LegalCommit(su, r, st);
      hide Legal, ApplyAll, OpsOf;
      AppendDistinct(su.Signer(), r.journal, ApplyAll(su.cfg, r.core, OpsOf(su, r, st)).1, StampsOf(st));
    }
  }

  // ---- conservation ----

  /** Conservation in every reachable state: what was charged, issued and dispatched is what the records
      say, and stays within the budgets; the estimator never charges less than a finished work observed. */
  lemma Conservation(su: Setup, steps: seq<Move>)
    requires History(su, steps)
    ensures var c := Supervisor.After(su, steps).core;
            && c.tokens.Valid() && c.actions.Valid() && c.computes.Valid()
            && c.charged == Sum(c.computes, ChargeIn)
            && (su.cfg.budgets.maxFlops.Some? ==> c.charged <= su.cfg.budgets.maxFlops.value)
            && |c.tokens.order| == c.spawnIssued == c.issueSeq <= su.cfg.budgets.spawns
            && c.inflight == Sum(c.actions, OneIfDispatched) && 0 <= c.inflight <= MAX_INFLIGHT_ACTIONS
            && Sum(c.tokens, OneIfSpent) == |c.actions.order| <= su.cfg.budgets.spawns
            && Matched(c.tokens.at, c.actions.at)
            && (forall k :: k in c.computes.at && c.computes.at[k].reservation.state == FINISHED ==>
                  c.computes.at[k].reservation.observedFlops.Some?
                  && c.computes.at[k].reservation.observedFlops.value <= c.computes.at[k].reservation.charged)
  {
    Reachable(su, steps);
    ActionsWithinBudget(su.cfg, Supervisor.After(su, steps).core);
    hide Faithful, Timed, Released, History, Supervisor.After, Coherent, ChargeOf, ObservedCharge;
  }

  // ---- stop safety ----

  /** The later state changes neither stop reason nor latch time, lowers no rank, forgets no reply and rewrites no
      entry. */
  ghost predicate Extends(r: Run, r': Run) {
    && Rank(r.core.phase) <= Rank(r'.core.phase)
    && (r.core.stopReason.Some? ==>
          r'.core.stopReason == r.core.stopReason && r'.core.stopLatchedUs == r.core.stopLatchedUs)
    && (forall k :: k in r.requests ==> k in r'.requests && r'.requests[k] == r.requests[k])
    && r.journal <= r'.journal
  }

  lemma ExtendsTransitive(a: Run, b: Run, c: Run)
    requires Extends(a, b) && Extends(b, c)
    ensures Extends(a, c)
  {
  }

  /** Later steps never undo anything. */
  lemma {:induction false} NothingUndone(su: Setup, steps: seq<Move>, n: nat)
    requires History(su, steps) && n <= |steps|
    ensures History(su, steps[..n])
    ensures Extends(Supervisor.After(su, steps[..n]), Supervisor.After(su, steps))
  {
    hide RunInv, Legal, NextRun, Extends;
    if n == |steps| {
      assert steps[..n] == steps;
      ExtendsSelf(Supervisor.After(su, steps));
    } else {
      var init, st := steps[..|steps| - 1], steps[|steps| - 1];
      NothingUndone(su, init, n);
      assert init[..n] == steps[..n];
      Reachable(su, init);
      StepUndoesNothing(su, Supervisor.After(su, init), st);
      ExtendsTransitive(Supervisor.After(su, steps[..n]), Supervisor.After(su, init), Supervisor.After(su, steps));
    }
  }

  lemma ExtendsSelf(r: Run)
    ensures Extends(r, r)
  {
  }

  lemma RequestsGrow(su: Setup, r: Run, st: Move)
    requires Legal(su, r, st)
    ensures forall k :: k in r.requests ==>
              k in NextRun(su, r, st).requests && NextRun(su, r, st).requests[k] == r.requests[k]
  {
    hide Apply, ApplyAll, OpsOf, Append, AllEnabled, Latches, Ordered, Answer, ReplyTo;
  }

  lemma StepUndoesNothing(su: Setup, r: Run, st: Move)
    requires RunInv(su, r) && Legal(su, r, st)
    ensures Extends(r, NextRun(su, r, st))
  {
    hide Legal, Inv, Apply, ApplyAll, OpsOf, AllEnabled, Ordered, Timed, Released, NextRun, Append, Latches;
    RequestsGrow(su, r, st);
    LegalCommit(su, r, st);
    StepKeeps(su, r, st);
    ApplyAllFrame(su.cfg, r.core, OpsOf(su, r, st));
    var r' := NextRun(su, r, st);
    PhasesAdvance(su, r, r');
  }

  /** A longer accepted journal has a phase of at least the same rank. */
  lemma PhasesAdvance(su: Setup, r: Run, r': Run)
    requires Faithful(su, r) && Faithful(su, r') && r.journal <= r'.journal
    ensures Rank(r.core.phase) <= Rank(r'.core.phase)
  {
    var bodies, n := Bodies(r'.journal), |r.journal|;
    assert bodies[..n] == Bodies(r.journal);
    assert bodies[..|bodies|] == bodies;
    AfterAdvances(bodies, n, |bodies|);
  }

  /** How a run ends that was stopped for this reason: failed by a fault of the infrastructure, completed when its
      root process exited by itself, killed otherwise. */
  predicate EndsAs(reason: Reason, phase: Phase) {
    && (phase == FAILED <==>
          reason in {SENSOR_FAULT, AUDIT_FAULT, WATCHDOG_LOST, CONTAINMENT_FAULT, RESOURCE_LIMIT})
    && (phase == COMPLETED <==> reason == ROOT_EXIT)
    && (phase == KILLED <==>
          reason in {ENERGY_GUARD, MEASUREMENT_OVERRUN, FLOPS_CAP, SPAWN_CAP, WALL_CAP, OPERATOR, SIGNAL})
  }

  lemma FinalPhaseEnds(reason: Reason)
    ensures EndsAs(reason, FinalPhase(reason))
  {
  }

  /** A stop reason exists exactly from STOPPING on; it is the reason of the one StopLatched event in the
      journal, after which nothing is admitted; and it alone decides how the run ends. */
  ghost predicate StopSafe(r: Run) {
    var bodies := Bodies(r.journal);
    && (r.core.stopReason.Some? <==> r.core.phase in {STOPPING, UNCONFIRMED, FINALIZING, COMPLETED, KILLED, FAILED})
    && (forall reason :: r.core.stopReason == Some(reason) <==>
          exists i :: 0 <= i < |bodies| && bodies[i].event == StopLatched(reason))
    && (forall i, j :: 0 <= i < j < |bodies| && bodies[i].event.StopLatched? ==> !AdmitsWork(bodies[j].event))
    && (r.core.phase in {COMPLETED, KILLED, FAILED} ==> EndsAs(r.core.stopReason.value, r.core.phase))
  }

  lemma FaithfulStopSafe(su: Setup, r: Run)
    requires Faithful(su, r) && Coherent(r.core)
    ensures StopSafe(r)
  {
    var bodies := Bodies(r.journal);
    var events := Replay.Events(bodies);
    hide Chained, Accepted, LastTime, TokenStates, ActionStates, ComputeStates;
    forall i, j | 0 <= i < j < |bodies| && bodies[i].event.StopLatched? ensures !AdmitsWork(bodies[j].event) {
      NothingAdmittedAfterStop(bodies, i, j);
    }
    LatchedReason(BLANK, events);
    if r.core.stopReason.Some? { FinalPhaseEnds(r.core.stopReason.value); }
    hide RefoldAll, FinalPhase, EndsAs;
    forall reason
      ensures r.core.stopReason == Some(reason) <==>
                exists i :: 0 <= i < |bodies| && bodies[i].event == StopLatched(reason)
    {
      if r.core.stopReason == Some(reason) {
        var i :| 0 <= i < |bodies| && events[i] == StopLatched(reason);
        assert bodies[i].event == StopLatched(reason);
      }
      if i :| 0 <= i < |bodies| && bodies[i].event == StopLatched(reason) {
        assert events[i] == StopLatched(reason);
      }
    }
  }

  /** Stop safety holds in every state of every run. */
  lemma StopSafety(su: Setup, steps: seq<Move>)
    requires History(su, steps)
    ensures StopSafe(Supervisor.After(su, steps))
  {
    hide Inv, Timed, Released, History, Supervisor.After, Faithful, StopSafe, Coherent;
    Reachable(su, steps);
    Parts(su.cfg, Supervisor.After(su, steps).core);
    FaithfulStopSafe(su, Supervisor.After(su, steps));
  }

  /** The fold's stop reason is that of the last, hence of the only, StopLatched. */
  lemma {:induction false} LatchedReason(f: Rebuilt, events: seq<Event>)
    requires f.stopReason == None
    requires forall i, j :: 0 <= i < j < |events| && events[i].StopLatched? ==> !events[j].StopLatched?
    ensures RefoldAll(f, events).stopReason.Some? ==>
              exists i :: 0 <= i < |events| && events[i] == StopLatched(RefoldAll(f, events).stopReason.value)
    ensures forall i :: 0 <= i < |events| && events[i].StopLatched? ==>
              RefoldAll(f, events).stopReason == Some(events[i].reason)
  {
    if events != [] {
      var n := |events| - 1;
      var init := events[..n];
      LatchedReason(f, init);
      if events[n].StopLatched? {
        assert events[n] == StopLatched(RefoldAll(f, events).stopReason.value);
      } else if RefoldAll(f, init).stopReason.Some? {
        var i :| 0 <= i < |init| && init[i] == StopLatched(RefoldAll(f, init).stopReason.value);
        assert events[i] == init[i];
      }
      forall i | 0 <= i < |events| && events[i].StopLatched?
        ensures RefoldAll(f, events).stopReason == Some(events[i].reason)
      {
        if i < n { assert init[i] == events[i]; }
      }
    }
  }

  /** The run ends as its stop reason says, and its last event reports the phase, the reason, what was charged
      and issued, and the time from the latch to the first kill. */
  ghost predicate FinalizesTo(c: Core, s: Step) {
    && c.stopReason.Some? && EndsAs(c.stopReason.value, s.core.phase) && s.core == c.(phase := s.core.phase)
    && s.out.error == None && |s.out.events| == 1 && s.out.events[0].RunFinalized?
    && var e := s.out.events[0];
    && e.phase == s.core.phase && e.stopReason == c.stopReason.value
    && e.charged == c.charged && e.spawnIssued == c.spawnIssued && e.rootExit == c.rootExit
    && (c.killIssuedAtUs.Some? && c.stopLatchedUs.Some? ==>
          e.killLatencyUs == c.killIssuedAtUs.value - c.stopLatchedUs.value)
    && (c.killIssuedAtUs.None? ==> e.killLatencyUs == 0)
  }

  /** FINALIZING always reaches its terminal phase: finalisation cannot fail. */
  lemma FinalizeSucceeds(su: Setup, steps: seq<Move>)
    requires History(su, steps) && Supervisor.After(su, steps).core.phase == FINALIZING
    ensures var c := Supervisor.After(su, steps).core;
            && c.stopReason.Some? && Drained(c.actions.at) && c.inflight == 0
            && FinalizesTo(c, Finalize(c))
  {
    hide FinalizesTo, Inv, Faithful, Released, History, Supervisor.After, Drained, Timed, Coherent;
    Reachable(su, steps);
    var r := Supervisor.After(su, steps);
    Parts(su.cfg, r.core);
    ActionsWithinBudget(su.cfg, r.core);
    TimedFinalizes(r);
  }

  lemma TimedFinalizes(r: Run)
    requires Timed(r) && Coherent(r.core) && r.core.phase == FINALIZING
    ensures r.core.stopReason.Some? && Drained(r.core.actions.at) && FinalizesTo(r.core, Finalize(r.core))
  {
    assert CLOCK_END <= U_MAX;
  }
}
