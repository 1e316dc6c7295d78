/** The supervisor of one run as an object: it calls the host, updates its ledger, meter, journal and
    request table in place, and every method is proved to take legal steps of `Supervisor`. */
module Engine {
  import opened Types
  import opened Dicts
  import opened Ledger
  import opened Audit
  import opened Metering
  import opened RunCores
  import opened Supervisor
  import opened Runs
  import opened Theorems
  import opened Invariants
  import opened Requests
  import opened Receipts
  import opened Hosts
  import opened Steps
  import E = Estimator

  function IdsOf(j: seq<Entry>, stamps: seq<Stamp>): (ids: seq<Id>)
    ensures forall i :: 0 <= i < |j| ==> j[i].body.eventId in ids
    ensures forall i :: 0 <= i < |stamps| ==> stamps[i].eventId in ids
  {
    var before := seq(|j|, i requires 0 <= i < |j| => j[i].body.eventId);
    var drawn := seq(|stamps|, i requires 0 <= i < |stamps| => stamps[i].eventId);
    assert forall i :: 0 <= i < |j| ==> (before + drawn)[i] == j[i].body.eventId;
    assert forall i :: 0 <= i < |stamps| ==> (before + drawn)[|j| + i] == stamps[i].eventId;
    before + drawn
  }

  /** One unused event id and one clock reading per event. */
  method DrawStamps(host: Host, j: seq<Entry>, n: nat) returns (stamps: seq<Stamp>)
    modifies host`now
    ensures |stamps| == n && Stamped(j, old(host.now), stamps, host.now)
  {
    stamps := [];
    for i := 0 to n
      invariant |stamps| == i && Stamped(j, old(host.now), stamps, host.now)
    {
      var id := host.EventId(IdsOf(j, stamps));
      var t := host.Boottime();
      stamps := stamps + [Stamp(id, t)];
    }
  }

  method HasLatch(events: seq<Event>) returns (latched: bool)
    ensures latched == Latches(events)
  {
    for i := 0 to |events|
      invariant forall k :: 0 <= k < i ==> !events[k].StopLatched?
    {
      if events[i].StopLatched? {
        return true;
      }
    }
    latched := false;
  }

  class LiveRun {
    const su: Setup
    const host: Host
    const core: RunCore
    var journal: seq<Entry>
    var requests: map<Key, Stored>
    var prevReadings: map<Id, Reading>
    var energyUj: nat
    var energyValid: bool
    var sampleIndex: nat
    var lastCpuUs: int
    var unchangedSinceUs: Option<int>
    var unchangedCpuAtUs: int
    var startedUs: Option<Time>
    var hasCgroup: bool
    var hasRoot: bool
    var childProcs: seq<Id>
    var execAfterCommit: Option<Id>
    ghost var clock: Time
    ghost var released: seq<Id>
    ghost var steps: seq<Move>

    ghost function MeterView(): Meter
      reads this
    {
      Meter(prevReadings, energyUj, sampleIndex, lastCpuUs, unchangedSinceUs, unchangedCpuAtUs)
    }

    /** The state as the transition system sees it. */
    ghost function View(): Supervisor.Run
      reads this, core
    {
      Supervisor.Run(core.View(), MeterView(), journal, clock, requests, execAfterCommit, released)
    }

    /** Effects are only dispatched inside a control group. */
    ghost predicate Contained()
      reads this, core
    {
      (core.phase == RUNNING ==> hasCgroup) && (hasCgroup || core.actions == Empty())
    }

    /** A run that is being stopped has been killed: true whenever the supervisor waits for its next task. */
    ghost predicate Struck()
      reads core
    {
      core.phase in {STOPPING, UNCONFIRMED} ==> core.killIssuedAtUs.Some?
    }

    /** The object is in the state its history of legal steps leads to. */
    ghost predicate Valid()
      reads this, core, host
    {
      && core.cfg == su.cfg
      && clock <= host.now && Contained()
      && History(su, steps) && After(su, steps) == View()
    }

    /** A stop reason and its time are there exactly from STOPPING on. */
    lemma StopKnown()
      requires Valid()
      ensures core.stopReason.Some? <==> core.phase in {STOPPING, UNCONFIRMED, FINALIZING, COMPLETED, KILLED, FAILED}
      ensures core.stopReason.Some? <==> core.stopLatchedUs.Some?
    {
      UnstoppedIffLive(su, steps);
      hide History, After, RunInv;
    }

    /** The object's latch is that of its history. */
    lemma LatchStands()
      requires Valid()
      ensures History(su, steps)
      ensures After(su, steps).core.stopLatchedUs == core.stopLatchedUs
      ensures After(su, steps).core.stopReason == core.stopReason
    {
      hide History, After, RunInv;
    }

    /** A latch time stays as it was when the history has grown. */
    lemma LatchHeld(was: seq<Move>)
      requires Valid() && Grew(was, steps) && History(su, was) && After(su, was).core.stopReason.Some?
      ensures core.stopLatchedUs == After(su, was).core.stopLatchedUs
    {
      hide History, After, RunInv;
      NothingUndone(su, steps, |was|);
    }

    constructor (su: Setup, host: Host)
      ensures Valid() && journal == [] && steps == [] && this.su == su && this.host == host
      ensures fresh(core) && !hasCgroup && execAfterCommit == None
    {
      this.su, this.host := su, host;
      core := new RunCore(su.cfg);
      journal, requests := [], map[];
      prevReadings, energyUj, energyValid, sampleIndex, lastCpuUs := map[], 0, false, 0, 0;
      unchangedSinceUs, unchangedCpuAtUs := None, 0;
      startedUs, hasCgroup, hasRoot := None, false, false;
      childProcs, execAfterCommit := [], None;
      clock, released, steps := 0, [], [];
    }

    /** `_commit` without the request table: stamp, chain and append the events; a committed StopLatched
        records the time of the latch. */
    method CommitEvents(events: seq<Event>) returns (ghost stamps: seq<Stamp>)
      modifies this`journal, this`clock, core`stopLatchedUs, host`now
      requires clock <= host.now
      ensures old(host.now) <= host.now
      ensures |stamps| == |events| && Stamped(old(journal), old(clock), stamps, clock)
      ensures old(host.now) <= clock == host.now
      ensures forall i :: 0 <= i < |stamps| ==> old(host.now) <= stamps[i].t
      ensures journal == Append(su.Signer(), old(journal), events, stamps)
      ensures core.View() == old(core.View()).(stopLatchedUs :=
                if Latches(events) then Some(clock) else old(core.View()).stopLatchedUs)
    {
      ghost var begun := host.now;
      var drawn := DrawStamps(host, journal, |events|);
      ghost var ended := host.now;
      journal := AppendEvents(su.Signer(), journal, events, drawn);
      var latched := HasLatch(events);
      if latched {
        var t := host.Boottime();
        core.stopLatchedUs := Some(t);
      }
      clock := host.now;
      stamps := drawn;
      StampedLater(old(journal), old(clock), begun, drawn, ended, clock);
    }

    /** The ledger has just applied one of the supervisor's own operations to the state `before`, and
        nothing else has changed since. */
    ghost predicate Applied(op: Op, before: Supervisor.Run, out: Outcome)
      reads this, core, host
    {
      && core.cfg == su.cfg && clock <= host.now && Contained()
      && History(su, steps) && After(su, steps) == before
      && View() == before.(core := core.View())
      && core.View() == Apply(su.cfg, before.core, op).core && out == Apply(su.cfg, before.core, op).out
      && Internal(op) && Enabled(before.core, op) && (op.Create? <==> before.journal == [])
      && (op.Kill? ==> before.clock <= op.now <= host.now)
    }

    /** Commit what an operation returned: the step it completes is legal. */
    method CommitOp(ghost op: Op, ghost before: Supervisor.Run, out: Outcome)
      requires Applied(op, before, out)
      modifies this`journal, this`clock, this`steps, core`stopLatchedUs, host`now
      ensures old(host.now) <= host.now
      ensures Valid() && journal != []
      ensures core.View() == old(core.View()).(stopLatchedUs :=
                if Latches(out.events) then Some(clock) else before.core.stopLatchedUs)
      ensures Took(old(steps), steps, op)
      ensures |steps| == |old(steps)| + 1 && StampedSince(steps[|old(steps)|], old(host.now), |out.events|)
    {
      hide History, After, Apply, Enabled, Internal, Append, Latches, Ordered, Stamped, Legal, NextRun;
      ApplyKeepsLatchTime(su.cfg, before.core, op);
      ghost var stamps := CommitEvents(out.events);
      NoteOp(op, before, stamps);
    }

    /** The operation's events are in the journal: the step is complete. */
    ghost method NoteOp(op: Op, before: Supervisor.Run, stamps: seq<Stamp>)
      requires core.cfg == su.cfg && clock <= host.now && Contained()
      requires History(su, steps) && After(su, steps) == before
      requires Internal(op) && Enabled(before.core, op) && (op.Create? <==> before.journal == [])
      requires op.Kill? ==> before.clock <= op.now <= clock
      requires |stamps| == |Apply(su.cfg, before.core, op).out.events|
      requires Stamped(before.journal, before.clock, stamps, clock)
      requires var s := Apply(su.cfg, before.core, op);
               View() == Commit(su, before, s.core, s.out.events, stamps, clock)
      modifies this`steps
      ensures Valid() && journal != [] && steps == old(steps) + [Exec(op, stamps, clock)]
    {
      hide History, After, Apply, Enabled, Internal, Append, Latches, Ordered, Legal, NextRun, RunInv, Stamped, Commit;
      Reachable(su, steps);
      ChargedInRange(su, before);
      ExecIsLegal(su, before, op, stamps, clock);
      Extend(su, steps, Exec(op, stamps, clock));
      steps := steps + [Exec(op, stamps, clock)];
      Reachable(su, steps);
    }

    /** `created`: the first event of the journal. */
    method Created(configHash: Hash)
      requires Valid() && journal == []
      modifies this`journal, this`clock, this`steps, core`stopLatchedUs, host`now
      ensures old(host.now) <= host.now
      ensures Took(old(steps), steps, Create(configHash))
      ensures Valid() && journal != [] && core.View() == INITIAL
    {
      hide History, After, Append, RunInv;
      StartsInitial(su, steps);
      ghost var before := View();
      NoLatch([RunCreated(configHash)]);
      CommitOp(Create(configHash), before, Outcome([RunCreated(configHash)], None, None));
    }

    /** `arming` */
    method Arming()
      requires Valid() && journal != [] && core.phase == CREATED
      modifies this`journal, this`clock, this`steps, core`phase, core`stopLatchedUs, host`now
      ensures old(host.now) <= host.now
      ensures Took(old(steps), steps, Arm)
      ensures Valid() && journal != [] && core.phase == ARMING
    {
      hide History, After, Append, RunInv;
      ghost var before := View();
      core.phase := ARMING;
      NoLatch([RunArming]);
      CommitOp(Arm, before, Outcome([RunArming], None, None));
    }

    /** `reject`: only a run that has not started can be rejected. */
    method Reject(code: Code)
      requires Valid() && journal != []
      modifies this`journal, this`clock, this`steps, core`phase, core`stopLatchedUs, host`now
      ensures old(host.now) <= host.now
      ensures Took(old(steps), steps, Op.Reject(code))
      ensures Valid() && journal != []
      ensures core.phase == (if old(core.phase) in {CREATED, ARMING} then REJECTED else old(core.phase))
    {
      hide History, After, Append, RunInv;
      ghost var before := View();
      var out := core.RejectStart(code);
      CommitOp(Op.Reject(code), before, out);
    }

    /** `_issue_kill`: both kill attempts, then a KillIssued event whatever came of them. */
    method IssueKill()
      requires Valid() && journal != []
      modifies this`journal, this`clock, this`steps, core`killIssuedAtUs, core`stopLatchedUs, host`now
      ensures old(host.now) <= host.now
      ensures Killed(old(steps), steps)
      ensures Valid() && journal != [] && core.phase == old(core.phase)
      ensures core.phase in {STOPPING, UNCONFIRMED} ==> core.killIssuedAtUs.Some?
    {
      hide History, After, Append, RunInv;
      ghost var before := View();
      var cgroup := host.Holds();
      var group := host.Holds();
      var now := host.Boottime();
      var out := core.KillWasIssued(cgroup, group, now);
      CommitOp(Kill(cgroup, group, now), before, out);
    }

    /** `_latch`: the first stop source stops the run and kills it; later ones change nothing. */
    method LatchStop(reason: Reason)
      requires Valid() && journal != [] && reason != ENERGY_GUARD && reason != MEASUREMENT_OVERRUN
      modifies this`journal, this`clock, this`steps, core, host`now
      ensures old(host.now) <= host.now
      ensures TookAndKilled(old(steps), steps, Halt(reason), core.phase == STOPPING)
      ensures Valid() && journal != []
      ensures core.phase == (if old(core.phase) in {ARMING, RUNNING} then STOPPING else old(core.phase))
      ensures core.stopReason == (if old(core.phase) in {ARMING, RUNNING} then Some(reason) else old(core.stopReason))
      ensures core.phase == STOPPING ==> core.killIssuedAtUs.Some?
    {
      hide History, After, Append, RunInv, Took, TookAndKilled, Killed, Valid;
      HaltNow(reason);
      TookGrew(old(steps), steps, Halt(reason));
      if core.phase == STOPPING {
        ghost var halted := steps;
        IssueKill();
        ThenKilled(old(steps), halted, steps, Halt(reason));
      }
    }

    method HaltNow(reason: Reason)
      requires Valid() && journal != [] && reason != ENERGY_GUARD && reason != MEASUREMENT_OVERRUN
      modifies this`journal, this`clock, this`steps, core, host`now
      ensures old(host.now) <= host.now
      ensures Took(old(steps), steps, Halt(reason)) && Valid() && journal != []
      ensures core.phase == (if old(core.phase) in {ARMING, RUNNING} then STOPPING else old(core.phase))
      ensures core.stopReason == (if old(core.phase) in {ARMING, RUNNING} then Some(reason) else old(core.stopReason))
    {
      hide History, After, Append, RunInv;
      UnstoppedIffLive(su, steps);
      ghost var before := View();
      var out := core.StopRun(reason);
      CommitOp(Halt(reason), before, out);
    }

    /** A root exit is noted before it stops the run. */
    method LatchRootExit(exit: Exit)
      requires Valid() && journal != []
      modifies this`journal, this`clock, this`steps, core, host`now
      ensures old(host.now) <= host.now
      ensures Grew(old(steps), steps) && (core.phase == STOPPING ==> RootLeft(old(steps), steps, exit))
      ensures Valid() && journal != []
      ensures core.phase == (if old(core.phase) in {ARMING, RUNNING} then STOPPING else old(core.phase))
      ensures core.stopReason
           == (if old(core.phase) in {ARMING, RUNNING} then Some(ROOT_EXIT) else old(core.stopReason))
      ensures core.phase == STOPPING ==> core.killIssuedAtUs.Some?
    {
      hide History, After, Append, RunInv, Grew, Took, TookAndKilled, RootLeft, Valid;
      NoteRootExit(exit);
      ghost var noted := steps;
      LatchStop(ROOT_EXIT);
      TookGrew(old(steps), noted, NoteExit(exit));
      TookGrew(noted, steps, Halt(ROOT_EXIT));
      GrewOn(old(steps), noted, steps);
      if core.phase == STOPPING {
        NotedThenKilled(old(steps), noted, steps, exit);
      }
    }

    method NoteRootExit(exit: Exit)
      requires Valid() && journal != []
      modifies this`journal, this`clock, this`steps, core`rootExit, core`stopLatchedUs, host`now
      ensures old(host.now) <= host.now
      ensures Took(old(steps), steps, NoteExit(exit)) && Valid() && journal != []
    {
      hide History, After, Append, RunInv;
      ghost var before := View();
      core.rootExit := Some(exit);
      CommitOp(NoteExit(exit), before, Outcome([], None, None));
    }

    /** `_fault`: an infrastructure fault stops a live run, and is only recorded once it is stopping. */
    method FaultSeen(reason: Reason)
      requires Valid() && journal != [] && IsFaultReason(reason)
      modifies this`journal, this`clock, this`steps, core, host`now
      ensures old(host.now) <= host.now
      ensures TookAndKilled(old(steps), steps, Observe(reason), core.phase == STOPPING)
      ensures Valid() && journal != []
      ensures core.phase == STOPPING ==> core.killIssuedAtUs.Some?
      ensures core.phase == (if old(core.phase) in {ARMING, RUNNING} then STOPPING else old(core.phase))
    {
      hide History, After, Append, RunInv, Took, TookAndKilled, Killed, Valid;
      RecordFault(reason);
      TookGrew(old(steps), steps, Observe(reason));
      if core.phase == STOPPING {
        ghost var recorded := steps;
        IssueKill();
        ThenKilled(old(steps), recorded, steps, Observe(reason));
      }
    }

    method RecordFault(reason: Reason)
      requires Valid() && journal != [] && IsFaultReason(reason)
      modifies this`journal, this`clock, this`steps, core, host`now
      ensures old(host.now) <= host.now
      ensures Took(old(steps), steps, Observe(reason))
      ensures Valid() && journal != []
      ensures core.phase == (if old(core.phase) in {ARMING, RUNNING} then STOPPING else old(core.phase))
    {
      hide History, After, Append, RunInv, Took, Latches, Apply, Enabled, Internal, Fault;
      UnstoppedIffLive(su, steps);
      ghost var before := View();
      FaultOp(su.cfg, before.core, reason);
      var out := core.InfrastructureFault(reason);
      CommitOp(Observe(reason), before, out);
    }

    /** `arm`: probe the host, record the baseline, start, and release the root process; `clean` is what the
        host says of the control group when that fails. The run is left RUNNING without a root process exactly
        when the probes succeed, the root cannot be spawned and the control group is clean. */
    method ArmRun() returns (started: bool, ghost probe: Result<Sample, Code>, ghost clean: bool)
      requires Valid() && journal != [] && core.phase == ARMING && !hasCgroup
      modifies this`journal, this`clock, this`steps, this`hasCgroup, this`hasRoot, this`energyValid, this`startedUs,
               core, host`now
      ensures Struck()
      ensures old(host.now) <= host.now
      ensures Grew(old(steps), steps)
      ensures Valid() && journal != []
      ensures probe.Err? ==> !started && core.phase == (if hasCgroup && !clean then STOPPING else REJECTED)
      ensures probe.Ok? ==> core.phase == (if started || clean then RUNNING else STOPPING)
      ensures probe.Ok? ==> TookFirst(old(steps), steps, Start(probe.value))
      ensures hasRoot <==> started
      ensures core.phase == RUNNING && !hasRoot <==> probe.Ok? && !started && clean
      ensures started ==> energyValid == su.rapl && startedUs.Some?
    {
      hide History, After, Append, RunInv, Apply, Enabled, Internal, Grew, Took, TookFirst;
      var probed := ProbeHost();
      probe := probed;
      if probed.Err? {
        clean := ArmFailed(probed.error);
        TookFirstGrew(old(steps), steps);
        started := false;
        return;
      }
      StartRun(probed.value);
      ghost var begun := steps;
      started, clean := ReleaseRoot();
      TookThenGrew(old(steps), begun, steps, Start(probed.value));
    }

    /** The probes; a control group may be left behind by probes that fail. */
    method ProbeHost() returns (probed: Result<Sample, Code>)
      requires Valid() && !hasCgroup
      modifies this`hasCgroup, this`hasRoot
      ensures Valid() && !hasRoot && (probed.Ok? ==> hasCgroup)
    {
      hide History, After, RunInv;
      hasRoot := false;
      probed := host.Probe();
      var created := host.Holds();
      hasCgroup := created || probed.Ok?;
    }

    /** The root process is released, or the start fails after RunStarted. */
    method ReleaseRoot() returns (spawned: bool, ghost clean: bool)
      requires Valid() && journal != [] && core.phase == RUNNING && !hasRoot
      modifies this`journal, this`clock, this`steps, this`hasRoot, core, host`now
      ensures Struck()
      ensures old(host.now) <= host.now
      ensures Grew(old(steps), steps)
      ensures Valid() && journal != [] && (hasRoot <==> spawned)
      ensures core.phase == (if spawned || clean then RUNNING else STOPPING)
    {
      hide History, After, Append, RunInv, Grew, TookFirst;
      GrewRefl(steps);
      spawned := host.Holds();
      clean := true;
      if spawned {
        hasRoot := true;
      } else {
        clean := ArmFailed(CONTAINMENT_FAULTED);
        TookFirstGrew(old(steps), steps);
      }
    }

    /** RunStarted with the baseline sample. */
    method StartRun(baseline: Sample)
      requires Valid() && journal != [] && core.phase == ARMING && hasCgroup
      modifies this`journal, this`clock, this`steps, this`energyValid, this`startedUs, core, host`now
      ensures old(host.now) <= host.now
      ensures Took(old(steps), steps, Start(baseline))
      ensures Valid() && journal != [] && core.phase == RUNNING && energyValid == su.rapl
      ensures startedUs.Some? && old(host.now) <= startedUs.value <= steps[|old(steps)|].stamps[0].t
    {
      hide History, After, Append, RunInv, Latches, Took, Apply, Enabled, Internal;
      energyValid := su.rapl;
      ghost var before := View();
      StartOp(su.cfg, before.core, baseline);
      core.phase := RUNNING;
      var now := host.Boottime();
      startedUs := Some(now);
      NoLatch([RunStarted(baseline)]);
      CommitOp(Start(baseline), before, Outcome([RunStarted(baseline)], None, None));
    }

    /** Creation, arming and the start, in this order. */
    method Begin(configHash: Hash) returns (started: bool)
      requires Valid() && journal == [] && !hasCgroup
      modifies this`journal, this`clock, this`steps, this`hasCgroup, this`hasRoot, this`energyValid, this`startedUs,
               core, host`now
      ensures Struck()
      ensures old(host.now) <= host.now
      ensures Grew(old(steps), steps)
      ensures Valid() && journal != [] && core.phase in {RUNNING, STOPPING, REJECTED}
      ensures started ==> core.phase == RUNNING
    {
      hide History, After, Append, RunInv, Valid;
      Created(configHash);
      Arming();
      ghost var probe, clean;
      started, probe, clean := ArmRun();
    }

    /** The failure path of `arm`: a control group that is not clean is a fault, anything else a rejection,
        which has no effect once the run is RUNNING. */
    method ArmFailed(code: Code) returns (ghost clean: bool)
      requires Valid() && journal != [] && core.phase in {ARMING, RUNNING}
      modifies this`journal, this`clock, this`steps, core, host`now
      ensures Struck()
      ensures old(host.now) <= host.now
      ensures Valid() && journal != []
      ensures core.phase == (if hasCgroup && !clean then STOPPING
                             else if old(core.phase) == ARMING then REJECTED else RUNNING)
      ensures TookFirst(old(steps), steps, if hasCgroup && !clean then Observe(CONTAINMENT_FAULT) else Op.Reject(code))
    {
      hide History, After, Append, RunInv, Took, TookAndKilled, TookFirst;
      var unclean := false;
      if hasCgroup {
        unclean := host.Holds();
      }
      clean := !unclean;
      if unclean {
        FaultSeen(CONTAINMENT_FAULT);
        TookGrew(old(steps), steps, Observe(CONTAINMENT_FAULT));
      } else {
        Reject(code);
        TookGrew(old(steps), steps, Op.Reject(code));
      }
    }

    // ---- metering ----

    /** One pass over the domains; the host's answers after a failed check go unused. */
    method ReadPass(shown: seq<Option<Reading>>, strict: bool) returns (ok: bool, delta: nat, changed: bool)
      requires |shown| == |su.domains|
      modifies this`prevReadings
      ensures Pass(prevReadings, delta, changed, ok)
           == ReadUpTo(su.domains, su.staleUs, shown, |su.domains|, old(prevReadings), strict)
    {
      delta, changed := 0, false;
      for i := 0 to |su.domains|
        invariant Pass(prevReadings, delta, changed, true)
               == ReadUpTo(su.domains, su.staleUs, shown, i, old(prevReadings), strict)
      {
        var d := su.domains[i];
        ReadStops(su.domains, su.staleUs, shown, i + 1, |su.domains|, old(prevReadings), strict);
        hide ReadUpTo;
        if shown[i].None? {
          return false, delta, changed;
        }
        var r := shown[i].value;
        if d.id in prevReadings {
          var p := prevReadings[d.id];
          var x := RaplDelta(p.counter, r.counter, r.range, r.t - p.t, su.staleUs, d.maxPowerUw, d.marginUj);
          if x.Err? || (strict && r.range != p.range) {
            return false, delta, changed;
          }
          delta := delta + x.value;
          changed := changed || x.value != 0;
        }
        prevReadings := prevReadings[d.id := r];
        if !IsU(r.counter) || !IsU(r.range) || !IsU(r.t) {
          return false, delta, changed;
        }
      }
      ok := true;
    }

    /** `_sample` up to its commit. */
    method UpdateMeter(inp: SampleInput) returns (sample: Option<Sample>)
      requires |inp.shown| == |su.domains|
      modifies this`prevReadings, this`energyUj, this`sampleIndex, this`lastCpuUs, this`unchangedSinceUs,
               this`unchangedCpuAtUs
      ensures (MeterView(), sample) == TakeSample(su.domains, su.staleUs, old(MeterView()), inp)
    {
      var ok, delta, changed := ReadPass(inp.shown, true);
      hide ReadUpTo, Readings;
      if !ok || inp.cpuUs.None? || inp.cpuUs.value < lastCpuUs {
        return None;
      }
      var cpu := inp.cpuUs.value;
      if !changed && prevReadings != map[] {
        if unchangedSinceUs.None? {
          unchangedSinceUs := Some(inp.now);
          unchangedCpuAtUs := cpu;
        } else if inp.now - unchangedSinceUs.value >= STUCK_ENERGY_WINDOW_US
                  && cpu - unchangedCpuAtUs >= STUCK_CPU_ADVANCE_US {
          return None;
        }
      } else {
        unchangedSinceUs := None;
      }
      lastCpuUs := cpu;
      energyUj := energyUj + delta;
      sampleIndex := sampleIndex + 1;
      if !IsU(sampleIndex) || !IsU(cpu) || !IsU(delta) || !IsU(energyUj) {
        return None;
      }
      return Some(Sample(sampleIndex, inp.now, cpu, Readings(inp.shown), delta, energyUj));
    }

    /** `_read_final_sample` */
    method UpdateFinal(inp: SampleInput) returns (sample: Option<Sample>)
      requires |inp.shown| == |su.domains|
      modifies this`prevReadings, this`energyUj
      ensures (MeterView(), sample) == TakeFinal(su.domains, su.staleUs, old(MeterView()), inp)
    {
      var ok, delta, _ := ReadPass(inp.shown, false);
      hide ReadUpTo, Readings;
      if !ok || inp.cpuUs.None? {
        return None;
      }
      var cpu := if inp.cpuUs.value < 0 then 0 else inp.cpuUs.value;
      energyUj := energyUj + delta;
      if !IsU(sampleIndex + 1) || !IsU(cpu) || !IsU(delta) || !IsU(energyUj) {
        return None;
      }
      return Some(Sample(sampleIndex + 1, inp.now, cpu, Readings(inp.shown), delta, energyUj));
    }

    /** The energy guard looks at the total while the run is running and has a cap. */
    method Guard() returns (reason: Option<Reason>)
      ensures reason == if core.phase == RUNNING && su.cfg.budgets.maxEnergyUj.Some?
                        then GuardEval(energyUj, su.cfg.budgets.maxEnergyUj.value, su.Reserve()) else None
    {
      if core.phase != RUNNING || su.cfg.budgets.maxEnergyUj.None? {
        return None;
      }
      var reserve := SumReserve(su.domains, su.staleUs, su.killUs);
      reason := GuardEval(energyUj, su.cfg.budgets.maxEnergyUj.value, reserve);
    }

    /** The ledger and the meter have been updated by a sampling step and its events are in the journal. */
    ghost predicate Sampled(inp: SampleInput, before: Supervisor.Run, stamps: seq<Stamp>)
      reads this, core, host
    {
      && core.cfg == su.cfg && clock <= host.now && Contained()
      && History(su, steps) && After(su, steps) == before
      && su.rapl && |inp.shown| == |su.domains| && before.core.phase in {RUNNING, STOPPING, UNCONFIRMED}
        && before.journal != []
      && var (c, events) := ApplyAll(su.cfg, before.core, SampleOps(su, before, inp));
      && |stamps| == |events| && Stamped(before.journal, before.clock, stamps, clock)
      && View() == Commit(su, before, c, events, stamps, clock)
                   .(meter := TakeSample(su.domains, su.staleUs, before.meter, inp).0)
    }

    /** The step is complete. */
    ghost method NoteSample(inp: SampleInput, before: Supervisor.Run, stamps: seq<Stamp>)
      requires Sampled(inp, before, stamps)
      modifies this`steps
      ensures SampledFirst(old(steps), steps, inp)
      ensures Valid() && journal != []
    {
      hide History, After, Apply, ApplyAll, AllEnabled, SampleOps, TakeSample, Append, Latches, Ordered, Legal, NextRun,
           RunInv, Stamped, Commit;
      Reachable(su, steps);
      SamplingIsLegal(su, before, inp, stamps, clock);
      Extend(su, steps, Sampling(inp, stamps, clock));
      steps := steps + [Sampling(inp, stamps, clock)];
      Reachable(su, steps);
    }

    /** `_sample`: a fault stops the run; a recorded sample of a running run is put before the guard. */
    method SampleNow(now: Time) returns (ghost inp: SampleInput)
      requires Valid() && journal != [] && su.rapl && core.phase in {RUNNING, STOPPING, UNCONFIRMED}
      modifies this`journal, this`clock, this`steps, this`prevReadings, this`energyUj, this`energyValid,
               this`sampleIndex, this`lastCpuUs, this`unchangedSinceUs, this`unchangedCpuAtUs, core, host`now
      ensures old(host.now) <= host.now
      ensures inp.now == now && SampledFirst(old(steps), steps, inp)
      ensures Valid() && journal != []
      ensures core.phase == old(core.phase) || (old(core.phase) == RUNNING && core.phase == STOPPING)
      ensures if core.phase == old(core.phase) then core.stopReason == old(core.stopReason)
              else core.stopReason.Some? && core.stopReason.value in {SENSOR_FAULT, ENERGY_GUARD, MEASUREMENT_OVERRUN}
      ensures old(Struck()) ==> Struck()
    {
      hide History, After, Append, RunInv, SampledFirst, Killed, Valid;
      var kill;
      kill, inp := SampleOnce(now);
      if kill {
        ghost var sampled := steps;
        IssueKill();
        TookGrew(sampled, steps, Arm);
        SampledOn(old(steps), sampled, steps, inp);
      }
    }

    /** The sample itself, up to the kill that a stop demands. */
    method SampleOnce(now: Time) returns (kill: bool, ghost inp: SampleInput)
      requires Valid() && journal != [] && su.rapl && core.phase in {RUNNING, STOPPING, UNCONFIRMED}
      modifies this`journal, this`clock, this`steps, this`prevReadings, this`energyUj, this`energyValid,
               this`sampleIndex, this`lastCpuUs, this`unchangedSinceUs, this`unchangedCpuAtUs, core, host`now
      ensures old(host.now) <= host.now
      ensures inp.now == now && SampledFirst(old(steps), steps, inp)
      ensures Valid() && journal != [] && (kill ==> core.phase == STOPPING)
      ensures core.phase == old(core.phase) || (old(core.phase) == RUNNING && core.phase == STOPPING && kill)
      ensures if core.phase == old(core.phase) then core.stopReason == old(core.stopReason)
              else core.stopReason.Some? && core.stopReason.value in {SENSOR_FAULT, ENERGY_GUARD, MEASUREMENT_OVERRUN}
      ensures core.killIssuedAtUs == old(core.killIssuedAtUs)
    {
      hide History, After, Append, RunInv, TakeSample, SampledFirst;
      UnstoppedIffLive(su, steps);
      ghost var before := View();
      var shown := host.ReadCounters(|su.domains|);
      var cpu := host.CpuUsage();
      var taken := SampleInput(now, shown, cpu);
      inp := taken;
      var sample := UpdateMeter(taken);
      if sample.None? {
        SampleFault(taken, before);
        kill := core.phase == STOPPING;
      } else {
        energyValid := true;
        kill := SampleGood(taken, before, sample.value);
      }
    }

    /** A check raised: the fault stops the run. */
    method SampleFault(ghost inp: SampleInput, ghost before: Supervisor.Run)
      requires MeterUpdated(inp, before) && TakeSample(su.domains, su.staleUs, before.meter, inp).1 == None
      modifies this`journal, this`clock, this`steps, core, host`now
      ensures old(host.now) <= host.now
      ensures SampledFirst(old(steps), steps, inp)
      ensures Valid() && journal != []
      ensures core.phase == old(core.phase) || (old(core.phase) == RUNNING && core.phase == STOPPING)
      ensures if core.phase == old(core.phase) then core.stopReason == old(core.stopReason)
              else core.stopReason == Some(SENSOR_FAULT)
      ensures core.killIssuedAtUs == old(core.killIssuedAtUs)
    {
      hide History, After, Append, RunInv, TakeSample, ApplyAll, Latches, Stamped;
      FaultOps(su, before, inp);
      var out := core.InfrastructureFault(SENSOR_FAULT);
      ghost var stamps := CommitEvents(out.events);
      hide SampleOps;
      NoteSample(inp, before, stamps);
    }

    /** The meter has taken the sample, nothing else has changed. */
    ghost predicate MeterUpdated(inp: SampleInput, before: Supervisor.Run)
      reads this, core, host
    {
      && core.cfg == su.cfg && clock <= host.now && Contained()
      && History(su, steps) && After(su, steps) == before
      && su.rapl && |inp.shown| == |su.domains| && before.core.phase in {RUNNING, STOPPING, UNCONFIRMED}
        && before.journal != []
      && (before.core.stopReason.None? <==> before.core.phase == RUNNING)
      && View() == before.(meter := TakeSample(su.domains, su.staleUs, before.meter, inp).0)
    }

    /** The sample is recorded, then the guard may latch the stop in a commit of its own. */
    method SampleGood(ghost inp: SampleInput, ghost before: Supervisor.Run, sample: Sample) returns (kill: bool)
      requires MeterUpdated(inp, before) && TakeSample(su.domains, su.staleUs, before.meter, inp).1 == Some(sample)
      modifies this`journal, this`clock, this`steps, core, host`now
      ensures old(host.now) <= host.now
      ensures SampledFirst(old(steps), steps, inp)
      ensures Valid() && journal != [] && (kill ==> core.phase == STOPPING)
      ensures core.phase == old(core.phase) || (old(core.phase) == RUNNING && core.phase == STOPPING && kill)
      ensures if core.phase == old(core.phase) then core.stopReason == old(core.stopReason)
              else core.stopReason.Some? && core.stopReason.value in {ENERGY_GUARD, MEASUREMENT_OVERRUN}
      ensures core.killIssuedAtUs == old(core.killIssuedAtUs)
    {
      hide History, After, Append, RunInv, TakeSample, ApplyAll, Stamped, Latches;
      NoLatch([SampleRecorded(sample)]);
      ghost var stamps := CommitEvents([SampleRecorded(sample)]);
      ghost var between := clock;
      var reason := Guard();
      RecordedSample(su, before, inp, sample, reason);
      hide SampleOps;
      if reason.None? {
        assert [SampleRecorded(sample)] + [] == [SampleRecorded(sample)];
        NoteSample(inp, before, stamps);
        return false;
      }
      var out := core.StopRun(reason.value);
      ghost var more := CommitEvents(out.events);
      JoinCommits(su, before, [SampleRecorded(sample)], stamps, between, out.events, more, clock);
      NoteSample(inp, before, stamps + more);
      kill := core.phase == STOPPING;
    }

    // ---- children and containment ----

    /** Resolve one action in a commit of its own. */
    method ResolveAction(id: Id, result: Option<ActionResult>, error: Option<Code>, exit: Option<Exit>)
      requires Valid() && journal != []
      modifies this`journal, this`clock, this`steps, core`inflight, core`actions, core`stopLatchedUs, host`now
      ensures old(host.now) <= host.now
      ensures Took(old(steps), steps, Finish(id, result, error, exit))
      ensures Valid() && journal != []
      ensures core.actions == FinishAction(old(core.View()), id, result, error, exit).core.actions
    {
      hide History, After, Append, RunInv, FinishAction;
      FinishKeepsContained(core.View(), id, result, error, exit);
      ghost var before := View();
      var out := core.ActionFinish(id, result, error, exit);
      CommitOp(Finish(id, result, error, exit), before, out);
    }

    /** `_observe_children`: every child is looked at once; those seen to exit are forgotten and their actions
        resolved, as succeeded only on exit code 0. */
    method ObserveChildren()
      requires Valid() && journal != [] && core.phase in {RUNNING, STOPPING, UNCONFIRMED}
      modifies this`journal, this`clock, this`steps, this`childProcs, core`inflight, core`actions,
               core`stopLatchedUs, host`now, host`sightings
      ensures old(host.now) <= host.now
      ensures Grew(old(steps), steps)
      ensures Valid() && journal != []
      ensures Further(old(host.sightings), host.sightings)
      ensures var seen := host.sightings[|old(host.sightings)|..];
              && LookedAt(old(childProcs), seen) && EndedBy(old(core.actions), core.actions, seen)
              && forall k :: k in childProcs <==> k in old(childProcs) && FirstExit(seen, k).None?
    {
      hide History, After, Append, RunInv, Grew, Took, EndedBy, FirstExit, EndedAs, Valid;
      var children := childProcs;
      ghost var seen: seq<Sighting> := [];
      GrewRefl(steps);
      SeenNothing(core.actions);
      SeenNone();
      for i := 0 to |children|
        invariant Valid() && journal != [] && Grew(old(steps), steps)
        invariant host.sightings == old(host.sightings) + seen && LookedAt(children[..i], seen)
        invariant old(host.now) <= host.now
        invariant EndedBy(old(core.actions), core.actions, seen)
        invariant forall k :: k in childProcs <==> k in children && FirstExit(seen, k).None?
      {
        var id := children[i];
        ghost var before := core.actions;
        var exit := ProcExited(id);
        if exit.Some? {
          ghost var was := steps;
          ChildExited(id, exit.value);
          GrewOn(old(steps), was, steps);
        }
        if exit.None? { EndsNone(before.at); }
        assert children[..i + 1] == children[..i] + [id];
        SeenOne(old(core.actions), before, core.actions, seen, id, exit);
        seen := seen + [Sighting(id, exit)];
      }
      assert children[..|children|] == children;
      assert host.sightings[|old(host.sightings)|..] == seen;
    }

    /** A child that exited is forgotten and its action resolved by the exit. */
    method ChildExited(id: Id, exit: Exit)
      requires Valid() && journal != [] && core.phase in {RUNNING, STOPPING, UNCONFIRMED}
      modifies this`journal, this`clock, this`steps, this`childProcs, core`inflight, core`actions,
               core`stopLatchedUs, host`now
      ensures old(host.now) <= host.now
      ensures Grew(old(steps), steps) && Valid() && journal != []
      ensures forall k :: k in childProcs <==> k in old(childProcs) && k != id
      ensures core.actions.order == old(core.actions).order && core.actions.at.Keys == old(core.actions).at.Keys
      ensures forall k :: k in core.actions.at ==>
                core.actions.at[k] == EndedAs(old(core.actions).at[k], if k == id then Some(exit) else None)
    {
      hide History, After, Append, RunInv, FinishAction, Grew, Took, EndedAs;
      childProcs := Without(childProcs, id);
      var error := if exit == Exited(0) then None else Some(ACTION_FAILED);
      FinishEnds(core.View(), id, exit);
      ResolveAction(id, Some(SpawnResult(exit)), error, Some(exit));
      TookGrew(old(steps), steps, Finish(id, Some(SpawnResult(exit)), error, Some(exit)));
    }

    /** Resolve one dispatched action of the drain; its event joins the others of the same commit. */
    method DrainOne(id: Id) returns (out: Outcome, ghost op: Op, ghost exit: Option<Exit>)
      requires id in core.actions.at && core.actions.at[id].state == DISPATCHED && core.actions.at[id].actionId == id
      requires core.phase in {STOPPING, UNCONFIRMED}
      modifies this`childProcs, core`inflight, core`actions, host`sightings
      ensures op.Finish? || op.GiveUp?
      ensures host.sightings == old(host.sightings) + (if id in old(childProcs) then [Sighting(id, exit)] else [])
      ensures id !in old(childProcs) ==> exit == None
      ensures core.View() == Apply(core.cfg, old(core.View()), op).core
              && out == Apply(core.cfg, old(core.View()), op).out
      ensures Resolved(old(core.View()), core.View(), old(childProcs), childProcs, id, exit) && |out.events| == 1
    {
      exit := None;
      if id in childProcs {
        childProcs := Without(childProcs, id);
        var seen := host.ExitObserved(id);
        exit := seen;
        if seen.Some? {
          out := core.ActionFinish(id, Some(SpawnResult(seen.value)), Some(ACTION_FAILED), seen);
          op := Finish(id, Some(SpawnResult(seen.value)), Some(ACTION_FAILED), seen);
        } else {
          out := core.ActionGiveUp(id, ACTION_FAILED);
          op := GiveUp(id, ACTION_FAILED);
        }
      } else {
        out := core.ActionFinish(id, None, Some(ACTION_FAILED), None);
        op := Finish(id, None, Some(ACTION_FAILED), None);
      }
    }

    /** The drain: every action still dispatched is resolved, in one commit; each that has a child is resolved by
        what is seen of it. */
    method Drain() returns (ghost exits: map<Id, Exit>)
      requires Valid() && journal != [] && core.phase in {STOPPING, UNCONFIRMED}
      modifies this`journal, this`clock, this`steps, this`childProcs, core`inflight, core`actions,
               core`stopLatchedUs, host`now, host`sightings
      ensures old(host.now) <= host.now
      ensures Further(old(host.sightings), host.sightings)
      ensures SeenFor(old(core.actions).at, old(childProcs), exits, host.sightings[|old(host.sightings)|..])
      ensures Grew(old(steps), steps)
      ensures Valid() && journal != []
      ensures AllDrained(old(core.actions).at, core.actions.at, old(childProcs), exits)
    {
      hide History, After, Append, RunInv, ApplyAll, Resolves, AllDrained, SeenFor, Drained, Further;
      ActionFacts(su, steps);
      ghost var before := View();
      var events;
      ghost var ops;
      events, ops, exits := ResolveAll();
      CommitDrain(ops, before, events);
    }

    /** The loop over the actions, in dispatch order. */
    method ResolveAll() returns (events: seq<Event>, ghost ops: seq<Op>, ghost exits: map<Id, Exit>)
      requires core.phase in {STOPPING, UNCONFIRMED} && core.actions.Valid()
      requires forall k :: k in core.actions.at ==> core.actions.at[k].actionId == k
      modifies this`childProcs, core`inflight, core`actions, host`sightings
      ensures Further(old(host.sightings), host.sightings)
      ensures SeenFor(old(core.actions).at, old(childProcs), exits, host.sightings[|old(host.sightings)|..])
      ensures (core.View(), events) == ApplyAll(core.cfg, old(core.View()), ops) && Resolves(ops)
      ensures AllDrained(old(core.actions).at, core.actions.at, old(childProcs), exits)
      ensures old(core.actions) == Empty() ==> core.actions == Empty()
    {
      hide ApplyAll, DrainedAs, Draining, Resolves, Apply, Resolved, AllDrained, SeenUpTo, SeenFor;
      ghost var c0 := core.View();
      var order := core.actions.order;
      ghost var seen: seq<Sighting> := [];
      events, ops, exits := [], [], map[];
      DrainStarts(core.cfg, c0, childProcs);
      SeenStarts(c0.actions, childProcs);
      for i := 0 to |order|
        invariant Draining(core.cfg, c0, old(childProcs), core.View(), childProcs, ops, events, exits, i)
        invariant host.sightings == old(host.sightings) + seen
        invariant SeenUpTo(c0.actions, old(childProcs), exits, seen, i)
      {
        var id := order[i];
        DrainAt(core.cfg, c0, old(childProcs), core.View(), childProcs, ops, events, exits, i);
        ghost var c, children := core.View(), childProcs;
        if core.actions.at[id].state == DISPATCHED {
          ghost var op, exit;
          var out;
          out, op, exit := DrainOne(id);
          DrainStep(core.cfg, c0, old(childProcs), c, children, core.View(), childProcs, ops, events, exits, i, op,
            out, exit);
          SeenMore(c0.actions, old(childProcs), exits, seen, i, exit);
          seen := seen + (if id in old(childProcs) then [Sighting(id, exit)] else []);
          events := events + out.events;
          ops := ops + [op];
          exits := if exit.Some? then exits[id := exit.value] else exits;
        } else {
          DrainSkip(core.cfg, c0, old(childProcs), c, children, ops, events, exits, i);
          SeenSame(c0.actions, old(childProcs), exits, seen, i);
        }
      }
      DrainEnds(core.cfg, c0, old(childProcs), core.View(), childProcs, ops, events, exits);
      SeenAll(c0.actions, old(childProcs), exits, seen);
      assert host.sightings[|old(host.sightings)|..] == seen;
    }

    /** The merged commit of the drain; without a dispatched action there is nothing to commit. */
    method CommitDrain(ghost ops: seq<Op>, ghost before: Supervisor.Run, events: seq<Event>)
      requires core.cfg == su.cfg && clock <= host.now && Contained() && journal != []
      requires History(su, steps) && After(su, steps) == before && View() == before.(core := core.View())
      requires (core.View(), events) == ApplyAll(su.cfg, before.core, ops) && Resolves(ops)
      modifies this`journal, this`clock, this`steps, core`stopLatchedUs, host`now
      ensures old(host.now) <= host.now
      ensures Grew(old(steps), steps)
      ensures Valid() && journal != []
    {
      hide History, After, ApplyAll, Append, Latches, Ordered, Legal, NextRun, RunInv, Stamped, Resolves;
      Reachable(su, steps);
      ghost var stamps := CommitEvents(events);
      DrainIsLegal(su, before, ops, stamps, clock);
      Extend(su, steps, Move.Drain(ops, stamps, clock));
      steps := steps + [Move.Drain(ops, stamps, clock)];
    }

    /** `_check_empty`: true once the control group is seen unpopulated and the drain is done. */
    method CheckEmpty() returns (empty: bool, ghost exits: map<Id, Exit>)
      requires Valid() && journal != [] && core.phase in {STOPPING, UNCONFIRMED}
      modifies this`journal, this`clock, this`steps, this`childProcs, core`inflight, core`actions,
               core`stopLatchedUs, host`now, host`sightings, host`checks
      ensures old(host.now) <= host.now
      ensures Grew(old(steps), steps)
      ensures Valid() && journal != []
      ensures empty ==> AllDrained(old(core.actions).at, core.actions.at, old(childProcs), exits)
      ensures Further(old(host.sightings), host.sightings)
      ensures empty && hasCgroup ==>
                SeenFor(old(core.actions).at, old(childProcs), exits, host.sightings[|old(host.sightings)|..])
      ensures !empty ==> core.actions == old(core.actions)
      ensures host.checks == old(host.checks) + (if hasCgroup then [empty] else [])
      ensures !hasCgroup ==> empty
    {
      hide History, After, Append, RunInv;
      exits := map[];
      if !hasCgroup {
        return true, exits;
      }
      var unpopulated := host.Unpopulated();
      if !unpopulated {
        return false, exits;
      }
      hide AllDrained;
      exits := Drain();
      empty := true;
    }

    /** The final sample of a drained run; a fault is only recorded. */
    method FinalSample() returns (sample: Option<Sample>, ghost inp: SampleInput)
      requires Valid() && journal != [] && su.rapl && core.phase in {STOPPING, UNCONFIRMED}
      modifies this`journal, this`clock, this`steps, this`prevReadings, this`energyUj, core, host`now
      ensures old(host.now) <= host.now
      ensures |inp.shown| == |su.domains| && sample == TakeFinal(su.domains, su.staleUs, old(MeterView()), inp).1
      ensures ReadLast(old(steps), steps, inp)
      ensures Valid() && journal != [] && core.phase == old(core.phase) && core.actions == old(core.actions)
      ensures core.stopReason == old(core.stopReason) && core.killIssuedAtUs == old(core.killIssuedAtUs)
    {
      hide History, After, Append, RunInv, TakeFinal, ApplyAll;
      UnstoppedIffLive(su, steps);
      ghost var before := View();
      var shown := host.ReadCounters(|su.domains|);
      var cpu := host.CpuUsage();
      var now := host.Boottime();
      var taken := SampleInput(now, shown, cpu);
      inp := taken;
      sample := UpdateFinal(taken);
      FinalOpsApplied(su, before, inp);
      hide FinalOps;
      var events: seq<Event> := [];
      if sample.None? {
        var out := core.InfrastructureFault(SENSOR_FAULT);
        events := out.events;
      }
      CommitFinal(inp, before, events);
    }

    /** The final reading is complete: nothing to commit unless a fault was observed. */
    method CommitFinal(ghost inp: SampleInput, ghost before: Supervisor.Run, events: seq<Event>)
      requires core.cfg == su.cfg && clock <= host.now && Contained()
      requires History(su, steps) && After(su, steps) == before
      requires su.rapl && |inp.shown| == |su.domains| && before.core.phase in {STOPPING, UNCONFIRMED}
               && before.journal != []
      requires View() == before.(core := core.View(), meter := TakeFinal(su.domains, su.staleUs, before.meter, inp).0)
      requires (core.View(), events) == ApplyAll(su.cfg, before.core, FinalOps(su, before, inp))
      requires core.View().stopLatchedUs == before.core.stopLatchedUs && !Latches(events)
      modifies this`journal, this`clock, this`steps, core`stopLatchedUs, host`now
      ensures old(host.now) <= host.now
      ensures ReadLast(old(steps), steps, inp)
      ensures Valid() && journal != []
    {
      hide History, After, TakeFinal, ApplyAll, Latches, Stamped, Legal, NextRun, AllEnabled, FinalOps, Append,
           RunInv, Ordered;
      Reachable(su, steps);
      ghost var stamps := CommitEvents(events);
      FinalIsLegal(su, before, inp, stamps, clock);
      Extend(su, steps, FinalReading(inp, stamps, clock));
      steps := steps + [FinalReading(inp, stamps, clock)];
    }

    /** `_finalize`: a FINALIZING run always reaches the terminal phase its stop reason decides. */
    method FinalizeNow()
      requires Valid() && journal != [] && core.phase == FINALIZING
      modifies this`journal, this`clock, this`steps, core`phase, core`stopLatchedUs, host`now
      ensures old(host.now) <= host.now
      ensures Took(old(steps), steps, End)
      ensures Valid() && journal != [] && core.stopReason.Some? && EndsAs(core.stopReason.value, core.phase)
    {
      hide History, After, Append, RunInv, FinalPhase;
      FinalizeSucceeds(su, steps);
      ghost var before := View();
      var out := core.FinalizeRun();
      CommitOp(End, before, out);
    }

    /** `_stop_progress`, where a stopping run always has a latch time: while the control group is populated,
        only the kill deadline can pass; once it is empty the run is drained, sampled a last time and
        finalised, all in this step. */
    method StopProgress(now: Time) returns (sawEmpty: bool)
      requires Valid() && journal != [] && core.phase in {STOPPING, UNCONFIRMED}
      modifies this`journal, this`clock, this`steps, this`childProcs, this`prevReadings, this`energyUj, core,
               host`now, host`sightings, host`checks
      ensures old(host.now) <= host.now
      ensures Further(old(host.sightings), host.sightings)
      ensures core.stopReason == old(core.stopReason) && (old(Struck()) ==> Struck())
      ensures Grew(old(steps), steps)
      ensures Valid() && journal != []
      ensures sawEmpty ==>
                core.stopReason.Some? && EndsAs(core.stopReason.value, core.phase) && Drained(core.actions.at)
      ensures !sawEmpty ==> core.phase in {STOPPING, UNCONFIRMED} && core.actions == old(core.actions)
      ensures old(core.stopLatchedUs).Some?
      ensures !sawEmpty ==>
                core.phase == (if now - old(core.stopLatchedUs).value >= su.killUs then UNCONFIRMED
                               else old(core.phase))
      ensures host.checks == old(host.checks) + (if hasCgroup then [sawEmpty] else [])
      ensures !hasCgroup ==> sawEmpty
    {
      hide History, After, Append, RunInv, FinalPhase, Grew, Took, AllDrained, Valid;
      StopKnown();
      var latched := core.stopLatchedUs.value;
      ghost var exits;
      sawEmpty, exits := CheckEmpty();
      ghost var checked := steps;
      if sawEmpty {
        AllAreDrained(old(core.actions).at, core.actions.at, old(childProcs), exits);
        EmptyNow();
      } else {
        CheckDeadline(now - latched);
      }
      GrewOn(old(steps), checked, steps);
    }

    /** A stop that has not emptied the control group by the kill deadline is unconfirmed. */
    method CheckDeadline(elapsed: int)
      requires Valid() && journal != [] && core.phase in {STOPPING, UNCONFIRMED}
      modifies this`journal, this`clock, this`steps, core`phase, core`stopLatchedUs, host`now
      ensures old(host.now) <= host.now
      ensures Grew(old(steps), steps) && Valid() && journal != []
      ensures core.phase == (if elapsed >= su.killUs then UNCONFIRMED else old(core.phase))
    {
      hide History, After, Append, RunInv, Grew, Took, Valid;
      GrewRefl(steps);
      if core.phase == STOPPING && elapsed >= su.killUs {
        KillOverdue(elapsed);
        TookGrew(old(steps), steps, Unconfirm(elapsed));
      }
    }

    method KillOverdue(elapsed: int)
      requires Valid() && journal != [] && core.phase == STOPPING
      modifies this`journal, this`clock, this`steps, core`phase, core`stopLatchedUs, host`now
      ensures old(host.now) <= host.now
      ensures Took(old(steps), steps, Unconfirm(elapsed))
      ensures Valid() && journal != [] && core.phase == UNCONFIRMED
    {
      hide History, After, Append, RunInv;
      ghost var before := View();
      var out := core.KillUnconfirmedAfter(elapsed);
      CommitOp(Unconfirm(elapsed), before, out);
    }

    /** Containment is confirmed empty after the drain. */
    method EmptyNow()
      requires Valid() && journal != [] && core.phase in {STOPPING, UNCONFIRMED} && Drained(core.actions.at)
      modifies this`journal, this`clock, this`steps, this`prevReadings, this`energyUj, core, host`now
      ensures old(host.now) <= host.now
      ensures core.stopReason == old(core.stopReason)
      ensures Grew(old(steps), steps)
      ensures Valid() && journal != []
      ensures core.stopReason.Some? && EndsAs(core.stopReason.value, core.phase) && Drained(core.actions.at)
    {
      hide History, After, Append, RunInv, FinalPhase, Grew, Took, ReadLast, TakeFinal, Valid;
      GrewRefl(steps);
      var sample := None;
      if su.rapl && energyValid {
        ghost var inp;
        sample, inp := FinalSample();
        ReadLastGrew(old(steps), steps, inp);
      }
      ghost var sampled, exit := steps, core.rootExit;
      ConfirmEmpty(sample);
      ghost var confirmed := steps;
      FinalizeNow();
      TookGrew(sampled, confirmed, Emptied(sample, exit));
      TookGrew(confirmed, steps, End);
      GrewOn(old(steps), sampled, confirmed);
      GrewOn(old(steps), confirmed, steps);
    }

    /** ContainmentEmpty, with the final sample if there is one. */
    method ConfirmEmpty(sample: Option<Sample>)
      requires Valid() && journal != [] && core.phase in {STOPPING, UNCONFIRMED} && Drained(core.actions.at)
      modifies this`journal, this`clock, this`steps, core`phase, core`rootExit, core`stopLatchedUs, host`now
      ensures old(host.now) <= host.now
      ensures Took(old(steps), steps, Emptied(sample, old(core.rootExit)))
      ensures Valid() && journal != [] && core.phase == FINALIZING
    {
      hide History, After, Append, RunInv;
      ghost var before := View();
      var exit := core.rootExit;
      var out := core.ContainmentEmptied(sample, exit);
      CommitOp(Emptied(sample, exit), before, out);
    }

    /** `now_us` */
    method NowUs() returns (t: Time)
      requires Valid()
      modifies host`now
      ensures old(host.now) <= t == host.now && Valid()
    {
      hide History, After, RunInv;
      t := host.Boottime();
    }

    /** One look at a process. */
    method ProcExited(process: Id) returns (exit: Option<Exit>)
      requires Valid()
      modifies host`sightings
      ensures Valid() && host.sightings == old(host.sightings) + [Sighting(process, exit)]
    {
      hide History, After, RunInv;
      exit := host.ExitObserved(process);
    }

    /** `tick`: root exit and wall deadline, then sampling, children, the token sweep while running, and
        stop progress while stopping. A tick that sees an empty control group ends the run. */
    method Tick() returns (sawEmpty: bool, ghost now: Time, ghost exit: Option<Exit>)
      requires Valid() && journal != []
      modifies this`journal, this`clock, this`steps, this`childProcs, this`prevReadings, this`energyUj,
               this`energyValid, this`sampleIndex, this`lastCpuUs, this`unchangedSinceUs, this`unchangedCpuAtUs, core,
               host`now, host`sightings, host`checks
      ensures old(host.now) <= host.now
      ensures Grew(old(steps), steps) && Valid() && journal != []
      ensures old(host.now) <= now <= host.now
      ensures Further(old(host.sightings), host.sightings)
      ensures su.rapl && old(core.phase) in {RUNNING, STOPPING, UNCONFIRMED} ==> SampledSince(|old(steps)|, steps)
      ensures core.phase == RUNNING ==> exists was :: Took(was, steps, Expire(now))
      ensures old(core.phase) == RUNNING && hasRoot ==>
                |old(host.sightings)| < |host.sightings|
                && host.sightings[|old(host.sightings)|] == Sighting("root", exit)
      ensures exit.Some? ==> hasRoot
      ensures var due := startedUs.Some? && now - startedUs.value >= su.cfg.budgets.maxWallUs;
              old(core.phase) == RUNNING ==>
                && (core.stopReason == Some(ROOT_EXIT) <==> exit.Some?)
                && (core.stopReason == Some(WALL_CAP) <==> exit.None? && due)
                && (core.stopReason.Some? && exit.None? && !due ==>
                      su.rapl && core.stopReason.value in {SENSOR_FAULT, ENERGY_GUARD, MEASUREMENT_OVERRUN})
                && (core.stopReason.None? <==> core.phase == RUNNING)
      ensures old(core.phase) != RUNNING ==> core.stopReason == old(core.stopReason)
      ensures !sawEmpty && old(core.phase) in {STOPPING, UNCONFIRMED} ==>
                old(core.stopLatchedUs).Some?
                && core.phase == (if now - old(core.stopLatchedUs).value >= su.killUs then UNCONFIRMED
                                  else old(core.phase))
      ensures old(core.phase) in {STOPPING, UNCONFIRMED} ==>
                host.checks == old(host.checks) + (if hasCgroup then [sawEmpty] else [])
                && (!hasCgroup ==> sawEmpty)
      ensures sawEmpty ==>
                core.stopReason.Some? && EndsAs(core.stopReason.value, core.phase) && Drained(core.actions.at)
      ensures !sawEmpty && old(core.phase) in {RUNNING, STOPPING, UNCONFIRMED} ==>
                core.phase in {RUNNING, STOPPING, UNCONFIRMED}
      ensures old(core.phase) !in {RUNNING, STOPPING, UNCONFIRMED} ==> core.phase == old(core.phase) && !sawEmpty
      ensures old(Struck()) ==> Struck()
    {
      hide History, After, Append, RunInv, Grew, Took, SampledFirst, SampledSince, Drained, EndsAs, RootLeft,
           TookAndKilled, Valid, Struck;
      sawEmpty, exit, now := false, None, host.now;
      GrewRefl(steps);
      StopKnown();
      LatchStands();
      if core.phase !in {RUNNING, STOPPING, UNCONFIRMED} {
        return;
      }
      var t := NowUs();
      now := t;
      exit := StopIfDue(t);
      ghost var due, inp := steps, SampleInput(0, [], None);
      if su.rapl {
        inp := SampleNow(t);
      } else {
        GrewRefl(steps);
      }
      ghost var sampled := steps;
      if su.rapl {
        SampledOn(due, sampled, sampled, inp) by { GrewRefl(sampled); }
      }
      GrewOn(old(steps), due, sampled);
      if old(core.stopReason).Some? {
        LatchHeld(old(steps));
      }
      sawEmpty := Progress(t);
      if su.rapl {
        SampledLater(old(steps), due, sampled, steps, inp);
      } else {
        GrewOn(old(steps), due, steps);
      }
      StopKnown();
    }

    /** The rest of a tick: children, then the token sweep or stop progress. */
    method Progress(now: Time) returns (sawEmpty: bool)
      requires Valid() && journal != [] && core.phase in {RUNNING, STOPPING, UNCONFIRMED}
      modifies this`journal, this`clock, this`steps, this`childProcs, this`prevReadings, this`energyUj, core,
               host`now, host`sightings, host`checks
      ensures old(host.now) <= host.now
      ensures Further(old(host.sightings), host.sightings)
      ensures core.stopReason == old(core.stopReason) && (old(Struck()) ==> Struck())
      ensures Grew(old(steps), steps) && Valid() && journal != []
      ensures old(core.phase) == RUNNING ==> core.phase == RUNNING && exists was :: Took(was, steps, Expire(now))
      ensures !sawEmpty && old(core.phase) != RUNNING ==>
                old(core.stopLatchedUs).Some?
                && core.phase == (if now - old(core.stopLatchedUs).value >= su.killUs then UNCONFIRMED
                                  else old(core.phase))
      ensures host.checks
           == old(host.checks) + (if old(core.phase) != RUNNING && hasCgroup then [sawEmpty] else [])
      ensures old(core.phase) != RUNNING && !hasCgroup ==> sawEmpty
      ensures sawEmpty ==>
                core.stopReason.Some? && EndsAs(core.stopReason.value, core.phase) && Drained(core.actions.at)
      ensures !sawEmpty ==>
                core.phase in {RUNNING, STOPPING, UNCONFIRMED} && (core.phase == RUNNING ==> old(core.phase) == RUNNING)
    {
      hide History, After, Append, RunInv, Grew, Took, Drained, Valid;
      LatchStands();
      StopKnown();
      ObserveChildren();
      ghost var observed := steps;
      if old(core.stopReason).Some? {
        LatchHeld(old(steps));
      }
      sawEmpty := false;
      if core.phase == RUNNING {
        SweepTokens(now);
        TookGrew(observed, steps, Expire(now));
      } else {
        sawEmpty := StopProgress(now);
      }
      GrewOn(old(steps), observed, steps);
    }

    /** A root exit stops a running run, and so does the wall deadline: `exit` is what the host showed of the root
        process. A run that is not due, or not running, is left as it is. */
    method StopIfDue(now: Time) returns (ghost exit: Option<Exit>)
      requires Valid() && journal != [] && core.phase in {RUNNING, STOPPING, UNCONFIRMED}
      modifies this`journal, this`clock, this`steps, core, host`now, host`sightings
      ensures old(host.now) <= host.now
      ensures Grew(old(steps), steps) && Valid() && journal != []
      ensures host.sightings == old(host.sightings)
                + (if old(core.phase) == RUNNING && hasRoot then [Sighting("root", exit)] else [])
      ensures exit.Some? ==> old(core.phase) == RUNNING && hasRoot
      ensures exit.Some? ==> RootLeft(old(steps), steps, exit.value)
      ensures var due := startedUs.Some? && now - startedUs.value >= su.cfg.budgets.maxWallUs;
              old(core.phase) == RUNNING && exit.None? && due ==>
                TookAndKilled(old(steps), steps, Halt(WALL_CAP), true)
      ensures var due := startedUs.Some? && now - startedUs.value >= su.cfg.budgets.maxWallUs;
              && core.stopReason == (if old(core.phase) != RUNNING then old(core.stopReason)
                                     else if exit.Some? then Some(ROOT_EXIT)
                                     else if due then Some(WALL_CAP)
                                     else None)
              && core.phase == (if old(core.phase) == RUNNING && (exit.Some? || due) then STOPPING else old(core.phase))
              && (old(core.phase) != RUNNING || (exit.None? && !due) ==>
                    steps == old(steps) && core.View() == old(core.View()))
      ensures old(Struck()) ==> Struck()
    {
      hide History, After, Append, RunInv, Grew, Took, TookAndKilled, RootLeft, Valid;
      GrewRefl(steps);
      StopKnown();
      exit := None;
      if core.phase == RUNNING && hasRoot && core.stopReason == None {
        var seen := ProcExited("root");
        exit := seen;
        if seen.Some? {
          LatchRootExit(seen.value);
        }
      }
      if core.phase == RUNNING && startedUs.Some? {
        if now - startedUs.value >= su.cfg.budgets.maxWallUs {
          LatchStop(WALL_CAP);
          TookGrew(old(steps), steps, Halt(WALL_CAP));
        }
      }
    }

    method SweepTokens(now: Time)
      requires Valid() && journal != [] && core.phase == RUNNING
      modifies this`journal, this`clock, this`steps, core`tokens, core`stopLatchedUs, host`now
      ensures old(host.now) <= host.now
      ensures Took(old(steps), steps, Expire(now))
      ensures Valid() && journal != []
    {
      hide History, After, Append, RunInv;
      UnstoppedIffLive(su, steps);
      ghost var before := View();
      var out := core.ExpireDue(now);
      CommitOp(Expire(now), before, out);
    }

    // ---- requests ----

    /** `_dispatch`: what a request does to the ledger, and the reply it gets if it is committed. */
    method Dispatch(q: Request, channel: Id, req: Id) returns (reply: Reply, events: seq<Event>, ghost inputs: Inputs)
      requires core.cfg == su.cfg
      modifies core, host`now
      ensures old(host.now) <= host.now
      ensures reply == ReplyTo(su, old(core.View()), q, channel, req, inputs)
      ensures var c := old(core.View());
              DispatchedAs(su, c, RequestOp(su, c, q, channel, req, inputs), core.View(), events)
    {
      hide TokenSigned, PolicyAllows, ChargeOf, ObservedCharge;
      inputs := Inputs(0, None);
      if core.phase in {REJECTED, COMPLETED, KILLED, FAILED, FINALIZING} {
        events := [];
        if Calls(q, RUN_GET) {
          reply := Reply(Some(StatusView(core.phase, core.charged, core.spawnIssued, core.stopReason)), None);
        } else if Calls(q, RUN_STOP) {
          reply := Reply(Some(StopView(core.phase, core.stopReason)), None);
        } else if Calls(q, EVENTS_READ) {
          reply := Reply(None, Some(q.code));
        } else {
          reply := Reply(None, Some(STOPPED));
        }
        return;
      }
      if q.RunGet? && q.runId == su.cfg.runId {
        return Reply(Some(StatusView(core.phase, core.charged, core.spawnIssued, core.stopReason)), None), [], inputs;
      }
      var out;
      if q.IssueReq? || q.DispatchReq? || q.ReserveReq? {
        out, inputs := DispatchWork(q, channel, req);
      } else {
        out := DispatchOther(q, channel, req);
      }
      events := out.events;
      reply := Reply(Signed(su, out.result), out.error);
    }

    /** Requests that need a fresh identifier and the clock. */
    method DispatchWork(q: Request, channel: Id, req: Id) returns (out: Outcome, ghost inputs: Inputs)
      requires core.cfg == su.cfg && (q.IssueReq? || q.DispatchReq? || q.ReserveReq?)
      requires core.phase !in {REJECTED, COMPLETED, KILLED, FAILED, FINALIZING}
      modifies core, host`now
      ensures old(host.now) <= host.now
      ensures var c, op := old(core.View()), RequestOp(su, old(core.View()), q, channel, req, inputs);
              op.Some? && Enabled(c, op.value) && core.View() == Apply(su.cfg, c, op.value).core
                && out == Apply(su.cfg, c, op.value).out
    {
      hide TokenSigned, PolicyAllows, ChargeOf, IssueToken, DispatchAction, ReserveCompute;
      inputs := Inputs(0, None);
      if q.DispatchReq? {
        var body := q.token.body;
        if body.runId != su.cfg.runId {
          out := core.Refusal(req, TOKEN_BINDING);
          return;
        }
        if body.keyId != su.cfg.keyId || !TokenSigned(su, q.token) {
          out := core.Refusal(req, TOKEN_INVALID);
          return;
        }
      }
      if q.ReserveReq? && !E.WorkDims(q.work.inputTokens, q.work.maxOutputTokens, q.work.batch) {
        out := core.Refusal(req, INVALID_INPUT);
        return;
      }
      var taken := if q.IssueReq? then core.tokens.at.Keys
                   else if q.DispatchReq? then core.actions.at.Keys
                   else core.computes.at.Keys;
      var id := host.FreshId(taken);
      var now := host.Boottime();
      inputs := Inputs(now, id);
      if id.None? {
        out := core.Refusal(req, BUSY);
      } else if q.IssueReq? {
        out := core.TokenIssue(channel, q.action, now, id.value, req);
      } else if q.DispatchReq? {
        out := core.DispatchToken(channel, q.token.body, q.action, now, id.value, req);
      } else {
        out := core.ComputeReserve(channel, q.work, id.value, req);
      }
    }

    method DispatchOther(q: Request, channel: Id, req: Id) returns (out: Outcome)
      requires core.cfg == su.cfg && !(q.IssueReq? || q.DispatchReq? || q.ReserveReq?)
      requires core.phase !in {REJECTED, COMPLETED, KILLED, FAILED, FINALIZING}
      requires !(q.RunGet? && q.runId == su.cfg.runId)
      modifies core
      ensures forall inputs :: var c, op := old(core.View()), RequestOp(su, old(core.View()), q, channel, req, inputs);
                op.Some? && Enabled(c, op.value) && core.View() == Apply(su.cfg, c, op.value).core
                  && out == Apply(su.cfg, c, op.value).out
    {
      hide FinishCompute, Stop;
      if q.RunStop? && q.runId == su.cfg.runId {
        out := core.StopRun(OPERATOR);
      } else if q.ActionGet? {
        out := core.ShowAction(channel, q.actionId, req);
      } else if q.FinishReq? {
        out := core.ComputeFinish(channel, q.computeId, q.observed, req);
      } else if q.Malformed? {
        out := core.Refusal(req, q.code);
      } else {
        out := core.Refusal(req, NOT_FOUND);
      }
    }

    /** The surface, the stored reply, or a new answer that is committed unless it is BUSY. A commit fails,
        and with it the model ends, when a reservation takes the charge beyond the largest quantity. */
    method Serve(key: Key, q: Request, channel: Option<Id>)
      returns (reply: Reply, latched: bool, ghost inputs: Inputs, failed: bool)
      requires Valid() && journal != [] && execAfterCommit == None
      modifies this`journal, this`clock, this`steps, this`requests, this`execAfterCommit, core, host`now
      ensures old(host.now) <= host.now
      ensures reply == Answer(su, old(View()), key, q, channel, inputs)
      ensures failed ==> q.ReserveReq? && core.charged > U_MAX
      ensures !failed ==> Valid() && journal != []
      ensures !failed ==> |steps| == |old(steps)| + 1 && steps[..|old(steps)|] == old(steps)
      ensures !failed ==> var st := steps[|old(steps)|];
                st.Serve? && st.key == key && st.request == q && st.channel == channel && st.inputs == inputs
      ensures !failed && !latched && old(Struck()) ==> Struck()
    {
      hide History, After, Append, RunInv, RequestOp, ReplyTo, ReadReply, DispatchedAs;
      ghost var before := View();
      failed, latched, inputs := false, false, Inputs(0, None);
      if !SurfaceAllows(q, channel) {
        NoteUnserved(key, q, channel, inputs);
        return Reply(None, Some(UNAUTHORIZED)), false, inputs, false;
      }
      if key in requests {
        NoteUnserved(key, q, channel, inputs);
        var stored := requests[key];
        reply := if stored.digest == su.digest(q) then stored.reply else Reply(None, Some(CONFLICT));
        return;
      }
      reply, latched, inputs, failed := ServeNew(key, q, channel);
    }

    /** A request that is not committed changes nothing. */
    ghost method NoteUnserved(key: Key, q: Request, channel: Option<Id>, inputs: Inputs)
      requires Valid() && journal != [] && execAfterCommit == None && !Commits(su, View(), key, q, channel, inputs)
      modifies this`steps
      ensures Valid() && steps == old(steps) + [Move.Serve(key, q, channel, inputs, [], clock)]
    {
      hide History, After, Append, RunInv, Commits, Legal, NextRun;
      Reachable(su, steps);
      var st := Move.Serve(key, q, channel, inputs, [], clock);
      UnservedIsLegal(su, View(), st);
      UncommittedChangesNothing(su, View(), st);
      Extend(su, steps, st);
      steps := steps + [st];
    }

    method ServeNew(key: Key, q: Request, channel: Option<Id>)
      returns (reply: Reply, latched: bool, ghost inputs: Inputs, failed: bool)
      requires Valid() && journal != [] && execAfterCommit == None && SurfaceAllows(q, channel) && key !in requests
      modifies this`journal, this`clock, this`steps, this`requests, this`execAfterCommit, core, host`now
      ensures old(host.now) <= host.now
      ensures reply == Answer(su, old(View()), key, q, channel, inputs)
      ensures failed ==> q.ReserveReq? && core.charged > U_MAX
      ensures !failed ==> Valid() && journal != []
      ensures !failed ==> |steps| == |old(steps)| + 1 && steps[..|old(steps)|] == old(steps)
      ensures !failed ==> var st := steps[|old(steps)|];
                st.Serve? && st.key == key && st.request == q && st.channel == channel && st.inputs == inputs
      ensures !failed && !latched && old(Struck()) ==> Struck()
    {
      hide History, After, Append, RunInv, RequestOp, ReplyTo, ReadReply, DispatchedAs, Latches;
      ghost var before := View();
      Reachable(su, steps);
      var raises, events := Raises(core.phase, q), [];
      reply, events, inputs := Dispatch(q, ChannelOf(channel), key.id);
      ServedFacts(su, before, key, q, channel, inputs, core.View(), events);
      ContainedServed(su, before, q, ChannelOf(channel), key.id, inputs, core.View(), events);
      latched, failed := false, false;
      if reply.error == Some(BUSY) || raises {
        NoteUnserved(key, q, channel, inputs);
      } else if core.charged > U_MAX {
        failed := true;
      } else {
        ghost var stamps;
        latched, stamps := CommitServe(key, q, channel, inputs, reply, events, before);
      }
    }

    /** The committed request: its events, its stored reply, and the effect it asks to be released. */
    method CommitServe(key: Key, q: Request, channel: Option<Id>, ghost inputs: Inputs, reply: Reply,
            events: seq<Event>, ghost before: Supervisor.Run)
      returns (latched: bool, ghost stamps: seq<Stamp>)
      requires core.cfg == su.cfg && clock <= host.now && Contained()
      requires History(su, steps) && After(su, steps) == before && View() == before.(core := core.View())
      requires Answered(su, before, key, q, channel, inputs, core.View(), events, reply) && execAfterCommit == None
      requires core.stopLatchedUs == before.core.stopLatchedUs
      modifies this`journal, this`clock, this`steps, this`requests, this`execAfterCommit, core`stopLatchedUs, host`now
      ensures old(host.now) <= host.now
      ensures Valid() && journal != [] && latched == Latches(events)
      ensures steps == old(steps) + [Move.Serve(key, q, channel, inputs, stamps, clock)]
    {
      hide History, After, Append, Latches, Legal, NextRun, Stamped, Ordered, Answered;
      latched := HasLatch(events);
      ghost var c := core.View();
      stamps := CommitEvents(events);
      requests := requests[key := Stored(su.digest(q), reply)];
      if reply.result.Some? && reply.result.value.Dispatched? {
        execAfterCommit := Some(reply.result.value.actionId);
      }
      NoteServed(Move.Serve(key, q, channel, inputs, stamps, clock), before, c, events, reply);
    }

    /** The request's events are in the journal and its reply is stored: the step is complete. */
    ghost method NoteServed(st: Move, before: Supervisor.Run, c: Core, events: seq<Event>, reply: Reply)
      requires core.cfg == su.cfg && clock <= host.now && Contained()
      requires History(su, steps) && After(su, steps) == before
      requires st.Serve? && Answered(su, before, st.key, st.request, st.channel, st.inputs, c, events, reply)
      requires |st.stamps| == |events| && Stamped(before.journal, before.clock, st.stamps, st.at)
      requires View() == ServedRun(su, before, st, c, events, reply)
      modifies this`steps
      ensures Valid() && journal != [] && steps == old(steps) + [st]
    {
      hide History, After, RunInv, Legal, NextRun, Stamped, Answered, ServedRun;
      Reachable(su, steps);
      ServedIsLegal(su, before, st, c, events, reply);
      Extend(su, steps, st);
      steps := steps + [st];
      Reachable(su, steps);
    }

    /** `handle`: the answer, then the kill a committed stop demands, then the one attempt at a committed
        effect. */
    method Handle(key: Key, q: Request, channel: Option<Id>) returns (reply: Reply, ghost inputs: Inputs, failed: bool)
      requires Valid() && journal != [] && execAfterCommit == None
      modifies this`journal, this`clock, this`steps, this`requests, this`execAfterCommit, this`childProcs,
               this`released, core, host`now
      ensures old(host.now) <= host.now
      ensures reply == Answer(su, old(View()), key, q, channel, inputs)
      ensures failed ==> q.ReserveReq? && core.charged > U_MAX
      ensures !failed ==> Valid() && journal != [] && execAfterCommit == None
      ensures !failed && old(Struck()) ==> Struck()
    {
      hide History, After, Append, RunInv, Answer, Valid;
      var latched;
      reply, latched, inputs, failed := Serve(key, q, channel);
      if failed {
        return;
      }
      if latched {
        IssueKill();
      }
      if execAfterCommit.Some? {
        Execute(q.DispatchReq? && q.action.HttpGet?);
      }
    }

    /** `_execute_action`: the one allowed attempt. A child that cannot be started fails its action; one that
        is started is resolved later; a fetch is resolved at once. */
    method Execute(fetch: bool)
      requires Valid() && journal != [] && execAfterCommit.Some?
      modifies this`journal, this`clock, this`steps, this`execAfterCommit, this`childProcs, this`released,
               core`inflight, core`actions, core`stopLatchedUs, host`now
      ensures old(host.now) <= host.now
      ensures Grew(old(steps), steps)
      ensures Valid() && journal != [] && execAfterCommit == None
      ensures released == old(released) + [old(execAfterCommit).value]
      ensures core.phase in {RUNNING, STOPPING, UNCONFIRMED} ==>
                var id := old(execAfterCommit).value;
                Settled(core.actions.at, id) || (!fetch && id in childProcs && core.actions == old(core.actions))
    {
      hide History, After, Append, RunInv, FinishAction, Took, Grew;
      var id := execAfterCommit.value;
      ReleaseEffect();
      ghost var handed := steps;
      ReleasedGrew(old(steps), clock);
      var spawned := false;
      if !fetch {
        spawned := host.Holds();
      }
      if spawned {
        childProcs := Without(childProcs, id) + [id];
      } else {
        var result := None;
        if fetch {
          result := host.Fetch();
        }
        var error := if result.Some? then None else Some(ACTION_FAILED);
        SettlesAlways(core.View(), id, result, error, None);
        ResolveAction(id, result, error, None);
        TookGrew(handed, steps, Finish(id, result, error, None));
        GrewOn(old(steps), handed, steps);
      }
    }

    /** The committed effect leaves the supervisor's hands. */
    method ReleaseEffect()
      requires Valid() && journal != [] && execAfterCommit.Some?
      modifies this`steps, this`execAfterCommit, this`released
      ensures steps == old(steps) + [Release(clock)]
      ensures Valid() && execAfterCommit == None && released == old(released) + [old(execAfterCommit).value]
    {
      hide History, After, Append, RunInv;
      Reachable(su, steps);
      ReleaseIsLegal(su, View(), clock);
      Extend(su, steps, Release(clock));
      released := released + [execAfterCommit.value];
      execAfterCommit := None;
      steps := steps + [Release(clock)];
    }

    // ---- export ----

    /** `bundle`: at any moment of the run's life, what is exported passes the verifier under the run's key. */
    method ExportBundle(expected: Option<Head>) returns (b: Bundle)
      requires Valid()
      ensures b == Bundle(Exported(journal), expected)
      ensures su.cfg.crypto.Sound() && (expected == None || expected == Some(BundleHead(b.entries))) ==>
                Verdict(su.cfg.crypto, b, [Pin(su.cfg.keyId, su.cfg.crypto.publicKey(su.seed))], false).Ok?
    {
      hide History, After, RunInv, Verdict, Exported;
      b := Bundle(Exported(journal), expected);
      if su.cfg.crypto.Sound() && (expected == None || expected == Some(BundleHead(b.entries))) {
        OnePin(su.cfg.keyId, su.cfg.crypto.publicKey(su.seed));
        ExportVerifies(su, steps, [Pin(su.cfg.keyId, su.cfg.crypto.publicKey(su.seed))], expected.Some?, false);
      }
    }
  }

  /** `run_start`: the budget gate before anything is allocated, then creation, arming and the start. */
  method Launch(su: Setup, host: Host, configHash: Hash) returns (r: Option<LiveRun>, started: bool)
    modifies host`now
    ensures r == None <==> su.cfg.budgets.maxEnergyUj.Some? && su.cfg.budgets.maxEnergyUj.value <= su.Reserve()
    ensures r.Some? ==> fresh(r.value) && r.value.su == su && r.value.Valid() && r.value.journal != []
                        && r.value.execAfterCommit == None && r.value.Struck()
    ensures started ==> r.Some? && r.value.core.phase == RUNNING
  {
    hide History, After, RunInv;
    started := false;
    if su.cfg.budgets.maxEnergyUj.Some? {
      var reserve := SumReserve(su.domains, su.staleUs, su.killUs);
      if su.cfg.budgets.maxEnergyUj.value <= reserve {
        return None, false;
      }
    }
    var run := new LiveRun(su, host);
    started := run.Begin(configHash);
    r := Some(run);
  }
}
