/** What holds in every state of every run, whatever the host, the clock and the clients do. */
module Runs {
  import opened Types
  import opened Dicts
  import opened Ledger
  import opened Invariants
  import opened Simulation
  import opened Audit
  import opened Streams
  import opened Supervisor
  import opened Metering
  import Replay

  /** The journal is chained, replayable to exactly the ledger's view, and folds to its counters. */
  ghost predicate Faithful(su: Setup, r: Run) {
    && Chained(su.Signer(), r.journal) && LastTime(r.journal) <= r.clock
    && Accepted(Bodies(r.journal))
    && Replay.Run(Replay.START, Bodies(r.journal)) == Some(Simulation.View(r.core))
    && RefoldAll(BLANK, Replay.Events(Bodies(r.journal))) == Restored(r.core)
    && (r.journal == [] ==> r.core == INITIAL)
  }

  /** The latch and the kill have times, in this order. */
  ghost predicate Timed(r: Run) {
    && (r.core.stopReason.Some? <==> r.core.stopLatchedUs.Some?)
    && (r.core.stopLatchedUs.Some? ==> 0 <= r.core.stopLatchedUs.value <= r.clock)
    && (r.core.killIssuedAtUs.Some? ==>
          r.core.stopLatchedUs.Some? && r.core.stopLatchedUs.value <= r.core.killIssuedAtUs.value <= r.clock)
    && r.core.charged <= U_MAX
  }

  /** Each effect is released at most once, and only after its dispatch was committed. */
  ghost predicate Released(r: Run) {
    && (forall i, j :: 0 <= i < j < |r.released| ==> r.released[i] != r.released[j])
    && (forall a :: a in r.released ==> a in r.core.actions.at)
    && (r.pending.Some? ==> r.pending.value in r.core.actions.at && r.pending.value !in r.released)
  }

  ghost predicate RunInv(su: Setup, r: Run) {
    Inv(su.cfg, r.core) && Faithful(su, r) && Timed(r) && Released(r)
  }

  // ---- lists of operations ----

  lemma {:induction false} ApplyAllKeeps(cfg: Config, c: Core, ops: seq<Op>)
    requires Inv(cfg, c) && AllEnabled(cfg, c, ops) && forall op :: op in ops ==> !op.Create?
    ensures var (c', events) := ApplyAll(cfg, c, ops); Inv(cfg, c') && Mirrors(c, events, c')
  {
    hide Inv, Mirrors, Apply, Enabled;
    if ops == [] {
      MirrorsNone(c, c);
    } else {
      var init, op := ops[..|ops| - 1], ops[|ops| - 1];
      assert op in ops && forall o :: o in init ==> o in ops;
      ApplyAllKeeps(cfg, c, init);
      var c', events := ApplyAll(cfg, c, init).0, ApplyAll(cfg, c, init).1;
      ApplyKeepsInv(cfg, c', op);
      ApplyMirrors(cfg, c', op);
      var s := Apply(cfg, c', op);
      MirrorsAppend(c, events, c', s.out.events, s.core);
    }
  }

  lemma {:induction false} SweepNeverLatches(order: seq<Id>, at: map<Id, TokenRec>, now: int)
    ensures forall i :: 0 <= i < |SweepEvents(order, at, now)| ==> SweepEvents(order, at, now)[i].TokenExpired?
  {
    if order != [] {
      SweepNeverLatches(order[..|order| - 1], at, now);
    }
  }

  /** No operation touches the latch time; only a kill sets its own time; the first stop reason stays. */
  lemma ApplyFrame(cfg: Config, c: Core, op: Op)
    ensures var s := Apply(cfg, c, op);
            && s.core.stopLatchedUs == c.stopLatchedUs
            && (!op.Kill? ==> s.core.killIssuedAtUs == c.killIssuedAtUs)
            && (forall k :: k in c.actions.at ==> k in s.core.actions.at)
            && (c.stopReason.Some? ==> s.core.stopReason == c.stopReason && !Latches(s.out.events))
  {
    if TouchesRecords(op) {
      RecordsFrame(cfg, c, op);
    } else {
      hide IssueToken, DispatchAction, ExpireTokens, FinishAction, GiveUpAction, ReserveCompute, FinishCompute,
           FinalPhase, AuditOf;
    }
  }

  lemma RecordsFrame(cfg: Config, c: Core, op: Op)
    requires TouchesRecords(op)
    ensures var s := Apply(cfg, c, op);
            && s.core.stopLatchedUs == c.stopLatchedUs && s.core.killIssuedAtUs == c.killIssuedAtUs
            && (forall k :: k in c.actions.at ==> k in s.core.actions.at)
            && (c.stopReason.Some? ==> s.core.stopReason == c.stopReason && !Latches(s.out.events))
  {
    hide PolicyAllows, ChargeOf, ObservedCharge, SweepEvents, AuditOf, FinishedRec, Stop, Fault;
    if op.Expire? {
      SweepNeverLatches(c.tokens.order, c.tokens.at, op.now);
    }
  }

  lemma {:induction false} ApplyAllFrame(cfg: Config, c: Core, ops: seq<Op>)
    ensures var (c', events) := ApplyAll(cfg, c, ops);
            && c'.stopLatchedUs == c.stopLatchedUs
            && ((forall op :: op in ops ==> !op.Kill?) ==> c'.killIssuedAtUs == c.killIssuedAtUs)
            && (forall k :: k in c.actions.at ==> k in c'.actions.at)
            && (c.stopReason.Some? ==> c'.stopReason == c.stopReason && !Latches(events))
  {
    hide Apply;
    if ops != [] {
      var init, op := ops[..|ops| - 1], ops[|ops| - 1];
      assert op in ops && forall o :: o in init ==> o in ops;
      ApplyAllFrame(cfg, c, init);
      ApplyFrame(cfg, ApplyAll(cfg, c, init).0, op);
    }
  }

  lemma LatchesLast(events: seq<Event>)
    requires events != []
    ensures var n := |events| - 1; Latches(events) <==> Latches(events[..n]) || events[n].StopLatched?
  {
    var n := |events| - 1;
    if Latches(events) {
      var i :| 0 <= i < |events| && events[i].StopLatched?;
      if i < n { assert events[..n][i].StopLatched?; }
    }
    if Latches(events[..n]) {
      var i :| 0 <= i < n && events[..n][i].StopLatched?;
      assert events[i].StopLatched?;
    }
  }

  /** The stop reason appears exactly when StopLatched is emitted. */
  lemma {:induction false} RefoldStop(f: Rebuilt, events: seq<Event>)
    ensures Latches(events) ==> RefoldAll(f, events).stopReason.Some?
    ensures !Latches(events) ==> RefoldAll(f, events).stopReason == f.stopReason
  {
    if events != [] {
      LatchesLast(events);
      RefoldStop(f, events[..|events| - 1]);
    }
  }

  // ---- one commit ----

  /** The time of the latch is invisible to the invariant, the checker and the fold. */
  lemma LatchTimeInvisible(cfg: Config, c: Core, t: Option<int>)
    requires Inv(cfg, c)
    ensures Inv(cfg, c.(stopLatchedUs := t))
    ensures Simulation.View(c.(stopLatchedUs := t)) == Simulation.View(c)
    ensures Restored(c.(stopLatchedUs := t)) == Restored(c)
  {
    Parts(cfg, c);
    hide Inv;
    Invariants.SameBooks(cfg, c, c.(stopLatchedUs := t));
  }

  /** The bodies a commit adds are numbered on from the journal's length. */
  lemma AppendedBodies(s: Signer, j: seq<Entry>, events: seq<Event>, stamps: seq<Stamp>)
    requires Chained(s, j) && |stamps| == |events| && Ordered(LastTime(j), stamps)
    ensures var r := Append(s, j, events, stamps);
            var added := Bodies(r[|j|..]);
            && Bodies(r) == Bodies(j) + added
            && Replay.Events(added) == events
            && (forall i :: 0 <= i < |added| ==> added[i].seqNo == |j| + i + 1)
            && Consecutive(Bodies(r))
  {
    AppendChained(s, j, events, stamps);
    var r := Append(s, j, events, stamps);
    hide Append, Ordered, LastTime;
    forall i | 0 <= i < |r| ensures r[i].body.seqNo == i + 1 {
      assert Sealed(s, r, i);
    }
    hide Chained;
    SuffixEvents(j, r, events);
  }

  lemma SuffixEvents(j: seq<Entry>, r: seq<Entry>, events: seq<Event>)
    requires |j| <= |r| && r[..|j|] == j
    requires Replay.Events(Bodies(r)) == Replay.Events(Bodies(j)) + events
    ensures Bodies(r) == Bodies(j) + Bodies(r[|j|..])
    ensures Replay.Events(Bodies(r[|j|..])) == events
  {
    var added := Bodies(r[|j|..]);
    assert forall i :: 0 <= i < |j| ==> r[i] == r[..|j|][i];
    var all, before := Replay.Events(Bodies(r)), Replay.Events(Bodies(j));
    assert |all| == |before| + |events|;
    forall i | 0 <= i < |added| ensures Replay.Events(added)[i] == events[i] {
      assert all[|j| + i] == (before + events)[|j| + i];
    }
  }

  lemma CommitFaithful(su: Setup, r: Run, core: Core, events: seq<Event>, stamps: seq<Stamp>, at: Time)
    requires Faithful(su, r) && r.journal != [] && Inv(su.cfg, core) && Mirrors(r.core, events, core)
    requires |stamps| == |events| && Ordered(r.clock, stamps) && r.clock <= at
    requires stamps != [] ==> stamps[|stamps| - 1].t <= at
    ensures var r' := Commit(su, r, core, events, stamps, at); Faithful(su, r') && Inv(su.cfg, r'.core)
  {
    var s, j := su.Signer(), r.journal;
    var r' := Commit(su, r, core, events, stamps, at);
    assert Ordered(LastTime(j), stamps);
    AppendChained(s, j, events, stamps);
    AppendedBodies(s, j, events, stamps);
    LatchTimeInvisible(su.cfg, core, Some(at));
    hide Inv, Chained, Simulation.View, Restored, LastTime, Ordered, Append;
    var added := Bodies(r'.journal[|j|..]);
    assert SchemaTyped(Bodies(r'.journal)) by {
      forall i | 0 <= i < |r'.journal| ensures WellTyped(Bodies(r'.journal)[i].event) {
        if i < |j| {
          assert Bodies(r'.journal)[i] == Bodies(j)[i];
        } else {
          assert Bodies(r'.journal)[i] == added[i - |j|] && Replay.Events(added)[i - |j|] in events;
        }
      }
    }
    Replay.RunAppend(Replay.START, Bodies(j), added);
    RefoldAppend(BLANK, Replay.Events(Bodies(j)), events);
  }

  /** The very first commit: RunCreated, numbered 1. */
  lemma CreateFaithful(su: Setup, hash: Hash, stamps: seq<Stamp>, at: Time)
    requires |stamps| == 1 && Ordered(0, stamps) && stamps[0].t <= at
    ensures var r' := Commit(su, FRESH, INITIAL, [RunCreated(hash)], stamps, at);
            Faithful(su, r') && r'.core == INITIAL && r'.journal != []
  {
    var r' := Commit(su, FRESH, INITIAL, [RunCreated(hash)], stamps, at);
    var e := MakeEntry(su.Signer(), 1, ZERO_HASH, RunCreated(hash), stamps[0]);
    AppendLast(su.Signer(), [], [], [], RunCreated(hash), stamps[0]);
    assert r'.journal == [e];
    assert Sealed(su.Signer(), [e], 0);
    var bodies := Bodies([e]);
    assert bodies == [e.body] && bodies[..0] == [];
    assert Replay.Run(Replay.START, bodies) == Replay.Step(Replay.START, e.body);
    assert SchemaTyped(bodies) && Consecutive(bodies);
    assert Replay.Events(Bodies([e])) == [RunCreated(hash)] && [RunCreated(hash)][..0] == [];
    assert Simulation.View(INITIAL) == Replay.START;
  }

  // ---- one step ----

  lemma NoCreateInside(su: Setup, r: Run, st: Move)
    requires Legal(su, r, st) && !(st.Exec? && st.op.Create?)
    ensures forall op :: op in OpsOf(su, r, st) ==> !op.Create?
    ensures !(st.Exec? && st.op.Kill?) ==> forall op :: op in OpsOf(su, r, st) ==> !op.Kill?
  {
    hide TakeSample, TakeFinal, GuardEval, ReplyTo, AllEnabled, ApplyAll, TokenSigned;
  }

  /** What legality says about the commit, as plain facts. */
  lemma LegalCommit(su: Setup, r: Run, st: Move)
    requires Legal(su, r, st)
    ensures (st.Sampling? || st.FinalReading?) ==> |st.inp.shown| == |su.domains|
    ensures var (core, events) := ApplyAll(su.cfg, r.core, OpsOf(su, r, st));
            && |StampsOf(st)| == |events| && Ordered(r.clock, StampsOf(st)) && r.clock <= st.at
            && FreshStamps(r.journal, StampsOf(st))
            && (StampsOf(st) != [] ==> StampsOf(st)[|StampsOf(st)| - 1].t <= st.at)
            && core.charged <= U_MAX && AllEnabled(su.cfg, r.core, OpsOf(su, r, st))
            && NextRun(su, r, st).core == Commit(su, r, core, events, StampsOf(st), st.at).core
            && NextRun(su, r, st).journal == Append(su.Signer(), r.journal, events, StampsOf(st))
            && NextRun(su, r, st).clock == st.at
    ensures st.Exec? && st.op.Kill? ==> r.clock <= st.op.now <= st.at
    ensures st.Exec? && st.op.Create? <==> r.journal == []
  {
    hide Apply, ApplyAll, OpsOf, Append, AllEnabled, Latches, Ordered, TakeSample, TakeFinal, Answer, Commits;
  }

  /** The times after a commit, from what the commit did to stop reason and kill time. */
  lemma CommitTimes(r: Run, core: Core, events: seq<Event>, at: Time, r': Run)
    requires Timed(r) && r.clock <= at && r'.clock == at && core.charged <= U_MAX
    requires r'.core == (if Latches(events) then core.(stopLatchedUs := Some(at)) else core)
    requires core.stopLatchedUs == r.core.stopLatchedUs
    requires if Latches(events) then core.stopReason.Some? && r.core.stopReason.None?
             else core.stopReason == r.core.stopReason
    requires core.killIssuedAtUs == r.core.killIssuedAtUs
          || (r.core.stopReason.Some? && core.killIssuedAtUs.Some? && r.clock <= core.killIssuedAtUs.value <= at)
    ensures Timed(r')
  {
    hide Latches;
  }

  lemma KillFrame(cfg: Config, c: Core, op: Op)
    requires op.Kill? && Coherent(c)
    ensures var k := ApplyAll(cfg, c, [op]).0.killIssuedAtUs;
            k == c.killIssuedAtUs || (c.stopReason.Some? && k == Some(op.now))
  {
    assert [op][..0] == [];
  }

  lemma CommitTimed(su: Setup, r: Run, st: Move)
    requires RunInv(su, r) && Legal(su, r, st) && r.journal != []
    requires var (core, events) := ApplyAll(su.cfg, r.core, OpsOf(su, r, st)); Mirrors(r.core, events, core)
    ensures Timed(NextRun(su, r, st))
  {
    LegalCommit(su, r, st);
    NoCreateInside(su, r, st);
    assert Coherent(r.core) by { Parts(su.cfg, r.core); }
    hide Legal, Inv, Faithful, Released, Apply, ApplyAll, Append, AllEnabled, Latches, Coherent, NextRun, Ordered;
    var ops := OpsOf(su, r, st);
    var (core, events) := ApplyAll(su.cfg, r.core, ops);
    ApplyAllFrame(su.cfg, r.core, ops);
    RefoldStop(Restored(r.core), events);
    if st.Exec? && st.op.Kill? {
      KillFrame(su.cfg, r.core, st.op);
    }
    hide OpsOf, Timed;
    CommitTimes(r, core, events, st.at, NextRun(su, r, st));
  }

  /** Only a committed dispatch answers with an action id, and the id is the new action's. */
  lemma OnlyDispatchDispatches(su: Setup, r: Run, key: Key, q: Request, channel: Option<Id>, inp: Inputs)
    requires Commits(su, r, key, q, channel, inp)
    requires var p := Answer(su, r, key, q, channel, inp).result; p.Some? && p.value.Dispatched?
    ensures var a := Answer(su, r, key, q, channel, inp).result.value.actionId;
            var ops := ServeOps(su, r, key, q, channel, inp);
            && |ops| == 1 && ops[0].Dispatch? && ops[0].actionId == a
            && a in ApplyAll(su.cfg, r.core, ops).0.actions.at
  {
    hide PolicyAllows, ChargeOf, ObservedCharge, SweepEvents, AuditOf, FinishedRec, FinalPhase, TokenSigned;
    var ops := ServeOps(su, r, key, q, channel, inp);
    var op := RequestOp(su, r.core, q, ChannelOf(channel), key.id, inp).value;
    assert ops == [op] && ops[..0] == [];
    assert ApplyAll(su.cfg, r.core, ops).0 == Apply(su.cfg, r.core, op).core;
  }

  predicate Dispatching(su: Setup, r: Run, st: Move) {
    st.Serve? && Commits(su, r, st.key, st.request, st.channel, st.inputs)
    && var p := Answer(su, r, st.key, st.request, st.channel, st.inputs).result; p.Some? && p.value.Dispatched?
  }

  lemma DispatchIsNew(su: Setup, r: Run, st: Move)
    requires Legal(su, r, st) && Dispatching(su, r, st)
    ensures var a := Answer(su, r, st.key, st.request, st.channel, st.inputs).result.value.actionId;
            a in ApplyAll(su.cfg, r.core, OpsOf(su, r, st)).0.actions.at && a !in r.core.actions.at
  {
    var ops := ServeOps(su, r, st.key, st.request, st.channel, st.inputs);
    assert OpsOf(su, r, st) == ops;
    hide Answer, ServeOps, OpsOf, Commits, Apply, Append, Latches, Ordered, FreshStamps, NextRun;
    OnlyDispatchDispatches(su, r, st.key, st.request, st.channel, st.inputs);
    assert ops[..0] == [];
    assert Enabled(r.core, ops[0]);
  }

  /** What a step does to the effects: one becomes pending by a dispatch, the pending one is released. */
  lemma EffectsMove(su: Setup, r: Run, st: Move)
    requires Legal(su, r, st)
    ensures var r' := NextRun(su, r, st);
            && r'.core.actions == ApplyAll(su.cfg, r.core, OpsOf(su, r, st)).0.actions
            && r'.released == r.released + (if st.Release? && r.pending.Some? then [r.pending.value] else [])
            && r'.pending == (if st.Release? then None
                              else if Dispatching(su, r, st) then
                                Some(Answer(su, r, st.key, st.request, st.channel, st.inputs).result.value.actionId)
                              else r.pending)
  {
    hide ApplyAll, OpsOf, Append, AllEnabled, Latches, Answer, Commits, Ordered, TakeSample, TakeFinal, FreshStamps;
  }

  lemma StepReleased(su: Setup, r: Run, st: Move)
    requires Released(r) && Legal(su, r, st)
    ensures Released(NextRun(su, r, st))
  {
    var ops := OpsOf(su, r, st);
    hide NextRun, ApplyAll, OpsOf, Legal, Dispatching, Answer;
    ApplyAllFrame(su.cfg, r.core, ops);
    EffectsMove(su, r, st);
    if Dispatching(su, r, st) {
      DispatchIsNew(su, r, st);
    }
  }

  lemma CreateKeeps(su: Setup, r: Run, st: Move)
    requires RunInv(su, r) && Legal(su, r, st) && st.Exec? && st.op.Create?
    ensures Faithful(su, NextRun(su, r, st)) && Timed(NextRun(su, r, st))
    ensures NextRun(su, r, st).core == INITIAL && NextRun(su, r, st).journal != []
  {
    LegalCommit(su, r, st);
    var ops := OpsOf(su, r, st);
    assert ops == [st.op] && ops[..0] == [] && r.core == INITIAL;
    assert ApplyAll(su.cfg, INITIAL, ops) == (INITIAL, [RunCreated(st.op.configHash)]);
    hide Legal, Inv, ApplyAll, OpsOf, AllEnabled, Append, Ordered;
    FromClockZero(r.clock, st.stamps);
    CreateFaithful(su, st.op.configHash, st.stamps, st.at);
  }

  lemma FromClockZero(clock: Time, stamps: seq<Stamp>)
    requires Ordered(clock, stamps)
    ensures Ordered(0, stamps)
  {
  }

  /** Every legal step keeps the whole invariant. */
  lemma StepKeeps(su: Setup, r: Run, st: Move)
    requires RunInv(su, r) && Legal(su, r, st)
    ensures RunInv(su, NextRun(su, r, st)) && NextRun(su, r, st).journal != []
  {
    hide Legal, Inv, Mirrors, Apply, ApplyAll, OpsOf, AllEnabled, Ordered, Timed, Released, Faithful, NextRun, Append;
    LegalCommit(su, r, st);
    StepReleased(su, r, st);
    if st.Exec? && st.op.Create? {
      InitiallyInv(su.cfg);
      CreateKeeps(su, r, st);
    } else {
      var ops := OpsOf(su, r, st);
      NoCreateInside(su, r, st);
      ApplyAllKeeps(su.cfg, r.core, ops);
      CommitTimed(su, r, st);
      var (core, events) := ApplyAll(su.cfg, r.core, ops);
      CommitFaithful(su, r, core, events, StampsOf(st), st.at);
      SameFaith(su, Commit(su, r, core, events, StampsOf(st), st.at), NextRun(su, r, st));
    }
  }

  lemma SameFaith(su: Setup, r: Run, r': Run)
    requires Faithful(su, r) && r'.core == r.core && r'.journal == r.journal && r'.clock == r.clock
    ensures Faithful(su, r')
  {
  }
}
