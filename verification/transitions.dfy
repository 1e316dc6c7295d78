/** What each of the supervisor's own steps does to the books and to the journal, spelled out. */
module Transitions {
  import opened Types
  import opened Dicts
  import opened Ledger
  import opened Invariants
  import opened Audit
  import opened Metering
  import opened Supervisor
  import opened Runs
  import opened Theorems
  import opened Requests
  import opened Admission

  /** A step of the supervisor's own commits what its operation does. */
  lemma Executed(su: Setup, r: Run, st: Move)
    requires Legal(su, r, st) && st.Exec?
    ensures var s := Apply(su.cfg, r.core, st.op);
            Books(su, r, st, if Latches(s.out.events) then s.core.(stopLatchedUs := Some(st.at)) else s.core,
                  s.out.events)
  {
    hide Apply, Enabled, Legal, NextRun, AllEnabled, ApplyAll, Append, Ordered, Latches, Internal, FreshStamps, OpsOf;
    var s := Apply(su.cfg, r.core, st.op);
    OneOperation(su, r, st);
    LegalCommit(su, r, st);
    ApplyOne(su.cfg, r.core, st.op);
    AppendedEvents(su.Signer(), r.journal, s.out.events, st.stamps);
  }

  lemma OneOperation(su: Setup, r: Run, st: Move)
    requires st.Exec?
    ensures OpsOf(su, r, st) == [st.op] && StampsOf(st) == st.stamps
  {
  }

  lemma QuietlyExecuted(su: Setup, r: Run, st: Move, c: Core, events: seq<Event>)
    requires Legal(su, r, st) && st.Exec? && Apply(su.cfg, r.core, st.op).core == c
    requires Apply(su.cfg, r.core, st.op).out.events == events
    requires forall i :: 0 <= i < |events| ==> !events[i].StopLatched?
    ensures Books(su, r, st, c, events)
  {
    assert !Latches(events);
    hide *;
    Executed(su, r, st);
  }

  /** The run is stopped for this reason. */
  ghost predicate Stops(su: Setup, r: Run, st: Move, reason: Reason)
    requires Legal(su, r, st)
  {
    Books(su, r, st, r.core.(phase := STOPPING, stopReason := Some(reason), stopLatchedUs := Some(st.at)),
          [StopLatched(reason)])
  }

  /** A stop source stops a run that is armed or running and has not been stopped, and changes nothing otherwise. */
  lemma HaltMoves(su: Setup, r: Run, st: Move)
    requires Legal(su, r, st) && st.Exec? && st.op.Halt?
    ensures if r.core.phase in {ARMING, RUNNING} && r.core.stopReason == None then Stops(su, r, st, st.op.reason)
            else Books(su, r, st, r.core, [])
  {
    HaltCases(su.cfg, r.core, st.op);
    LatchesStop(st.op.reason);
    NoEvent();
    hide Legal, NextRun, Apply, Books, Latches;
    Executed(su, r, st);
  }

  lemma NoEvent()
    ensures !Latches([])
  {
  }

  lemma HaltCases(cfg: Config, c: Core, op: Op)
    requires op.Halt?
    ensures var s := Apply(cfg, c, op);
            if c.phase in {ARMING, RUNNING} && c.stopReason == None then
              s.core == c.(phase := STOPPING, stopReason := Some(op.reason)) && s.out.events == [StopLatched(op.reason)]
            else s.core == c && s.out.events == []
  {
  }

  /** A fault of the infrastructure stops a run like any other source; a run that is already stopping records it. */
  lemma FaultMoves(su: Setup, r: Run, st: Move)
    requires RunInv(su, r) && Legal(su, r, st) && st.Exec? && st.op.Observe?
    ensures if r.core.phase in {ARMING, RUNNING} then Stops(su, r, st, st.op.reason)
            else if r.core.phase in {STOPPING, UNCONFIRMED, FINALIZING} then
              Books(su, r, st, r.core, [FaultObserved(st.op.reason)])
            else Books(su, r, st, r.core, [])
  {
    LiveIsUnstopped(su, r);
    FaultCases(su.cfg, r.core, st.op);
    LatchesStop(st.op.reason);
    NoEvent();
    assert !Latches([FaultObserved(st.op.reason)]);
    hide Legal, NextRun, Apply, Books, Latches, RunInv;
    Executed(su, r, st);
  }

  lemma LiveIsUnstopped(su: Setup, r: Run)
    requires RunInv(su, r)
    ensures r.core.phase in {ARMING, RUNNING} ==> r.core.stopReason == None
  {
    Parts(su.cfg, r.core);
    hide Faithful, Timed, Released, Inv;
  }

  lemma FaultCases(cfg: Config, c: Core, op: Op)
    requires op.Observe? && (c.phase in {ARMING, RUNNING} ==> c.stopReason == None)
    ensures var s := Apply(cfg, c, op);
            if c.phase in {ARMING, RUNNING} then
              s.core == c.(phase := STOPPING, stopReason := Some(op.reason)) && s.out.events == [StopLatched(op.reason)]
            else
              s.core == c && s.out.events == if c.phase in {STOPPING, UNCONFIRMED, FINALIZING}
                                             then [FaultObserved(op.reason)] else []
  {
  }

  /** The first kill of a stopping run gives the time of the kill; every kill is recorded. */
  lemma KillMoves(su: Setup, r: Run, st: Move)
    requires Legal(su, r, st) && st.Exec? && st.op.Kill?
    ensures var c := r.core;
            var first := if c.killIssuedAtUs.Some? then c.killIssuedAtUs else Some(st.op.now);
            if c.phase in {STOPPING, UNCONFIRMED} then
              Books(su, r, st, c.(killIssuedAtUs := first), [KillIssued(st.op.cgroup, st.op.group)])
            else Books(su, r, st, c, [])
  {
    var c := r.core;
    hide Legal, NextRun, Books;
    QuietlyExecuted(su, r, st, Apply(su.cfg, c, st.op).core, Apply(su.cfg, c, st.op).out.events);
  }

  /** A kill that does not take effect in time leaves the run unconfirmed. */
  lemma UnconfirmMoves(su: Setup, r: Run, st: Move)
    requires Legal(su, r, st) && st.Exec? && st.op.Unconfirm?
    ensures if r.core.phase == STOPPING then
              Books(su, r, st, r.core.(phase := UNCONFIRMED), [KillUnconfirmed(st.op.elapsed)])
            else Books(su, r, st, r.core, [])
  {
    hide Legal, NextRun, Books;
    QuietlyExecuted(su, r, st, Apply(su.cfg, r.core, st.op).core, Apply(su.cfg, r.core, st.op).out.events);
  }

  /** Containment seen empty makes a drained, stopping run ready to finalise; an exit seen last is the root's. */
  lemma EmptiedMoves(su: Setup, r: Run, st: Move)
    requires Legal(su, r, st) && st.Exec? && st.op.Emptied?
    ensures var exit := if st.op.lastExit.Some? then st.op.lastExit else r.core.rootExit;
            if r.core.phase in {STOPPING, UNCONFIRMED} then
              Drained(r.core.actions.at)
              && Books(su, r, st, r.core.(phase := FINALIZING, rootExit := exit),
                       [ContainmentEmpty(st.op.finalSample, exit)])
            else Books(su, r, st, r.core, [])
  {
    EmptiedEnabled(su, r, st);
    hide Legal, NextRun, Books, Drained;
    QuietlyExecuted(su, r, st, Apply(su.cfg, r.core, st.op).core, Apply(su.cfg, r.core, st.op).out.events);
  }

  lemma EmptiedEnabled(su: Setup, r: Run, st: Move)
    requires Legal(su, r, st) && st.Exec? && st.op.Emptied?
    ensures Drained(r.core.actions.at)
  {
    ApplyOne(su.cfg, r.core, st.op);
    hide ApplyAll, AllEnabled, Ordered, FreshStamps;
  }

  /** Only a run that has not started can be rejected. */
  lemma RejectMoves(su: Setup, r: Run, st: Move)
    requires Legal(su, r, st) && st.Exec? && st.op.Reject?
    ensures if r.core.phase in {CREATED, ARMING} then
              Books(su, r, st, r.core.(phase := REJECTED), [RunRejected(st.op.code)])
            else Books(su, r, st, r.core, [])
  {
    hide Legal, NextRun, Books;
    QuietlyExecuted(su, r, st, Apply(su.cfg, r.core, st.op).core, Apply(su.cfg, r.core, st.op).out.events);
  }

  // ---- the sweep ----

  /** The token is issued, and its time is over. */
  predicate Overdue(rec: TokenRec, now: int) {
    rec.state == ISSUED && rec.expiresUs <= now
  }

  predicate DueAt(d: Dict<Id, TokenRec>, k: nat, now: int)
    requires k < |d.order|
  {
    d.order[k] in d.at && Overdue(d.at[d.order[k]], now)
  }

  /** The events are the expiries of exactly the overdue ones of the first `n` tokens, in the order in which these were
      issued; `at` says where each stands. */
  ghost predicate ExpiredAt(d: Dict<Id, TokenRec>, n: nat, now: int, events: seq<Event>, at: seq<nat>) {
    && n <= |d.order| && |at| == |events|
    && (forall i, j :: 0 <= i < j < |at| ==> at[i] < at[j])
    && (forall i :: 0 <= i < |at| ==>
          at[i] < n && DueAt(d, at[i], now) && events[i] == TokenExpired(d.at[d.order[at[i]]].body.tokenId))
    && (forall k :: 0 <= k < n && DueAt(d, k, now) ==> k in at)
  }

  lemma ExpiredOn(d: Dict<Id, TokenRec>, n: nat, now: int, events: seq<Event>, at: seq<nat>)
    requires n < |d.order| && ExpiredAt(d, n, now, events, at)
    ensures if DueAt(d, n, now)
            then ExpiredAt(d, n + 1, now, events + [TokenExpired(d.at[d.order[n]].body.tokenId)], at + [n])
            else ExpiredAt(d, n + 1, now, events, at)
  {
    hide Overdue;
  }

  lemma {:induction false} SweptAt(d: Dict<Id, TokenRec>, n: nat, now: int) returns (at: seq<nat>)
    requires n <= |d.order|
    ensures ExpiredAt(d, n, now, SweepEvents(d.order[..n], d.at, now), at)
  {
    if n == 0 {
      at := [];
    } else {
      at := SweptAt(d, n - 1, now);
      assert d.order[..n][..n - 1] == d.order[..n - 1];
      hide ExpiredAt;
      ExpiredOn(d, n - 1, now, SweepEvents(d.order[..n - 1], d.at, now), at);
      at := if DueAt(d, n - 1, now) then at + [n - 1] else at;
    }
  }

  /** The sweep of a running run expires exactly the tokens whose time is over, each with one event; nothing else in
      the books changes. */
  lemma SweepMoves(su: Setup, r: Run, st: Move) returns (events: seq<Event>, at: seq<nat>)
    requires Legal(su, r, st) && st.Exec? && st.op.Expire? && r.core.phase == RUNNING
    ensures ExpiredAt(r.core.tokens, |r.core.tokens.order|, st.op.now, events, at)
    ensures var c' := NextRun(su, r, st).core;
            && Books(su, r, st, c', events) && c' == r.core.(tokens := r.core.tokens.(at := c'.tokens.at))
            && c'.tokens.at.Keys == r.core.tokens.at.Keys
            && forall k :: k in c'.tokens.at ==>
                 c'.tokens.at[k] == if Overdue(r.core.tokens.at[k], st.op.now)
                                    then r.core.tokens.at[k].(state := EXPIRED) else r.core.tokens.at[k]
  {
    var d, now := r.core.tokens, st.op.now;
    events := SweepEvents(d.order, d.at, now);
    at := SweptAt(d, |d.order|, now);
    assert d.order[..|d.order|] == d.order;
    SweepNeverLatches(d.order, d.at, now);
    hide Legal, NextRun, ExpiredAt, SweepEvents;
    QuietlyExecuted(su, r, st, Apply(su.cfg, r.core, st.op).core, events);
  }

  // ---- actions ----

  predicate Open(c: Core, id: Id) {
    id in c.actions.at && c.actions.at[id].state == DISPATCHED && c.phase in {RUNNING, STOPPING, UNCONFIRMED}
  }

  /** The action succeeded only with a result and without an error; the audit line names its kind and end, the exit of
      a spawned process, the status and body hash of a fetch, and nothing of what was sent or received. */
  ghost predicate FinishedAs(was: ActionRec, now: ActionRec, line: Types.Audit, op: Op)
    requires op.Finish?
  {
    && (now.state == SUCCEEDED <==> op.error == None && op.result.Some?)
    && (now.state == ACTION_HAS_FAILED <==> !(op.error == None && op.result.Some?))
    && now == was.(state := now.state, result := now.result, error := now.error, exit := now.exit)
    && now.result == op.result
    && (now.state == SUCCEEDED ==> now.error == was.error && now.exit == was.exit && line.error == None)
    && (now.state == ACTION_HAS_FAILED ==>
          && now.exit == op.exit && line.error == now.error
          && now.error == (if op.error.Some? then op.error else Some(ACTION_FAILED)))
    && line.actionId == was.actionId && line.state == now.state && line.kind == was.kind
    && line.rootExit == (if was.kind == SPAWN then op.exit else None)
    && (was.kind == HTTP_GET && op.result.Some? && op.result.value.HttpResult? ==>
          line.httpStatus == Some(op.result.value.status) && line.bodyHash == Some(op.result.value.bodyHash))
    && (was.kind == SPAWN || op.result.None? ==> line.httpStatus == None && line.bodyHash == None)
  }

  /** An action is resolved once, while its run can still observe it. */
  lemma FinishMoves(su: Setup, r: Run, st: Move) returns (now: ActionRec, line: Types.Audit)
    requires Legal(su, r, st) && st.Exec? && st.op.Finish?
    ensures var c, id := r.core, st.op.actionId;
            if Open(c, id) then
              && FinishedAs(c.actions.at[id], now, line, st.op)
              && Books(su, r, st, c.(inflight := c.inflight - 1, actions := c.actions.Put(id, now)),
                       [ActionFinished(line)])
            else Books(su, r, st, c, [])
  {
    now, line := FinishCases(su.cfg, r.core, st.op);
    hide *;
    QuietlyExecuted(su, r, st, Apply(su.cfg, r.core, st.op).core, Apply(su.cfg, r.core, st.op).out.events);
  }

  lemma FinishCases(cfg: Config, c: Core, op: Op) returns (now: ActionRec, line: Types.Audit)
    requires op.Finish?
    ensures var s, id := Apply(cfg, c, op), op.actionId;
            if Open(c, id) then
              && FinishedAs(c.actions.at[id], now, line, op)
              && s.core == c.(inflight := c.inflight - 1, actions := c.actions.Put(id, now))
              && s.out.events == [ActionFinished(line)]
            else s.core == c && s.out.events == []
  {
    var id := op.actionId;
    if Open(c, id) {
      now := FinishedRec(c.actions.at[id], op.result, op.error, op.exit);
      line := AuditOf(c.actions.at[id], now.state, op.exit, op.result,
                      if now.state == SUCCEEDED then None else now.error);
    } else {
      now := ActionRec("", "", SPAWN, "", DISPATCHED, None, None, None);
      line := Types.Audit("", DISPATCHED, SPAWN, None, None, None, None);
    }
  }

  /** An action whose end was not seen is unknown from then on. */
  lemma GiveUpMoves(su: Setup, r: Run, st: Move)
    requires Legal(su, r, st) && st.Exec? && st.op.GiveUp?
    ensures var c, id := r.core, st.op.actionId;
            if Open(c, id) then
              Books(su, r, st,
                    c.(inflight := c.inflight - 1,
                       actions := c.actions.Put(id, c.actions.at[id].(state := UNKNOWN, error := Some(st.op.code)))),
                    [ActionUnknown(id, st.op.code)])
            else Books(su, r, st, c, [])
  {
    hide Legal, NextRun, Books;
    QuietlyExecuted(su, r, st, Apply(su.cfg, r.core, st.op).core, Apply(su.cfg, r.core, st.op).out.events);
  }

  // ---- the end ----

  /** The final event reports how the run stands. */
  ghost predicate Reported(r: Run) {
    && (forall i :: 0 <= i < |r.journal| && r.journal[i].body.event.RunFinalized? ==>
          ReportsOf(r.core, r.journal[i].body.event))
    && (r.core.phase in {COMPLETED, KILLED, FAILED} ==>
          r.journal != [] && r.journal[|r.journal| - 1].body.event.RunFinalized?)
  }

  ghost predicate ReportsOf(c: Core, e: Event)
    requires e.RunFinalized?
  {
    && e.phase == c.phase && Some(e.stopReason) == c.stopReason && EndsAs(e.stopReason, e.phase)
    && e.charged == c.charged && e.spawnIssued == c.spawnIssued
    && (c.killIssuedAtUs.Some? && c.stopLatchedUs.Some? ==>
          e.killLatencyUs == c.killIssuedAtUs.value - c.stopLatchedUs.value)
    && (c.killIssuedAtUs.None? ==> e.killLatencyUs == 0)
  }

  /** An ended run changes in nothing that its final event reports, and reports nothing more. */
  lemma EndedStays(cfg: Config, c: Core, op: Op)
    requires c.phase in {COMPLETED, KILLED, FAILED} && Enabled(c, op)
    ensures var s := Apply(cfg, c, op);
            && s.out.events == [] && s.core == c.(rootExit := s.core.rootExit)
  {
    hide PolicyAllows, ChargeOf, ObservedCharge, SweepEvents, AuditOf, FinishedRec, FinalPhase;
  }

  lemma {:induction false} EndedStaysAll(cfg: Config, c: Core, ops: seq<Op>)
    requires c.phase in {COMPLETED, KILLED, FAILED} && AllEnabled(cfg, c, ops)
    ensures var (c', events) := ApplyAll(cfg, c, ops);
            && events == [] && c' == c.(rootExit := c'.rootExit)
  {
    hide Apply, Enabled;
    if ops != [] {
      var n := |ops| - 1;
      EndedStaysAll(cfg, c, ops[..n]);
      EndedStays(cfg, ApplyAll(cfg, c, ops[..n]).0, ops[n]);
    }
  }

  /** Only finalising emits the final event. */
  lemma OnlyEndFinalizes(cfg: Config, c: Core, op: Op)
    requires !op.End?
    ensures var s := Apply(cfg, c, op);
            && (forall i :: 0 <= i < |s.out.events| ==> !s.out.events[i].RunFinalized?)
            && (s.core.phase in {COMPLETED, KILLED, FAILED} ==> c.phase == s.core.phase)
  {
    hide PolicyAllows, ChargeOf, ObservedCharge, AuditOf, FinishedRec, FinalPhase, SweepEvents;
    if op.Expire? { SweepNeverLatches(c.tokens.order, c.tokens.at, op.now); }
  }

  lemma {:induction false} OthersNeverFinalize(cfg: Config, c: Core, ops: seq<Op>)
    requires forall i :: 0 <= i < |ops| ==> !ops[i].End?
    ensures var (c', events) := ApplyAll(cfg, c, ops);
            && (forall i :: 0 <= i < |events| ==> !events[i].RunFinalized?)
            && (c'.phase in {COMPLETED, KILLED, FAILED} ==> c.phase == c'.phase)
  {
    hide Apply;
    if ops != [] {
      var n := |ops| - 1;
      OthersNeverFinalize(cfg, c, ops[..n]);
      OnlyEndFinalizes(cfg, ApplyAll(cfg, c, ops[..n]).0, ops[n]);
    }
  }

  lemma NoEndInside(su: Setup, r: Run, st: Move)
    requires Legal(su, r, st) && !(st.Exec? && st.op.End?)
    ensures var ops := OpsOf(su, r, st); forall i :: 0 <= i < |ops| ==> !ops[i].End?
  {
    hide ApplyAll, AllEnabled, TakeSample, TakeFinal, ReplyTo, TokenSigned, Ordered;
  }

  /** The journal after a step, entry by entry. */
  lemma StepEntries(su: Setup, r: Run, st: Move)
    requires Legal(su, r, st)
    ensures var r' := NextRun(su, r, st);
            var (core, events) := ApplyAll(su.cfg, r.core, OpsOf(su, r, st));
            && r'.core == (if Latches(events) then core.(stopLatchedUs := Some(st.at)) else core)
            && |r'.journal| == |r.journal| + |events|
            && (forall i :: 0 <= i < |r.journal| ==> r'.journal[i] == r.journal[i])
            && (forall i :: 0 <= i < |events| ==> r'.journal[|r.journal| + i].body.event == events[i])
  {
    hide Legal, NextRun, ApplyAll, OpsOf, AllEnabled, Ordered, Latches, Append, FreshStamps, StampsOf;
    LegalCommit(su, r, st);
    AppendedEvents(su.Signer(), r.journal, ApplyAll(su.cfg, r.core, OpsOf(su, r, st)).1, StampsOf(st));
    Earlier(r.journal, NextRun(su, r, st).journal);
  }

  lemma Earlier(j: seq<Entry>, j': seq<Entry>)
    requires j <= j'
    ensures forall i :: 0 <= i < |j| ==> j'[i] == j[i]
  {
  }

  lemma ReportStep(su: Setup, r: Run, st: Move)
    requires RunInv(su, r) && Legal(su, r, st) && Reported(r)
    ensures Reported(NextRun(su, r, st))
  {
    if r.core.phase in {COMPLETED, KILLED, FAILED} {
      ReportKept(su, r, st);
    } else if st.Exec? && st.op.End? {
      EndStep(su, r, st);
    } else {
      NothingReported(su, r, st);
    }
  }

  lemma ReportKept(su: Setup, r: Run, st: Move)
    requires Legal(su, r, st) && Reported(r) && r.core.phase in {COMPLETED, KILLED, FAILED}
    ensures Reported(NextRun(su, r, st))
  {
    var ops, r' := LegalOps(su, r, st), NextRun(su, r, st);
    hide Legal, NextRun, ApplyAll, OpsOf, Latches, AllEnabled;
    EndedStaysAll(su.cfg, r.core, ops);
    NoEvent();
    StepEntries(su, r, st);
    assert r'.core == r.core.(rootExit := r'.core.rootExit) && |r'.journal| == |r.journal|;
    hide Reported;
    SameReports(r, r');
  }

  lemma SameReports(r: Run, r': Run)
    requires Reported(r) && r'.core == r.core.(rootExit := r'.core.rootExit) && |r'.journal| == |r.journal|
    requires forall i :: 0 <= i < |r.journal| ==> r'.journal[i] == r.journal[i]
    ensures Reported(r')
  {
    hide EndsAs;
  }

  ghost function LegalOps(su: Setup, r: Run, st: Move): (ops: seq<Op>)
    requires Legal(su, r, st)
    ensures (st.Sampling? || st.FinalReading?) ==> |st.inp.shown| == |su.domains|
    ensures ops == OpsOf(su, r, st) && AllEnabled(su.cfg, r.core, ops)
  {
    OpsOf(su, r, st)
  }

  lemma NothingReported(su: Setup, r: Run, st: Move)
    requires Legal(su, r, st) && Reported(r) && r.core.phase !in {COMPLETED, KILLED, FAILED}
    requires !(st.Exec? && st.op.End?)
    ensures Reported(NextRun(su, r, st))
  {
    NoEndInside(su, r, st);
    var ops, r' := LegalOps(su, r, st), NextRun(su, r, st);
    hide Legal, NextRun, ApplyAll, OpsOf, Latches, AllEnabled, ReportsOf;
    NotYetReported(r);
    OthersNeverFinalize(su.cfg, r.core, ops);
    StepEntries(su, r, st);
    var events := ApplyAll(su.cfg, r.core, ops).1;
    forall i | 0 <= i < |r'.journal| ensures !r'.journal[i].body.event.RunFinalized? {
      if i >= |r.journal| { assert r'.journal[|r.journal| + (i - |r.journal|)].body.event == events[i - |r.journal|]; }
    }
  }

  /** A run that has not ended has no final event. */
  lemma NotYetReported(r: Run)
    requires Reported(r) && r.core.phase !in {COMPLETED, KILLED, FAILED}
    ensures forall i :: 0 <= i < |r.journal| ==> !r.journal[i].body.event.RunFinalized?
  {
  }

  lemma EndStep(su: Setup, r: Run, st: Move)
    requires RunInv(su, r) && Legal(su, r, st) && Reported(r) && st.Exec? && st.op.End?
    requires r.core.phase !in {COMPLETED, KILLED, FAILED}
    ensures Reported(NextRun(su, r, st))
  {
    var s, r' := Finalize(r.core), NextRun(su, r, st);
    hide *;
    EndCases(su, r);
    NotYetReported(r);
    EndApplies(su.cfg, r.core, st.op);
    QuietlyExecuted(su, r, st, s.core, s.out.events);
    BooksSay(su, r, st, s.core, s.out.events);
    EndReported(r, r', s);
  }

  lemma BooksSay(su: Setup, r: Run, st: Move, c: Core, events: seq<Event>)
    requires Legal(su, r, st) && Books(su, r, st, c, events)
    ensures var r' := NextRun(su, r, st);
            && r'.core == c && r.journal <= r'.journal && |r'.journal| == |r.journal| + |events|
            && forall i :: 0 <= i < |events| ==> r'.journal[|r.journal| + i].body.event == events[i]
  {
    hide Legal, NextRun;
  }

  lemma EndApplies(cfg: Config, c: Core, op: Op)
    requires op.End?
    ensures Apply(cfg, c, op) == Finalize(c)
  {
  }

  lemma NeverLatches(events: seq<Event>)
    requires forall i :: 0 <= i < |events| ==> !events[i].StopLatched?
    ensures !Latches(events)
  {
  }

  lemma EndCases(su: Setup, r: Run)
    requires RunInv(su, r) && r.core.phase !in {COMPLETED, KILLED, FAILED}
    ensures var s := Finalize(r.core);
            && (forall i :: 0 <= i < |s.out.events| ==> !s.out.events[i].StopLatched?)
            && if r.core.phase == FINALIZING then FinalizesTo(r.core, s) else s.core == r.core && s.out.events == []
  {
    Parts(su.cfg, r.core);
    hide Faithful, Released, Inv, Coherent, Timed, FinalPhase, KillLatency;
    if r.core.phase == FINALIZING {
      TimedFinalizes(r);
    }
  }

  lemma EndReported(r: Run, r': Run, s: Step)
    requires forall i :: 0 <= i < |r.journal| ==> !r.journal[i].body.event.RunFinalized?
    requires r'.core == s.core && r.journal <= r'.journal && |r'.journal| == |r.journal| + |s.out.events|
    requires forall i :: 0 <= i < |s.out.events| ==> r'.journal[|r.journal| + i].body.event == s.out.events[i]
    requires if r.core.phase == FINALIZING then FinalizesTo(r.core, s) else s.core == r.core && s.out.events == []
    requires r.core.phase !in {COMPLETED, KILLED, FAILED}
    ensures Reported(r')
  {
    assert forall i :: 0 <= i < |r.journal| ==> r'.journal[i] == r.journal[i];
    if r.core.phase == FINALIZING {
      assert r'.journal[|r.journal| + 0].body.event == s.out.events[0];
    }
  }

  /** How a run ends: in every history, a final event is there exactly once the run has ended other than by a rejection;
      it names the phase in which the run ended, the reason that stopped it, what was charged and issued, and the
      time from the latch to the first kill. */
  lemma {:induction false} FinalReport(su: Setup, steps: seq<Move>)
    requires History(su, steps)
    ensures Reported(Supervisor.After(su, steps))
  {
    if steps != [] {
      var init := steps[..|steps| - 1];
      FinalReport(su, init);
      Reachable(su, init);
      hide RunInv, Legal, NextRun, Reported;
      ReportStep(su, Supervisor.After(su, init), steps[|steps| - 1]);
    }
  }
}
