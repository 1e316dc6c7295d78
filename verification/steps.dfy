/** Why what the supervisor object does are legal steps: one lemma per kind of step, and the drain. */
module Steps {
  import opened Types
  import opened Dicts
  import opened Ledger
  import opened Audit
  import opened Metering
  import opened Supervisor
  import opened Runs
  import opened Theorems
  import opened Invariants
  import opened Requests
  import opened Receipts
  import opened Hosts

  // ---- facts about single steps ----

  lemma ChargedKept(cfg: Config, c: Core, op: Op)
    requires !op.Reserve?
    ensures Apply(cfg, c, op).core.charged == c.charged
  {
    hide PolicyAllows, ObservedCharge, SweepEvents, AuditOf, FinishedRec, FinalPhase, ChargeOf;
  }

  /** The stamps of one commit to a journal: unused ids, times in order, none before `from` or after `at`. */
  ghost predicate Stamped(j: seq<Entry>, from: Time, stamps: seq<Stamp>, at: Time) {
    && FreshStamps(j, stamps)
    && Ordered(from, stamps) && from <= at && (stamps != [] ==> stamps[|stamps| - 1].t <= at)
  }

  /** One of the supervisor's own operations is a legal step once its events are stamped. */
  lemma ExecIsLegal(su: Setup, r: Supervisor.Run, op: Op, stamps: seq<Stamp>, at: Time)
    requires Internal(op) && Enabled(r.core, op) && (op.Create? <==> r.journal == [])
    requires op.Kill? ==> r.clock <= op.now <= at
    requires |stamps| == |Apply(su.cfg, r.core, op).out.events| && Stamped(r.journal, r.clock, stamps, at)
    requires r.core.charged <= U_MAX
    ensures var st, s := Exec(op, stamps, at), Apply(su.cfg, r.core, op);
            Legal(su, r, st) && NextRun(su, r, st) == Commit(su, r, s.core, s.out.events, stamps, at)
  {
    ApplyOne(su.cfg, r.core, op);
    ChargedKept(su.cfg, r.core, op);
    hide Apply, ApplyAll, AllEnabled, Enabled, Append, Latches, Ordered;
  }

  /** A step of the supervisor's own with `n` events, none stamped before `from`. */
  ghost predicate StampedSince(st: Move, from: Time, n: nat) {
    st.Exec? && |st.stamps| == n && forall i :: 0 <= i < n ==> from <= st.stamps[i].t
  }

  /** A fault, as an operation of the ledger. */
  lemma FaultOp(cfg: Config, c: Core, reason: Reason)
    requires IsFaultReason(reason) && (c.phase in {ARMING, RUNNING} ==> c.stopReason == None)
    ensures Internal(Observe(reason)) && Enabled(c, Observe(reason))
    ensures Apply(cfg, c, Observe(reason)) == Fault(c, reason)
    ensures Fault(c, reason).core.phase == (if c.phase in {ARMING, RUNNING} then STOPPING else c.phase)
    ensures var c' := Fault(c, reason).core; c' == c.(phase := c'.phase, stopReason := c'.stopReason)
  {
  }

  lemma StampedLater(j: seq<Entry>, from: Time, drawn: Time, stamps: seq<Stamp>, at: Time, end: Time)
    requires Stamped(j, drawn, stamps, at) && from <= drawn && at <= end
    ensures Stamped(j, from, stamps, end)
  {
  }

  /** The history has grown, and what was there before still is. */
  ghost predicate Grew(was: seq<Move>, now: seq<Move>) {
    |was| <= |now| && now[..|was|] == was
  }

  /** The history has grown by exactly one step, which applies `op`. */
  ghost predicate Took(was: seq<Move>, now: seq<Move>, op: Op) {
    |now| == |was| + 1 && now[..|was|] == was && now[|was|].Exec? && now[|was|].op == op
  }

  /** The history has grown by a step that applies `op`, and by a kill if the run is stopping. */
  ghost predicate TookAndKilled(was: seq<Move>, now: seq<Move>, op: Op, stopping: bool) {
    && |now| == |was| + (if stopping then 2 else 1) && now[..|was|] == was
    && now[|was|].Exec? && now[|was|].op == op
    && (stopping ==> now[|was| + 1].Exec? && now[|was| + 1].op.Kill?)
  }

  /** The history has grown by the root's exit, the stop for it, and a kill. */
  ghost predicate RootLeft(was: seq<Move>, now: seq<Move>, exit: Exit) {
    && |now| == |was| + 3 && now[..|was|] == was
    && now[|was|].Exec? && now[|was|].op == NoteExit(exit)
    && now[|was| + 1].Exec? && now[|was| + 1].op == Halt(ROOT_EXIT)
    && now[|was| + 2].Exec? && now[|was| + 2].op.Kill?
  }

  lemma NotedThenKilled(a: seq<Move>, b: seq<Move>, c: seq<Move>, exit: Exit)
    requires Took(a, b, NoteExit(exit)) && TookAndKilled(b, c, Halt(ROOT_EXIT), true)
    ensures RootLeft(a, c, exit)
  {
    assert c[..|b|][..|a|] == c[..|a|] && c[..|b|][|a|] == c[|a|];
  }

  ghost predicate Killed(was: seq<Move>, now: seq<Move>) {
    |now| == |was| + 1 && now[..|was|] == was && now[|was|].Exec? && now[|was|].op.Kill?
  }

  /** The first new step is the sample `inp`. */
  ghost predicate SampledFirst(was: seq<Move>, now: seq<Move>, inp: SampleInput) {
    |now| > |was| && now[..|was|] == was && now[|was|].Sampling? && now[|was|].inp == inp
  }

  /** The first new step applies `op`. */
  ghost predicate TookFirst(was: seq<Move>, now: seq<Move>, op: Op) {
    |now| > |was| && now[..|was|] == was && now[|was|].Exec? && now[|was|].op == op
  }

  /** The history has grown by exactly the final reading `inp`. */
  ghost predicate ReadLast(was: seq<Move>, now: seq<Move>, inp: SampleInput) {
    |now| == |was| + 1 && now[..|was|] == was && now[|was|].FinalReading? && now[|was|].inp == inp
  }

  lemma TookFirstGrew(a: seq<Move>, b: seq<Move>)
    ensures forall op :: TookFirst(a, b, op) ==> Grew(a, b)
  {
  }

  lemma ReadLastGrew(was: seq<Move>, now: seq<Move>, inp: SampleInput)
    requires ReadLast(was, now, inp)
    ensures Grew(was, now)
  {
  }

  lemma ReleasedGrew(was: seq<Move>, at: Time)
    ensures Grew(was, was + [Release(at)])
  {
  }

  lemma TookThenGrew(a: seq<Move>, b: seq<Move>, c: seq<Move>, op: Op)
    requires Took(a, b, op) && Grew(b, c)
    ensures TookFirst(a, c, op) && Grew(a, c)
  {
    assert c[..|b|][..|a|] == c[..|a|] && c[..|b|][|a|] == c[|a|];
  }

  lemma GrewRefl(a: seq<Move>)
    ensures Grew(a, a)
  {
  }

  lemma GrewOn(a: seq<Move>, b: seq<Move>, c: seq<Move>)
    requires Grew(a, b) && Grew(b, c)
    ensures Grew(a, c)
  {
    assert c[..|b|][..|a|] == c[..|a|];
  }

  lemma TookGrew(a: seq<Move>, b: seq<Move>, op: Op)
    ensures Took(a, b, op) ==> Grew(a, b) && TookAndKilled(a, b, op, false) && TookFirst(a, b, op)
    ensures forall stopping :: TookAndKilled(a, b, op, stopping) ==> Grew(a, b) && TookFirst(a, b, op)
    ensures Killed(a, b) ==> Grew(a, b)
  {
  }

  lemma ThenKilled(a: seq<Move>, b: seq<Move>, c: seq<Move>, op: Op)
    requires Took(a, b, op) && Killed(b, c)
    ensures TookAndKilled(a, c, op, true)
  {
    assert c[..|b|][..|a|] == c[..|a|] && c[..|b|][|a|] == c[|a|];
  }

  lemma SampledOn(a: seq<Move>, b: seq<Move>, c: seq<Move>, inp: SampleInput)
    requires SampledFirst(a, b, inp) && Grew(b, c)
    ensures SampledFirst(a, c, inp) && Grew(a, c)
  {
    assert c[..|b|][..|a|] == c[..|a|] && c[..|b|][|a|] == c[|a|];
  }

  /** Some step of the history from `n` on is a sample. */
  ghost predicate SampledSince(n: nat, now: seq<Move>) {
    exists i :: n <= i < |now| && now[i].Sampling?
  }

  lemma SampledLater(a: seq<Move>, b: seq<Move>, c: seq<Move>, d: seq<Move>, inp: SampleInput)
    requires Grew(a, b) && SampledFirst(b, c, inp) && Grew(c, d)
    ensures Grew(a, d) && SampledSince(|a|, d)
  {
    SampledOn(b, c, d, inp);
    GrewOn(a, b, d);
    assert d[|b|].Sampling?;
  }

  lemma OnePin(keyId: Id, key: PublicKey)
    ensures KeyMap([Pin(keyId, key)]) == map[keyId := key]
  {
    assert [Pin(keyId, key)][..0] == [];
  }

  lemma ReleaseIsLegal(su: Setup, r: Supervisor.Run, at: Time)
    requires RunInv(su, r) && r.journal != [] && r.pending.Some? && at == r.clock
    ensures Legal(su, r, Release(at))
    ensures NextRun(su, r, Release(at)) == r.(pending := None, released := r.released + [r.pending.value])
  {
    ChargedInRange(su, r);
    ApplyNone(su.cfg, r.core);
    AppendNothing(su, r.journal);
    hide RunInv, ApplyAll, AllEnabled, Append;
  }

  /** Starting, as an operation of the ledger. */
  lemma StartOp(cfg: Config, c: Core, baseline: Sample)
    requires c.phase == ARMING
    ensures Internal(Start(baseline)) && Enabled(c, Start(baseline))
    ensures Apply(cfg, c, Start(baseline))
         == Step(c.(phase := RUNNING), Outcome([RunStarted(baseline)], None, None))
  {
  }

  /** The state after a committed request. */
  ghost function ServedRun(su: Setup, r: Supervisor.Run, st: Move, c: Core, events: seq<Event>,
          reply: Reply): Supervisor.Run
    requires st.Serve? && |st.stamps| == |events|
  {
    Supervisor.Run(if Latches(events) then c.(stopLatchedUs := Some(st.at)) else c, r.meter,
                   Append(su.Signer(), r.journal, events, st.stamps), st.at,
                   r.requests[st.key := Stored(su.digest(st.request), reply)],
                   if reply.result.Some? && reply.result.value.Dispatched? then Some(reply.result.value.actionId)
                   else None,
                   r.released)
  }

  /** Only a running run dispatches, so no request takes effects out of the control group. */
  lemma ContainedServed(su: Setup, r: Supervisor.Run, q: Request, channel: Id, req: Id, inp: Inputs, c: Core,
          events: seq<Event>)
    requires DispatchedAs(su, r.core, RequestOp(su, r.core, q, channel, req, inp), c, events)
    ensures c.phase == RUNNING ==> r.core.phase == RUNNING
    ensures r.core.phase != RUNNING && r.core.actions == Empty() ==> c.actions == Empty()
  {
    hide PolicyAllows, ChargeOf, ObservedCharge, SweepEvents, AuditOf, FinishedRec, TokenSigned;
  }

  lemma UnservedIsLegal(su: Setup, r: Supervisor.Run, st: Move)
    requires RunInv(su, r) && r.journal != [] && r.pending == None
    requires st.Serve? && !Commits(su, r, st.key, st.request, st.channel, st.inputs) && st.stamps == []
             && st.at == r.clock
    ensures Legal(su, r, st) && !IsCommitted(su, r, st)
  {
    ChargedInRange(su, r);
    assert ApplyAll(su.cfg, r.core, []) == (r.core, []) && AllEnabled(su.cfg, r.core, []);
    hide Commits, RunInv;
  }

  /** What an answered request leaves behind. */
  lemma ServedFacts(su: Setup, r: Supervisor.Run, key: Key, q: Request, channel: Option<Id>, inp: Inputs, c: Core,
          events: seq<Event>)
    requires RunInv(su, r)
    requires DispatchedAs(su, r.core, RequestOp(su, r.core, q, ChannelOf(channel), key.id, inp), c, events)
    ensures ReplyTo(su, r.core, q, ChannelOf(channel), key.id, inp).error == Some(BUSY) ==> c == r.core
    ensures Raises(r.core.phase, q) ==> c == r.core
    ensures c.charged > U_MAX ==> q.ReserveReq?
    ensures c.phase == STOPPING && !Latches(events) ==> r.core.phase == STOPPING
    ensures c.killIssuedAtUs == r.core.killIssuedAtUs && (c.phase == UNCONFIRMED ==> r.core.phase == UNCONFIRMED)
    ensures c.stopLatchedUs == r.core.stopLatchedUs
  {
    ChargedInRange(su, r);
    hide RunInv, TokenSigned, PolicyAllows, ChargeOf, ObservedCharge;
    var op := RequestOp(su, r.core, q, ChannelOf(channel), key.id, inp);
    if op.Some? {
      ApplyFrame(su.cfg, r.core, op.value);
      if !op.value.Reserve? { ChargedKept(su.cfg, r.core, op.value); }
      OpFacts(su.cfg, r.core, op.value);
      RequestsNeverKill(su, r.core, q, ChannelOf(channel), key.id, inp);
    }
  }

  /** No request kills, or gives up on a kill. */
  lemma RequestsNeverKill(su: Setup, c: Core, q: Request, channel: Id, req: Id, inp: Inputs)
    ensures var op := RequestOp(su, c, q, channel, req, inp);
            op.Some? ==> !op.value.Kill? && !op.value.Unconfirm?
                         && (Apply(su.cfg, c, op.value).core.phase == UNCONFIRMED ==> c.phase == UNCONFIRMED)
  {
    hide PolicyAllows, ChargeOf, ObservedCharge, SweepEvents, AuditOf, FinishedRec, TokenSigned;
  }

  /** An operation answered with BUSY changes nothing, and a phase only becomes STOPPING with a latch. */
  lemma OpFacts(cfg: Config, c: Core, op: Op)
    ensures Apply(cfg, c, op).out.error == Some(BUSY) ==> Apply(cfg, c, op).core == c
    ensures Apply(cfg, c, op).core.phase == STOPPING && c.phase != STOPPING ==> Latches(Apply(cfg, c, op).out.events)
  {
    hide PolicyAllows, ChargeOf, ObservedCharge, SweepEvents, AuditOf, FinishedRec, Latches;
    forall s: Step, reason: Reason ensures CanLatch(s.core) ==> Latches(Latch(s, reason).out.events) {
      LatchShows(s, reason);
    }
  }

  lemma LatchShows(s: Step, reason: Reason)
    ensures CanLatch(s.core) ==> Latches(Latch(s, reason).out.events)
  {
    if CanLatch(s.core) {
      assert Latch(s, reason).out.events[|s.out.events|] == StopLatched(reason);
    }
  }

  /** The ledger has answered a new request, and the answer is to be committed. */
  ghost predicate Answered(su: Setup, r: Supervisor.Run, key: Key, q: Request, channel: Option<Id>, inp: Inputs,
          c: Core, events: seq<Event>, reply: Reply)
  {
    && r.journal != [] && r.pending == None && SurfaceAllows(q, channel) && key !in r.requests
    && !Raises(r.core.phase, q) && c.charged <= U_MAX
    && reply == ReplyTo(su, r.core, q, ChannelOf(channel), key.id, inp) && reply.error != Some(BUSY)
    && DispatchedAs(su, r.core, RequestOp(su, r.core, q, ChannelOf(channel), key.id, inp), c, events)
  }

  /** Storing the reply is a legal step once the events are stamped. */
  lemma ServedIsLegal(su: Setup, r: Supervisor.Run, st: Move, c: Core, events: seq<Event>, reply: Reply)
    requires st.Serve? && Answered(su, r, st.key, st.request, st.channel, st.inputs, c, events, reply)
    requires |st.stamps| == |events| && Stamped(r.journal, r.clock, st.stamps, st.at)
    ensures Legal(su, r, st)
    ensures NextRun(su, r, st) == ServedRun(su, r, st, c, events, reply)
  {
    hide ReplyTo, RequestOp, Apply, Enabled, ApplyAll, AllEnabled, Append, Latches, Ordered;
    var op := RequestOp(su, r.core, st.request, ChannelOf(st.channel), st.key.id, st.inputs);
    ServeOpsAre(su, r, st);
    hide OpsOf;
    if op.Some? {
      ApplyOne(su.cfg, r.core, op.value);
    } else {
      ApplyNone(su.cfg, r.core);
    }
  }

  lemma ServeOpsAre(su: Setup, r: Supervisor.Run, st: Move)
    requires st.Serve? && SurfaceAllows(st.request, st.channel) && st.key !in r.requests
    requires ReplyTo(su, r.core, st.request, ChannelOf(st.channel), st.key.id, st.inputs).error != Some(BUSY)
    requires !Raises(r.core.phase, st.request)
    ensures var op := RequestOp(su, r.core, st.request, ChannelOf(st.channel), st.key.id, st.inputs);
            OpsOf(su, r, st) == (if op.None? then [] else [op.value])
    ensures Commits(su, r, st.key, st.request, st.channel, st.inputs)
  {
    hide ReplyTo, RequestOp;
  }

  /** The effect of a request on the ledger, by the operation it amounts to. */
  ghost predicate DispatchedAs(su: Setup, c: Core, op: Option<Op>, c': Core, events: seq<Event>) {
    match op
    case None => c' == c && events == []
    case Some(op) => Enabled(c, op) && c' == Apply(su.cfg, c, op).core && events == Apply(su.cfg, c, op).out.events
  }

  // ---- the drain ----

  /** How the drain left an action it found dispatched: failed with its exit if that was seen, unknown if it
      was released without one, failed without a result if it was never released. */
  ghost predicate DrainedAs(was: ActionRec, now: ActionRec, children: seq<Id>, exits: map<Id, Exit>) {
    if was.state != DISPATCHED then now == was
    else if was.actionId in exits then
      now == was.(state := ACTION_HAS_FAILED, error := Some(ACTION_FAILED),
                  result := Some(SpawnResult(exits[was.actionId])), exit := Some(exits[was.actionId]))
    else if was.actionId in children then now == was.(state := UNKNOWN, error := Some(ACTION_FAILED))
    else now == was.(state := ACTION_HAS_FAILED, error := Some(ACTION_FAILED), result := None, exit := None)
  }

  ghost predicate AllDrained(was: map<Id, ActionRec>, now: map<Id, ActionRec>, children: seq<Id>,
          exits: map<Id, Exit>) {
    && now.Keys == was.Keys
    && (forall id :: id in exits ==> id in children)
    && forall id :: id in now ==> now[id].state != DISPATCHED && DrainedAs(was[id], now[id], children, exits)
  }

  /** Resolving one action: everything else stays. */
  ghost predicate Resolved(c: Core, c': Core, children: seq<Id>, children': seq<Id>, id: Id, exit: Option<Exit>) {
    && id in c.actions.at && id in c'.actions.at
    && c' == c.(inflight := c'.inflight, actions := c.actions.(at := c.actions.at[id := c'.actions.at[id]]))
    && (exit.Some? ==> id in children)
    && DrainedAs(c.actions.at[id], c'.actions.at[id], children, if exit.Some? then map[id := exit.value] else map[])
    && (forall k :: k != id ==> (k in children' <==> k in children))
  }

  /** The drain after the first `i` actions: what was applied, and what each became. */
  ghost predicate Draining(cfg: Config, c0: Core, children0: seq<Id>, c: Core, children: seq<Id>, ops: seq<Op>,
          events: seq<Event>, exits: map<Id, Exit>, i: nat)
  {
    && c0.actions.Valid() && i <= |c0.actions.order|
    && (forall k :: k in c0.actions.at ==> c0.actions.at[k].actionId == k)
    && (c, events) == ApplyAll(cfg, c0, ops) && Resolves(ops)
    && c == c0.(inflight := c.inflight, actions := c0.actions.(at := c.actions.at))
    && c.actions.at.Keys == c0.actions.at.Keys
    && (forall id :: id in exits ==> id in children0)
    && (forall j :: 0 <= j < i ==> DrainedNow(c0, children0, c, exits, c0.actions.order[j]))
    && (forall j :: i <= j < |c0.actions.order| ==> Untouched(c0, children0, c, children, exits, c0.actions.order[j]))
  }

  ghost predicate DrainedNow(c0: Core, children0: seq<Id>, c: Core, exits: map<Id, Exit>, id: Id) {
    && id in c0.actions.at && id in c.actions.at
    && c.actions.at[id].state != DISPATCHED && DrainedAs(c0.actions.at[id], c.actions.at[id], children0, exits)
  }

  ghost predicate Untouched(c0: Core, children0: seq<Id>, c: Core, children: seq<Id>, exits: map<Id, Exit>, id: Id) {
    && id in c0.actions.at && id in c.actions.at && c.actions.at[id] == c0.actions.at[id]
    && id !in exits && (id in children <==> id in children0)
  }

  lemma AllAreDrained(was: map<Id, ActionRec>, now: map<Id, ActionRec>, children: seq<Id>, exits: map<Id, Exit>)
    requires AllDrained(was, now, children, exits)
    ensures Drained(now)
  {
    hide DrainedAs;
  }

  lemma ActionFacts(su: Setup, steps: seq<Move>)
    requires History(su, steps)
    ensures var c := After(su, steps).core;
            && c.actions.Valid() && (forall k :: k in c.actions.at ==> c.actions.at[k].actionId == k)
            && (c.inflight == 0 <==> Drained(c.actions.at))
  {
    hide History, After, Faithful, Timed, Released, Drained;
    Reachable(su, steps);
    var c := After(su, steps).core;
    Parts(su.cfg, c);
    ActionsWithinBudget(su.cfg, c);
  }

  lemma DrainStarts(cfg: Config, c: Core, children: seq<Id>)
    requires c.actions.Valid() && forall k :: k in c.actions.at ==> c.actions.at[k].actionId == k
    ensures Draining(cfg, c, children, c, children, [], [], map[], 0)
  {
  }

  lemma DrainAt(cfg: Config, c0: Core, children0: seq<Id>, c: Core, children: seq<Id>, ops: seq<Op>,
          events: seq<Event>, exits: map<Id, Exit>, i: nat)
    requires Draining(cfg, c0, children0, c, children, ops, events, exits, i) && i < |c0.actions.order|
    ensures var id := c0.actions.order[i];
            && id in c0.actions.at && id in c.actions.at && c.actions.at[id].actionId == id
            && c.actions.at[id] == c0.actions.at[id]
            && id !in exits && (id in children <==> id in children0)
    ensures c.phase == c0.phase && c.actions.order == c0.actions.order
  {
    hide ApplyAll, Resolves;
    assert Untouched(c0, children0, c, children, exits, c0.actions.order[i]);
  }

  function ExitOf(exits: map<Id, Exit>, id: Id): Option<Exit> {
    if id in exits then Some(exits[id]) else None
  }

  /** Every action that was dispatched to a child is in `seen` with the exit it was drained by. */
  ghost predicate SeenFor(at: map<Id, ActionRec>, children: seq<Id>, exits: map<Id, Exit>, seen: seq<Sighting>) {
    forall id :: id in at && at[id].state == DISPATCHED && id in children ==> Sighting(id, ExitOf(exits, id)) in seen
  }

  ghost predicate SeenUpTo(actions: Dict<Id, ActionRec>, children: seq<Id>, exits: map<Id, Exit>, seen: seq<Sighting>,
          i: nat)
  {
    actions.Valid() && i <= |actions.order|
    && forall j :: 0 <= j < i ==>
         var id := actions.order[j];
         id in actions.at && actions.at[id].state == DISPATCHED && id in children ==>
           Sighting(id, ExitOf(exits, id)) in seen
  }

  lemma SeenStarts(actions: Dict<Id, ActionRec>, children: seq<Id>)
    requires actions.Valid()
    ensures SeenUpTo(actions, children, map[], [], 0)
  {
  }

  lemma SeenMore(actions: Dict<Id, ActionRec>, children: seq<Id>, exits: map<Id, Exit>, seen: seq<Sighting>, i: nat,
          exit: Option<Exit>)
    requires SeenUpTo(actions, children, exits, seen, i) && i < |actions.order|
    requires actions.order[i] !in exits && (actions.order[i] !in children ==> exit == None)
    ensures var id := actions.order[i];
            SeenUpTo(actions, children, if exit.Some? then exits[id := exit.value] else exits,
                     seen + (if id in children then [Sighting(id, exit)] else []), i + 1)
  {
    var id := actions.order[i];
    var exits' := if exit.Some? then exits[id := exit.value] else exits;
    assert forall j :: 0 <= j < i ==> ExitOf(exits', actions.order[j]) == ExitOf(exits, actions.order[j]);
    assert ExitOf(exits', id) == exit;
  }

  lemma SeenSame(actions: Dict<Id, ActionRec>, children: seq<Id>, exits: map<Id, Exit>, seen: seq<Sighting>, i: nat)
    requires SeenUpTo(actions, children, exits, seen, i) && i < |actions.order|
    requires actions.order[i] in actions.at && actions.at[actions.order[i]].state != DISPATCHED
    ensures SeenUpTo(actions, children, exits, seen, i + 1)
  {
  }

  lemma SeenAll(actions: Dict<Id, ActionRec>, children: seq<Id>, exits: map<Id, Exit>, seen: seq<Sighting>)
    requires SeenUpTo(actions, children, exits, seen, |actions.order|)
    ensures SeenFor(actions.at, children, exits, seen)
  {
    forall id | id in actions.at && actions.at[id].state == DISPATCHED && id in children
      ensures Sighting(id, ExitOf(exits, id)) in seen
    {
      var j :| 0 <= j < |actions.order| && actions.order[j] == id;
    }
  }

  lemma DrainSkip(cfg: Config, c0: Core, children0: seq<Id>, c: Core, children: seq<Id>, ops: seq<Op>,
          events: seq<Event>, exits: map<Id, Exit>, i: nat)
    requires Draining(cfg, c0, children0, c, children, ops, events, exits, i) && i < |c0.actions.order|
    requires c0.actions.order[i] in c.actions.at && c.actions.at[c0.actions.order[i]].state != DISPATCHED
    ensures Draining(cfg, c0, children0, c, children, ops, events, exits, i + 1)
  {
    hide ApplyAll, Resolves;
  }

  /** One more resolved action. */
  lemma DrainStep(cfg: Config, c0: Core, children0: seq<Id>, c: Core, children: seq<Id>, c': Core, children': seq<Id>,
          ops: seq<Op>, events: seq<Event>, exits: map<Id, Exit>, i: nat, op: Op, out: Outcome, exit: Option<Exit>)
    requires Draining(cfg, c0, children0, c, children, ops, events, exits, i) && i < |c0.actions.order|
    requires c0.actions.order[i] in c.actions.at && c.actions.at[c0.actions.order[i]].state == DISPATCHED
    requires op.Finish? || op.GiveUp?
    requires c' == Apply(cfg, c, op).core && out == Apply(cfg, c, op).out
    requires Resolved(c, c', children, children', c0.actions.order[i], exit)
    ensures var id := c0.actions.order[i];
            Draining(cfg, c0, children0, c', children', ops + [op], events + out.events,
                     if exit.Some? then exits[id := exit.value] else exits, i + 1)
  {
    hide ApplyAll, Resolves, Apply, DrainedAs;
    DrainApplied(cfg, c0, c, ops, events, op, out);
    var id, order := c0.actions.order[i], c0.actions.order;
    var exits' := if exit.Some? then exits[id := exit.value] else exits;
    assert Untouched(c0, children0, c, children, exits, id);
    DrainedOne(c, c', children, children', children0, id, exits, exit);
    forall k | k != id && k in c0.actions.at
      ensures DrainedNow(c0, children0, c, exits, k) ==> DrainedNow(c0, children0, c', exits', k)
      ensures Untouched(c0, children0, c, children, exits, k) ==> Untouched(c0, children0, c', children', exits', k)
    {
      DrainElsewhere(c0, children0, c, children, c', children', exits, id, exit, k);
    }
    assert forall j :: 0 <= j < |order| && j != i ==> order[j] != id && order[j] in c0.actions.at;
    hide Untouched;
  }

  /** Resolving an action changes nothing for another one. */
  lemma DrainElsewhere(c0: Core, children0: seq<Id>, c: Core, children: seq<Id>, c': Core, children': seq<Id>,
          exits: map<Id, Exit>, id: Id, exit: Option<Exit>, k: Id)
    requires Resolved(c, c', children, children', id, exit) && k != id
    requires k in c0.actions.at && c0.actions.at[k].actionId == k
    ensures var exits' := if exit.Some? then exits[id := exit.value] else exits;
            && (DrainedNow(c0, children0, c, exits, k) ==> DrainedNow(c0, children0, c', exits', k))
            && (Untouched(c0, children0, c, children, exits, k) ==> Untouched(c0, children0, c', children', exits', k))
  {
  }

  lemma DrainedOne(c: Core, c': Core, children: seq<Id>, children': seq<Id>, children0: seq<Id>, id: Id,
          exits: map<Id, Exit>, exit: Option<Exit>)
    requires Resolved(c, c', children, children', id, exit) && id !in exits && (id in children <==> id in children0)
    requires c.actions.at[id].actionId == id && c.actions.at[id].state == DISPATCHED
    ensures DrainedAs(c.actions.at[id], c'.actions.at[id], children0,
            if exit.Some? then exits[id := exit.value] else exits)
    ensures c'.actions.at[id].state != DISPATCHED
  {
  }

  lemma DrainApplied(cfg: Config, c0: Core, c: Core, ops: seq<Op>, events: seq<Event>, op: Op, out: Outcome)
    requires (c, events) == ApplyAll(cfg, c0, ops) && Resolves(ops) && (op.Finish? || op.GiveUp?)
    requires out == Apply(cfg, c, op).out
    ensures ApplyAll(cfg, c0, ops + [op]) == (Apply(cfg, c, op).core, events + out.events) && Resolves(ops + [op])
  {
    hide Apply;
    assert (ops + [op])[..|ops|] == ops;
  }

  lemma DrainEnds(cfg: Config, c0: Core, children0: seq<Id>, c: Core, children: seq<Id>, ops: seq<Op>,
          events: seq<Event>, exits: map<Id, Exit>)
    requires Draining(cfg, c0, children0, c, children, ops, events, exits, |c0.actions.order|)
    ensures AllDrained(c0.actions.at, c.actions.at, children0, exits)
    ensures (c, events) == ApplyAll(cfg, c0, ops) && Resolves(ops)
    ensures c.phase == c0.phase && (c0.actions == Empty() ==> c.actions == Empty())
  {
    hide ApplyAll, Resolves, DrainedAs;
    forall id | id in c.actions.at ensures DrainedNow(c0, children0, c, exits, id) {
      var j :| 0 <= j < |c0.actions.order| && c0.actions.order[j] == id;
    }
  }

  lemma {:induction false} ResolvesEnabled(cfg: Config, c: Core, ops: seq<Op>)
    requires Resolves(ops)
    ensures AllEnabled(cfg, c, ops) && ApplyAll(cfg, c, ops).0.charged == c.charged
  {
    hide Apply;
    if ops != [] {
      var n := |ops| - 1;
      ResolvesEnabled(cfg, c, ops[..n]);
      ChargedKept(cfg, ApplyAll(cfg, c, ops[..n]).0, ops[n]);
    }
  }

  lemma DrainIsLegal(su: Setup, r: Supervisor.Run, ops: seq<Op>, stamps: seq<Stamp>, at: Time)
    requires RunInv(su, r) && r.journal != [] && Resolves(ops)
    requires |stamps| == |ApplyAll(su.cfg, r.core, ops).1| && Stamped(r.journal, r.clock, stamps, at)
    ensures var (c, events) := ApplyAll(su.cfg, r.core, ops);
            && Legal(su, r, Move.Drain(ops, stamps, at))
            && NextRun(su, r, Move.Drain(ops, stamps, at)) == Commit(su, r, c, events, stamps, at)
  {
    ResolvesEnabled(su.cfg, r.core, ops);
    ChargedInRange(su, r);
    hide ApplyAll, AllEnabled, Append, Latches, RunInv, Ordered;
  }

  /** The action, if there is one, is no longer dispatched. */
  ghost predicate Settled(actions: map<Id, ActionRec>, id: Id) {
    id in actions ==> actions[id].state != DISPATCHED
  }

  lemma FinishKeepsContained(c: Core, id: Id, result: Option<ActionResult>, error: Option<Code>, exit: Option<Exit>)
    ensures var c' := FinishAction(c, id, result, error, exit).core;
            c'.phase == c.phase && (c.actions == Empty() ==> c'.actions == Empty())
  {
  }

  lemma SettlesOne(c: Core, id: Id, result: Option<ActionResult>, error: Option<Code>, exit: Option<Exit>)
    requires c.phase in {RUNNING, STOPPING, UNCONFIRMED}
    ensures var at := FinishAction(c, id, result, error, exit).core.actions.at;
            Settled(at, id) && forall k :: Settled(c.actions.at, k) ==> Settled(at, k)
  {
  }

  lemma SettlesAlways(c: Core, id: Id, result: Option<ActionResult>, error: Option<Code>, exit: Option<Exit>)
    ensures c.phase in {RUNNING, STOPPING, UNCONFIRMED} ==>
              Settled(FinishAction(c, id, result, error, exit).core.actions.at, id)
  {
  }

  /** The first exit seen of a process. */
  ghost function FirstExit(seen: seq<Sighting>, k: Id): Option<Exit> {
    if seen == [] then None
    else
      var e := FirstExit(seen[..|seen| - 1], k);
      if e.Some? then e else if seen[|seen| - 1].process == k then seen[|seen| - 1].exit else None
  }

  ghost predicate Further(was: seq<Sighting>, now: seq<Sighting>) {
    |was| <= |now| && now[..|was|] == was
  }

  /** Every child in turn was looked at once. */
  ghost predicate LookedAt(children: seq<Id>, seen: seq<Sighting>) {
    |seen| == |children| && forall i :: 0 <= i < |children| ==> seen[i].process == children[i]
  }

  /** What an observed exit makes of an action: succeeded on exit code 0, failed with the exit on any other. */
  function EndedAs(was: ActionRec, exit: Option<Exit>): ActionRec {
    if was.state != DISPATCHED || exit.None? then was
    else if exit.value == Exited(0) then was.(state := SUCCEEDED, result := Some(SpawnResult(exit.value)))
    else was.(state := ACTION_HAS_FAILED, error := Some(ACTION_FAILED), result := Some(SpawnResult(exit.value)),
              exit := exit)
  }

  lemma FinishEnds(c: Core, id: Id, exit: Exit)
    requires c.phase in {RUNNING, STOPPING, UNCONFIRMED}
    ensures var error := if exit == Exited(0) then None else Some(ACTION_FAILED);
            var actions := FinishAction(c, id, Some(SpawnResult(exit)), error, Some(exit)).core.actions;
            && actions.order == c.actions.order && actions.at.Keys == c.actions.at.Keys
            && forall k :: k in actions.at ==>
                 actions.at[k] == EndedAs(c.actions.at[k], if k == id then Some(exit) else None)
  {
    hide AuditOf;
  }

  /** The actions after the sightings so far. */
  ghost predicate EndedBy(was: Dict<Id, ActionRec>, now: Dict<Id, ActionRec>, seen: seq<Sighting>) {
    && now.order == was.order && now.at.Keys == was.at.Keys
    && forall k :: k in now.at ==> now.at[k] == EndedAs(was.at[k], FirstExit(seen, k))
  }

  lemma EndsNone(at: map<Id, ActionRec>)
    ensures forall k :: k in at ==> EndedAs(at[k], None) == at[k]
  {
  }

  lemma SeenNone()
    ensures forall k :: FirstExit([], k) == None
  {
  }

  lemma SeenNothing(was: Dict<Id, ActionRec>)
    ensures EndedBy(was, was, [])
  {
  }

  lemma SeenOne(was: Dict<Id, ActionRec>, before: Dict<Id, ActionRec>, now: Dict<Id, ActionRec>, seen: seq<Sighting>,
          id: Id, exit: Option<Exit>)
    requires EndedBy(was, before, seen)
    requires now.order == before.order && now.at.Keys == before.at.Keys
    requires forall k :: k in now.at ==> now.at[k] == EndedAs(before.at[k], if k == id then exit else None)
    ensures EndedBy(was, now, seen + [Sighting(id, exit)])
    ensures forall k :: FirstExit(seen + [Sighting(id, exit)], k)
                     == if FirstExit(seen, k).Some? then FirstExit(seen, k) else if k == id then exit else None
  {
    assert (seen + [Sighting(id, exit)])[..|seen|] == seen;
  }

  function Without(s: seq<Id>, x: Id): (r: seq<Id>)
    ensures forall y :: y in r <==> y in s && y != x
  {
    if s == [] then []
    else Without(s[..|s| - 1], x) + (if s[|s| - 1] == x then [] else [s[|s| - 1]])
  }

  /** A recorded or faulted sample is a legal step once its events are stamped. */
  lemma SamplingIsLegal(su: Setup, r: Supervisor.Run, inp: SampleInput, stamps: seq<Stamp>, at: Time)
    requires RunInv(su, r) && su.rapl && |inp.shown| == |su.domains| && r.core.phase in {RUNNING, STOPPING, UNCONFIRMED}
    requires r.journal != []
    requires var (c, events) := ApplyAll(su.cfg, r.core, SampleOps(su, r, inp));
             |stamps| == |events| && Stamped(r.journal, r.clock, stamps, at)
    ensures var st := Sampling(inp, stamps, at);
            var (c, events) := ApplyAll(su.cfg, r.core, SampleOps(su, r, inp));
            && Legal(su, r, st)
            && NextRun(su, r, st)
               == Commit(su, r, c, events, stamps, at).(meter := TakeSample(su.domains, su.staleUs, r.meter, inp).0)
  {
    SampleOpsEnabled(su, r, inp);
    ChargedInRange(su, r);
    hide ApplyAll, AllEnabled, SampleOps, TakeSample, Append, Latches, RunInv, Ordered;
  }

  lemma SampleOpsEnabled(su: Setup, r: Supervisor.Run, inp: SampleInput)
    requires |inp.shown| == |su.domains| && r.core.phase in {RUNNING, STOPPING, UNCONFIRMED}
    ensures AllEnabled(su.cfg, r.core, SampleOps(su, r, inp))
    ensures ApplyAll(su.cfg, r.core, SampleOps(su, r, inp)).0.charged == r.core.charged
  {
    hide TakeSample, GuardEval;
    var ops := SampleOps(su, r, inp);
    ApplyOne(su.cfg, r.core, ops[0]);
    ChargedKept(su.cfg, r.core, ops[0]);
    assert ops[..1] == [ops[0]];
    if |ops| == 2 {
      ChargedKept(su.cfg, Apply(su.cfg, r.core, ops[0]).core, ops[1]);
    } else {
      assert ops == [ops[0]];
    }
  }

  lemma FaultOps(su: Setup, r: Supervisor.Run, inp: SampleInput)
    requires |inp.shown| == |su.domains| && TakeSample(su.domains, su.staleUs, r.meter, inp).1 == None
    ensures var s := Fault(r.core, SENSOR_FAULT);
            ApplyAll(su.cfg, r.core, SampleOps(su, r, inp)) == (s.core, s.out.events)
  {
    hide TakeSample;
    ApplyOne(su.cfg, r.core, Observe(SENSOR_FAULT));
  }

  /** What a recorded sample applies, given the guard's verdict on the new total. */
  lemma RecordedSample(su: Setup, r: Supervisor.Run, inp: SampleInput, sample: Sample, reason: Option<Reason>)
    requires |inp.shown| == |su.domains| && TakeSample(su.domains, su.staleUs, r.meter, inp).1 == Some(sample)
    requires reason == if r.core.phase == RUNNING && su.cfg.budgets.maxEnergyUj.Some?
                       then GuardEval(TakeSample(su.domains, su.staleUs, r.meter, inp).0.energyUj,
                                      su.cfg.budgets.maxEnergyUj.value, su.Reserve())
                       else None
    ensures var s := if reason.None? then Silent(r.core) else Stop(r.core, reason.value);
            ApplyAll(su.cfg, r.core, SampleOps(su, r, inp)) == (s.core, [SampleRecorded(sample)] + s.out.events)
  {
    hide TakeSample, GuardEval;
    var e := [SampleRecorded(sample)];
    ApplyOne(su.cfg, r.core, Record(sample));
    if reason.None? {
      assert SampleOps(su, r, inp) == [Record(sample)] && e + [] == e;
    } else {
      var ops := [Record(sample), Halt(reason.value)];
      assert SampleOps(su, r, inp) == ops && ops[..1] == [Record(sample)];
    }
  }

  lemma FinalOpsApplied(su: Setup, r: Supervisor.Run, inp: SampleInput)
    requires |inp.shown| == |su.domains|
    ensures var fails := TakeFinal(su.domains, su.staleUs, r.meter, inp).1.None?;
            var s := Fault(r.core, SENSOR_FAULT);
            && ApplyAll(su.cfg, r.core, FinalOps(su, r, inp))
               == (if fails then (s.core, s.out.events) else (r.core, []))
            && AllEnabled(su.cfg, r.core, FinalOps(su, r, inp)) && s.core.charged == r.core.charged
  {
    hide TakeFinal;
    ApplyOne(su.cfg, r.core, Observe(SENSOR_FAULT));
  }

  lemma FinalIsLegal(su: Setup, r: Supervisor.Run, inp: SampleInput, stamps: seq<Stamp>, at: Time)
    requires RunInv(su, r) && su.rapl && |inp.shown| == |su.domains| && r.core.phase in {STOPPING, UNCONFIRMED}
    requires r.journal != []
    requires var (c, events) := ApplyAll(su.cfg, r.core, FinalOps(su, r, inp));
             |stamps| == |events| && Stamped(r.journal, r.clock, stamps, at)
    ensures var st := FinalReading(inp, stamps, at);
            var (c, events) := ApplyAll(su.cfg, r.core, FinalOps(su, r, inp));
            && Legal(su, r, st)
            && NextRun(su, r, st)
               == Commit(su, r, c, events, stamps, at).(meter := TakeFinal(su.domains, su.staleUs, r.meter, inp).0)
  {
    FinalOpsApplied(su, r, inp);
    ChargedInRange(su, r);
    hide ApplyAll, AllEnabled, FinalOps, TakeFinal, Append, Latches, RunInv, Ordered;
  }

  /** Two commits in a row are one commit of both lists of events. */
  lemma JoinCommits(su: Setup, r: Supervisor.Run, e1: seq<Event>, s1: seq<Stamp>, t1: Time, e2: seq<Event>,
          s2: seq<Stamp>, t2: Time)
    requires |s1| == |e1| && |s2| == |e2| && !Latches(e1)
    requires Stamped(r.journal, r.clock, s1, t1)
    requires Stamped(Append(su.Signer(), r.journal, e1, s1), t1, s2, t2)
    ensures Stamped(r.journal, r.clock, s1 + s2, t2)
    ensures Append(su.Signer(), Append(su.Signer(), r.journal, e1, s1), e2, s2)
         == Append(su.Signer(), r.journal, e1 + e2, s1 + s2)
    ensures Latches(e1 + e2) <==> Latches(e2)
  {
    hide *;
    var s := su.Signer();
    AppendAppend(s, r.journal, e1, s1, e2, s2);
    AppendedStamps(s, r.journal, e1, s1);
    var j := Append(s, r.journal, e1, s1);
    assert j[..|r.journal|] == r.journal;
    JoinStamps(r.journal, j, r.clock, s1, t1, s2, t2);
    JoinLatches(e1, e2);
  }

  lemma JoinStamps(j: seq<Entry>, j1: seq<Entry>, from: Time, s1: seq<Stamp>, t1: Time, s2: seq<Stamp>, t2: Time)
    requires Stamped(j, from, s1, t1) && Stamped(j1, t1, s2, t2)
    requires j <= j1 && |j1| == |j| + |s1|
    requires forall i :: 0 <= i < |s1| ==> j1[|j| + i].body.eventId == s1[i].eventId
    ensures Stamped(j, from, s1 + s2, t2)
  {
    assert Ordered(from, s1 + s2);
    hide Ordered;
    var s := s1 + s2;
    forall i, k | 0 <= i < k < |s| ensures s[i].eventId != s[k].eventId {
      if i < |s1| <= k {
        assert j1[|j| + i].body.eventId == s1[i].eventId && s2[k - |s1|] == s[k];
      }
    }
    forall i, k | 0 <= i < |s| && 0 <= k < |j| ensures s[i].eventId != j[k].body.eventId {
      assert i >= |s1| ==> s[i] == s2[i - |s1|] && j1[k] == j[k];
    }
  }

  lemma JoinLatches(e1: seq<Event>, e2: seq<Event>)
    requires !Latches(e1)
    ensures Latches(e1 + e2) <==> Latches(e2)
  {
    if Latches(e2) {
      var i :| 0 <= i < |e2| && e2[i].StopLatched?;
      assert (e1 + e2)[|e1| + i].StopLatched?;
    }
  }

  /** A pass that failed does not go on. */
  lemma {:induction false} ReadStops(domains: seq<Domain>, stale: nat, shown: seq<Option<Reading>>, n: nat, m: nat,
          prev: map<Id, Reading>, strict: bool)
    requires n <= m <= |domains| == |shown|
    ensures !ReadUpTo(domains, stale, shown, n, prev, strict).ok ==>
              ReadUpTo(domains, stale, shown, m, prev, strict) == ReadUpTo(domains, stale, shown, n, prev, strict)
  {
    if n < m {
      ReadStops(domains, stale, shown, n, m - 1, prev, strict);
    }
  }

  lemma StartsInitial(su: Setup, steps: seq<Move>)
    requires History(su, steps) && After(su, steps).journal == []
    ensures After(su, steps).core == INITIAL
  {
    Reachable(su, steps);
    hide History, After, Inv, Timed, Released;
  }

  /** A run that can still be stopped has no stop reason yet. */
  lemma UnstoppedIffLive(su: Setup, steps: seq<Move>)
    requires History(su, steps)
    ensures var c := After(su, steps).core;
            && (c.stopReason.Some? <==> c.phase in {STOPPING, UNCONFIRMED, FINALIZING, COMPLETED, KILLED, FAILED})
            && (c.stopReason.Some? <==> c.stopLatchedUs.Some?)
            && c.tokens.Valid() && c.actions.Valid()
  {
    hide History, After, RunInv;
    Reachable(su, steps);
    StopFacts(su, After(su, steps));
  }

  lemma StopFacts(su: Setup, r: Supervisor.Run)
    requires RunInv(su, r)
    ensures r.core.stopReason.Some? <==> r.core.phase in {STOPPING, UNCONFIRMED, FINALIZING, COMPLETED, KILLED, FAILED}
    ensures r.core.stopReason.Some? <==> r.core.stopLatchedUs.Some?
    ensures r.core.tokens.Valid() && r.core.actions.Valid()
  {
    hide Faithful, Released, Paired, ComputesOk, WithinLimits;
    Parts(su.cfg, r.core);
    DictsValid(su.cfg, r.core);
    hide Inv;
  }

  lemma DictsValid(cfg: Config, c: Core)
    requires Inv(cfg, c)
    ensures c.tokens.Valid() && c.actions.Valid()
  {
  }

  lemma NoLatch(events: seq<Event>)
    requires forall i :: 0 <= i < |events| ==> !events[i].StopLatched?
    ensures !Latches(events)
  {
  }

  lemma ChargedInRange(su: Setup, r: Supervisor.Run)
    requires RunInv(su, r)
    ensures r.core.charged <= U_MAX
  {
  }

  lemma ApplyKeepsLatchTime(cfg: Config, c: Core, op: Op)
    ensures Apply(cfg, c, op).core.stopLatchedUs == c.stopLatchedUs
  {
    ApplyFrame(cfg, c, op);
  }
}
