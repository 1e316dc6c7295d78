/** The supervisor of one run as a transition system: every step applies ledger operations, reads the
    energy meter or answers a request, and commits the resulting events to the journal. */
module Supervisor {
  import opened Types
  import opened Dicts
  import opened Ledger
  import opened Metering
  import opened Audit
  import E = Estimator

  /** What a run is started with. `digest` is the hash of a request's method and parameters. */
  datatype Setup = Setup(cfg: Config, seed: Seed, rapl: bool, domains: seq<Domain>, staleUs: nat, killUs: nat,
                         digest: Request -> Hash)
  {
    function Signer(): Audit.Signer { Audit.Signer(cfg.runId, cfg.keyId, seed, cfg.crypto) }
    function Reserve(): int { ReserveUj(domains, staleUs, killUs) }
  }

  datatype Method =
    | RUN_GET | RUN_STOP | EVENTS_READ
    | TOKEN_ISSUE | ACTION_DISPATCH | ACTION_GET | COMPUTE_RESERVE | COMPUTE_FINISH

  /** A request's method and parameters. `Malformed` has parameters, spelled `params`, that the method's field
      checks refuse with `code`. */
  datatype Request =
    | RunGet(runId: Id)
    | RunStop(runId: Id)
    | IssueReq(action: Action)
    | DispatchReq(token: Token, action: Action)
    | ActionGet(actionId: Id)
    | ReserveReq(work: Work)
    | FinishReq(computeId: Id, observed: nat)
    | Malformed(to: Method, code: Code, params: string)

  predicate IsControl(q: Request) {
    q.RunGet? || q.RunStop? || (q.Malformed? && q.to in {RUN_GET, RUN_STOP, EVENTS_READ})
  }

  /** Whether a request goes to this method. */
  predicate Calls(q: Request, m: Method) {
    match q
    case Malformed(to, _, _) => to == m
    case RunGet(_) => m == RUN_GET
    case RunStop(_) => m == RUN_STOP
    case _ => false
  }

  datatype Reply = Reply(result: Option<Payload>, error: Option<Code>)
  datatype Key = Key(principal: string, id: Id)
  datatype Stored = Stored(digest: Hash, reply: Reply)

  /** The supervisor's state. `pending` is a committed dispatch whose effect is still to be released;
      `released` lists the effects released so far; `clock` is the last clock reading. */
  datatype Run = Run(core: Core, meter: Meter, journal: seq<Entry>, clock: Time,
                     requests: map<Key, Stored>, pending: Option<Id>, released: seq<Id>)

  const FRESH := Run(INITIAL, FRESH_METER, [], 0, map[], None, [])

  // ---- committing ----

  predicate Latches(events: seq<Event>) {
    exists i :: 0 <= i < |events| && events[i].StopLatched?
  }

  /** `_commit`: append the events; a committed StopLatched records the time of the latch. */
  function Commit(su: Setup, r: Run, core: Core, events: seq<Event>, stamps: seq<Stamp>, at: Time): Run
    requires |stamps| == |events|
  {
    r.(core := if Latches(events) then core.(stopLatchedUs := Some(at)) else core,
       journal := Append(su.Signer(), r.journal, events, stamps), clock := at)
  }

  /** A list of operations applied in turn, with all their events. */
  function ApplyAll(cfg: Config, c: Core, ops: seq<Op>): (Core, seq<Event>) {
    if ops == [] then (c, [])
    else
      var (c', events) := ApplyAll(cfg, c, ops[..|ops| - 1]);
      var s := Apply(cfg, c', ops[|ops| - 1]);
      (s.core, events + s.out.events)
  }

  ghost predicate AllEnabled(cfg: Config, c: Core, ops: seq<Op>) {
    ops == [] || (var init := ops[..|ops| - 1];
                  AllEnabled(cfg, c, init) && Enabled(ApplyAll(cfg, c, init).0, ops[|ops| - 1]))
  }

  /** Applying one operation. */
  lemma ApplyOne(cfg: Config, c: Core, op: Op)
    ensures ApplyAll(cfg, c, [op]) == (Apply(cfg, c, op).core, Apply(cfg, c, op).out.events)
    ensures AllEnabled(cfg, c, [op]) <==> Enabled(c, op)
  {
    hide Apply, Enabled;
    assert [op][..0] == [];
    assert ApplyAll(cfg, c, []) == (c, []) && AllEnabled(cfg, c, []);
    var s := Apply(cfg, c, op);
    assert [] + s.out.events == s.out.events;
  }

  lemma ApplyNone(cfg: Config, c: Core)
    ensures ApplyAll(cfg, c, []) == (c, []) && AllEnabled(cfg, c, [])
  {
  }

  // ---- sampling ----

  /** After a recorded sample of a running run the guard may demand a stop. */
  function GuardOps(su: Setup, phase: Phase, energy: nat): seq<Op> {
    if phase == RUNNING && su.cfg.budgets.maxEnergyUj.Some? then
      match GuardEval(energy, su.cfg.budgets.maxEnergyUj.value, su.Reserve())
      case None => []
      case Some(reason) => [Halt(reason)]
    else []
  }

  function SampleOps(su: Setup, r: Run, inp: SampleInput): seq<Op>
    requires |inp.shown| == |su.domains|
  {
    var (m, sample) := TakeSample(su.domains, su.staleUs, r.meter, inp);
    if sample.None? then [Observe(SENSOR_FAULT)]
    else [Record(sample.value)] + GuardOps(su, r.core.phase, m.energyUj)
  }

  function FinalOps(su: Setup, r: Run, inp: SampleInput): seq<Op>
    requires |inp.shown| == |su.domains|
  {
    if TakeFinal(su.domains, su.staleUs, r.meter, inp).1.None? then [Observe(SENSOR_FAULT)] else []
  }

  // ---- requests ----

  /** The inputs a request is answered with: the clock and a fresh identifier, if one was found. */
  datatype Inputs = Inputs(now: Time, newId: Option<Id>)

  predicate TokenSigned(su: Setup, t: Token) {
    su.cfg.crypto.verify(su.cfg.crypto.publicKey(su.seed), su.cfg.crypto.tokenMessage(t.body), t.sig)
  }

  /** From FINALIZING on, requests reach no operation. */
  predicate Closed(p: Phase) {
    Terminal(p) || p == FINALIZING
  }

  /** The ledger operation a request amounts to; None for a pure read. */
  function RequestOp(su: Setup, c: Core, q: Request, channel: Id, req: Id, inp: Inputs): Option<Op> {
    if Closed(c.phase) then None
    else match q
      case Malformed(_, code, _) => Some(Refuse(req, code))
      case RunGet(id) => if id != su.cfg.runId then Some(Refuse(req, NOT_FOUND)) else None
      case RunStop(id) => if id != su.cfg.runId then Some(Refuse(req, NOT_FOUND)) else Some(Halt(OPERATOR))
      case IssueReq(a) =>
        if inp.newId.None? then Some(Refuse(req, BUSY)) else Some(Issue(channel, a, inp.now, inp.newId.value, req))
      case DispatchReq(t, a) =>
        if t.body.runId != su.cfg.runId then Some(Refuse(req, TOKEN_BINDING))
        else if t.body.keyId != su.cfg.keyId || !TokenSigned(su, t) then Some(Refuse(req, TOKEN_INVALID))
        else if inp.newId.None? then Some(Refuse(req, BUSY))
        else Some(Dispatch(channel, t.body, a, inp.now, inp.newId.value, req))
      case ActionGet(id) => Some(View(channel, id, req))
      case ReserveReq(w) =>
        if !E.WorkDims(w.inputTokens, w.maxOutputTokens, w.batch) then Some(Refuse(req, INVALID_INPUT))
        else if inp.newId.None? then Some(Refuse(req, BUSY)) else Some(Reserve(channel, w, inp.newId.value, req))
      case FinishReq(id, observed) => Some(Complete(channel, id, observed, req))
  }

  /** What a request that reaches no operation is answered with. */
  function ReadReply(c: Core, q: Request): Reply {
    if Calls(q, RUN_GET) then Reply(Some(StatusView(c.phase, c.charged, c.spawnIssued, c.stopReason)), None)
    else if Calls(q, RUN_STOP) then Reply(Some(StopView(c.phase, c.stopReason)), None)
    else if Calls(q, EVENTS_READ) then Reply(None, Some(q.code))
    else Reply(None, Some(STOPPED))
  }

  /** From FINALIZING on, the error of a malformed `events.read` is raised past the commit. */
  predicate Raises(p: Phase, q: Request) {
    Closed(p) && Calls(q, EVENTS_READ)
  }

  /** The engine signs an issued token's body before it answers. */
  function Signed(su: Setup, p: Option<Payload>): Option<Payload> {
    if p.Some? && p.value.IssuedToken? then
      Some(SignedToken(Token(p.value.body, su.cfg.crypto.sign(su.seed, su.cfg.crypto.tokenMessage(p.value.body))),
                       p.value.remainingSpawns))
    else p
  }

  function ReplyTo(su: Setup, c: Core, q: Request, channel: Id, req: Id, inp: Inputs): Reply {
    match RequestOp(su, c, q, channel, req, inp)
    case None => ReadReply(c, q)
    case Some(op) => var out := Apply(su.cfg, c, op).out; Reply(Signed(su, out.result), out.error)
  }

  /** Control connections may only control, workload channels only request work. */
  predicate SurfaceAllows(q: Request, channel: Option<Id>) {
    channel.None? <==> IsControl(q)
  }

  function ChannelOf(channel: Option<Id>): Id {
    if channel.Some? then channel.value else ""
  }

  /** The reply to a request, and whether it is answered anew or from the table. */
  function Answer(su: Setup, r: Run, key: Key, q: Request, channel: Option<Id>, inp: Inputs): Reply {
    if !SurfaceAllows(q, channel) then Reply(None, Some(UNAUTHORIZED))
    else if key in r.requests then
      if r.requests[key].digest == su.digest(q) then r.requests[key].reply else Reply(None, Some(CONFLICT))
    else ReplyTo(su, r.core, q, ChannelOf(channel), key.id, inp)
  }

  /** Only an authorised request with a new key is committed, unless its answer is BUSY or was raised. */
  predicate Commits(su: Setup, r: Run, key: Key, q: Request, channel: Option<Id>, inp: Inputs) {
    SurfaceAllows(q, channel) && key !in r.requests && !Raises(r.core.phase, q)
    && ReplyTo(su, r.core, q, ChannelOf(channel), key.id, inp).error != Some(BUSY)
  }

  function ServeOps(su: Setup, r: Run, key: Key, q: Request, channel: Option<Id>, inp: Inputs): seq<Op> {
    if !Commits(su, r, key, q, channel, inp) then []
    else match RequestOp(su, r.core, q, ChannelOf(channel), key.id, inp)
      case None => []
      case Some(op) => [op]
  }

  // ---- steps ----

  datatype Move =
    | Exec(op: Op, stamps: seq<Stamp>, at: Time)
    | Sampling(inp: SampleInput, stamps: seq<Stamp>, at: Time)
    | FinalReading(inp: SampleInput, stamps: seq<Stamp>, at: Time)
    | Serve(key: Key, request: Request, channel: Option<Id>, inputs: Inputs, stamps: seq<Stamp>, at: Time)
    | Drain(ops: seq<Op>, stamps: seq<Stamp>, at: Time)
    | Release(at: Time)

  /** The ledger operations of a step. */
  function OpsOf(su: Setup, r: Run, st: Move): seq<Op>
    requires (st.Sampling? || st.FinalReading?) ==> |st.inp.shown| == |su.domains|
  {
    match st
    case Exec(op, _, _) => [op]
    case Sampling(inp, _, _) => SampleOps(su, r, inp)
    case FinalReading(inp, _, _) => FinalOps(su, r, inp)
    case Serve(key, q, channel, inp, _, _) => ServeOps(su, r, key, q, channel, inp)
    case Drain(ops, _, _) => ops
    case Release(_) => []
  }

  /** What the drain of a stopped run applies: every action still dispatched is resolved, in one commit. */
  predicate Resolves(ops: seq<Op>) {
    forall i :: 0 <= i < |ops| ==> ops[i].Finish? || ops[i].GiveUp?
  }

  function StampsOf(st: Move): seq<Stamp> {
    if st.Release? then [] else st.stamps
  }

  /** Operations the supervisor applies on its own, outside requests and samples. */
  predicate Internal(op: Op) {
    match op
    case Create(_) | Arm | Start(_) | NoteExit(_) | Expire(_) | Finish(_, _, _, _) | GiveUp(_, _) => true
    case Kill(_, _, _) | Unconfirm(_) | Emptied(_, _) | End | Reject(_) => true
    case Observe(reason) => IsFaultReason(reason)
    case Halt(reason) => reason != ENERGY_GUARD && reason != MEASUREMENT_OVERRUN
    case _ => false
  }

  /** A step the supervisor can take: its own operations where they are enabled, samples only while the
      run can be metered, fresh identifiers, a clock that does not run backwards, a commit that succeeds. */
  ghost predicate Legal(su: Setup, r: Run, st: Move) {
    && ((st.Sampling? || st.FinalReading?) ==>
          su.rapl && |st.inp.shown| == |su.domains| && r.core.phase in {RUNNING, STOPPING, UNCONFIRMED})
    && (st.FinalReading? ==> r.core.phase != RUNNING)
    && (st.Exec? ==> Internal(st.op) && (st.op.Create? <==> r.journal == []))
    && (!st.Exec? ==> r.journal != [])
    && (st.Exec? && st.op.Kill? ==> r.clock <= st.op.now <= st.at)
    && (st.Serve? ==> r.pending == None)
    && (st.Release? ==> r.pending.Some?)
    && (st.Drain? ==> Resolves(st.ops))
    && AllEnabled(su.cfg, r.core, OpsOf(su, r, st))
    && var (core, events) := ApplyAll(su.cfg, r.core, OpsOf(su, r, st));
    && |StampsOf(st)| == |events| && Ordered(r.clock, StampsOf(st)) && FreshStamps(r.journal, StampsOf(st))
    && r.clock <= st.at && (StampsOf(st) != [] ==> StampsOf(st)[|StampsOf(st)| - 1].t <= st.at)
    && core.charged <= U_MAX
  }

  function NextRun(su: Setup, r: Run, st: Move): Run
    requires (st.Sampling? || st.FinalReading?) ==> |st.inp.shown| == |su.domains|
    requires |StampsOf(st)| == |ApplyAll(su.cfg, r.core, OpsOf(su, r, st)).1|
  {
    var (core, events) := ApplyAll(su.cfg, r.core, OpsOf(su, r, st));
    var r' := Commit(su, r, core, events, StampsOf(st), st.at);
    match st
    case Exec(_, _, _) => r'
    case Drain(_, _, _) => r'
    case Sampling(inp, _, _) => r'.(meter := TakeSample(su.domains, su.staleUs, r.meter, inp).0)
    case FinalReading(inp, _, _) => r'.(meter := TakeFinal(su.domains, su.staleUs, r.meter, inp).0)
    case Serve(key, q, channel, inp, _, _) =>
      if !Commits(su, r, key, q, channel, inp) then r'
      else
        var reply := Answer(su, r, key, q, channel, inp);
        r'.(requests := r.requests[key := Stored(su.digest(q), reply)],
            pending := if reply.result.Some? && reply.result.value.Dispatched? then Some(reply.result.value.actionId)
                       else r.pending)
    case Release(_) =>
      r'.(pending := None, released := r.released + (if r.pending.Some? then [r.pending.value] else []))
  }

  // ---- whole runs ----

  /** A legal history: each step is legal in the state the earlier ones lead to. */
  ghost predicate History(su: Setup, steps: seq<Move>)
    decreases |steps|, 0
  {
    steps == []
    || (var init := steps[..|steps| - 1];
        History(su, init) && Legal(su, After(su, init), steps[|steps| - 1]))
  }

  ghost function After(su: Setup, steps: seq<Move>): Run
    requires History(su, steps)
    decreases |steps|, 1
  {
    if steps == [] then FRESH
    else NextRun(su, After(su, steps[..|steps| - 1]), steps[|steps| - 1])
  }

  /** One more step. */
  lemma Extend(su: Setup, steps: seq<Move>, st: Move)
    requires History(su, steps) && Legal(su, After(su, steps), st)
    ensures History(su, steps + [st]) && After(su, steps + [st]) == NextRun(su, After(su, steps), st)
  {
    assert (steps + [st])[..|steps|] == steps;
  }
}
