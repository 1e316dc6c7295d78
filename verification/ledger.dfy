/** The run ledger as a transition system on values: what each operation of the reducer does to the
    state, and the events it asks the journal to append. `run_core.dfy` holds the object that updates
    its fields in place; its methods are proved against the functions here. */
module Ledger {
  import opened Types
  import opened Dicts
  import E = Estimator

  const TOKEN_TTL_US := 1_000_000
  const MAX_INFLIGHT_ACTIONS := 32

  datatype Budgets = Budgets(maxFlops: Option<nat>, maxEnergyUj: Option<nat>, spawns: nat, maxWallUs: nat)

  /** `ipsPublic` is the verdict of the address check on every pinned address. */
  datatype Destination = Destination(maxResponseBytes: int, ipsPublic: bool)

  datatype Config = Config(runId: Id, keyId: Id, budgets: Budgets, catalog: seq<E.Model>,
                           network: map<(string, string), Destination>, approvedRoots: seq<string>,
                           crypto: Crypto)

  datatype TokenRec = TokenRec(body: TokenBody, channelId: Id, actionHash: Hash, expiresUs: nat,
                               state: TokenState, actionId: Option<Id>)
  datatype ActionRec = ActionRec(actionId: Id, channelId: Id, kind: ActionKind, tokenId: Id, state: ActionState,
                                 result: Option<ActionResult>, error: Option<Code>, exit: Option<Exit>)
  datatype ComputeRec = ComputeRec(reservation: Reservation, channelId: Id)

  datatype Core = Core(
    phase: Phase,
    stopReason: Option<Reason>,
    charged: nat,
    spawnIssued: nat,
    issueSeq: nat,
    inflight: int,
    tokens: Dict<Id, TokenRec>,
    actions: Dict<Id, ActionRec>,
    computes: Dict<Id, ComputeRec>,
    rootExit: Option<Exit>,
    killIssuedAtUs: Option<int>,
    stopLatchedUs: Option<int>)

  const INITIAL := Core(CREATED, None, 0, 0, 0, 0, Empty(), Empty(), Empty(), None, None, None)

  datatype Payload =
    | IssuedToken(body: TokenBody, remainingSpawns: int)
    | SignedToken(token: Token, remainingSpawns: int)
    | Dispatched(actionId: Id)
    | ActionView(actionId: Id, state: ActionState, result: Option<ActionResult>, error: Option<Code>)
    | Reserved(reservation: Reservation)
    | StopView(phase: Phase, stopReason: Option<Reason>)
    | StatusView(phase: Phase, charged: nat, spawnIssued: nat, stopReason: Option<Reason>)

  /** The events to commit, in order, and the reply: a result or an error. */
  datatype Outcome = Outcome(events: seq<Event>, result: Option<Payload>, error: Option<Code>)

  datatype Step = Step(core: Core, out: Outcome)

  function Silent(c: Core): Step { Step(c, Outcome([], None, None)) }

  function Emit(c: Core, e: Event): Step { Step(c, Outcome([e], None, None)) }

  function Fails(c: Core, code: Code): Step { Step(c, Outcome([], None, Some(code))) }

  function Denial(c: Core, req: Id, code: Code): seq<Event> {
    if Live(c.phase) then [RequestDenied(req, code)] else []
  }

  function Deny(c: Core, req: Id, code: Code): Step {
    Step(c, Outcome(Denial(c, req, code), None, Some(code)))
  }

  predicate CanLatch(c: Core) {
    c.phase in {ARMING, RUNNING} && c.stopReason == None
  }

  /** `_latch`: the first stop source moves the run to STOPPING; later ones change nothing. */
  function Latch(s: Step, reason: Reason): Step {
    if CanLatch(s.core) then
      Step(s.core.(stopReason := Some(reason), phase := STOPPING),
           s.out.(events := s.out.events + [StopLatched(reason)]))
    else s
  }

  // ---- admission policy ----

  function StripSlashes(r: string): string {
    if r != "" && r[|r| - 1] == '/' then StripSlashes(r[..|r| - 1]) else r
  }

  predicate InApprovedRoots(cfg: Config, path: string) {
    exists i :: 0 <= i < |cfg.approvedRoots|
                && (path == cfg.approvedRoots[i] || StripSlashes(cfg.approvedRoots[i]) + "/" <= path)
  }

  predicate PolicyAllows(cfg: Config, a: Action) {
    match a
    case Spawn(argv0, cwd, _) => InApprovedRoots(cfg, argv0) && InApprovedRoots(cfg, cwd)
    case HttpGet(origin, path, most) =>
      (origin, path) in cfg.network
      && most <= cfg.network[(origin, path)].maxResponseBytes
      && cfg.network[(origin, path)].ipsPublic
  }

  // ---- tokens ----

  function NewToken(cfg: Config, c: Core, channel: Id, a: Action, now: Time, tokenId: Id): TokenRec {
    var hash := cfg.crypto.actionHash(a);
    TokenRec(TokenBody(cfg.keyId, tokenId, cfg.runId, channel, hash, now, now + TOKEN_TTL_US, c.issueSeq + 1),
             channel, hash, now + TOKEN_TTL_US, ISSUED, None)
  }

  function IssueToken(cfg: Config, c: Core, channel: Id, a: Action, now: Time, tokenId: Id, req: Id): Step {
    if c.phase != RUNNING then Fails(c, STOPPED)
    else if !PolicyAllows(cfg, a) then Deny(c, req, ACTION_DENIED)
    else if c.spawnIssued >= cfg.budgets.spawns then Latch(Deny(c, req, SPAWN_CAP_REACHED), SPAWN_CAP)
    else
      var rec := NewToken(cfg, c, channel, a, now, tokenId);
      Step(c.(spawnIssued := c.spawnIssued + 1, issueSeq := c.issueSeq + 1, tokens := c.tokens.Put(tokenId, rec)),
           Outcome([TokenIssued(rec.body, a.Kind())],
                   Some(IssuedToken(rec.body, cfg.budgets.spawns - (c.spawnIssued + 1))), None))
  }

  function DispatchAction(cfg: Config, c: Core, channel: Id, body: TokenBody, a: Action, now: Time, actionId: Id,
          req: Id): Step {
    if c.phase != RUNNING then Fails(c, STOPPED)
    else if body.runId != cfg.runId || body.channelId != channel
            || body.actionHash != cfg.crypto.actionHash(a) || body.tokenId !in c.tokens.at
    then Deny(c, req, TOKEN_BINDING)
    else
      var rec := c.tokens.at[body.tokenId];
      if rec.state == SPENT then Deny(c, req, TOKEN_USED)
      else if rec.state == EXPIRED then Deny(c, req, TOKEN_EXPIRED)
      else if now >= rec.expiresUs then
        var s := Deny(c.(tokens := c.tokens.Put(body.tokenId, rec.(state := EXPIRED))), req, TOKEN_EXPIRED);
        s.(out := s.out.(events := [TokenExpired(rec.body.tokenId)] + s.out.events))
      else if c.inflight >= MAX_INFLIGHT_ACTIONS then Fails(c, BUSY)
      else
        var arec := ActionRec(actionId, channel, a.Kind(), body.tokenId, DISPATCHED, None, None, None);
        Step(c.(tokens := c.tokens.Put(body.tokenId, rec.(state := SPENT, actionId := Some(actionId))),
                inflight := c.inflight + 1,
                actions := c.actions.Put(actionId, arec)),
             Outcome([TokenSpent(body.tokenId, actionId)], Some(Dispatched(actionId)), None))
  }

  predicate Due(rec: TokenRec, now: int) {
    rec.state == ISSUED && now >= rec.expiresUs
  }

  function Swept(rec: TokenRec, now: int): TokenRec {
    if Due(rec, now) then rec.(state := EXPIRED) else rec
  }

  /** One expiry event for each due token, in issue order. */
  function SweepEvents(order: seq<Id>, at: map<Id, TokenRec>, now: int): seq<Event> {
    if order == [] then []
    else
      var last := order[|order| - 1];
      SweepEvents(order[..|order| - 1], at, now)
      + (if last in at && Due(at[last], now) then [TokenExpired(at[last].body.tokenId)] else [])
  }

  /** The records after the sweep has passed the tokens in `done`. */
  ghost function SweptUpTo(at: map<Id, TokenRec>, done: seq<Id>, now: int): map<Id, TokenRec> {
    map k | k in at :: if k in done then Swept(at[k], now) else at[k]
  }

  /** One step of the sweep touches one record and emits at most its expiry. */
  lemma SweepStep(d: Dict<Id, TokenRec>, i: nat, now: int)
    requires d.Valid() && i < |d.order|
    ensures var id := d.order[i];
            && id in d.at
            && id in SweptUpTo(d.at, d.order[..i], now) && SweptUpTo(d.at, d.order[..i], now)[id] == d.at[id]
            && SweptUpTo(d.at, d.order[..i + 1], now) == SweptUpTo(d.at, d.order[..i], now)[id := Swept(d.at[id], now)]
            && SweepEvents(d.order[..i + 1], d.at, now)
               == SweepEvents(d.order[..i], d.at, now)
                  + (if Due(d.at[id], now) then [TokenExpired(d.at[id].body.tokenId)] else [])
  {
    var id := d.order[i];
    assert d.order[..i + 1] == d.order[..i] + [id] && d.order[..i + 1][..i] == d.order[..i];
    assert id in d.order && id !in d.order[..i];
  }

  lemma SweepEnds(d: Dict<Id, TokenRec>, now: int)
    requires d.Valid()
    ensures SweptUpTo(d.at, [], now) == d.at
    ensures SweptUpTo(d.at, d.order, now) == map k | k in d.at :: Swept(d.at[k], now)
  {
  }

  function ExpireTokens(c: Core, now: int): Step {
    if c.phase != RUNNING then Silent(c)
    else
      Step(c.(tokens := c.tokens.(at := map k | k in c.tokens.at :: Swept(c.tokens.at[k], now))),
           Outcome(SweepEvents(c.tokens.order, c.tokens.at, now), None, None))
  }

  // ---- actions ----

  function ViewAction(c: Core, channel: Id, actionId: Id, req: Id): Step {
    if actionId !in c.actions.at then Deny(c, req, NOT_FOUND)
    else if c.actions.at[actionId].channelId != channel then Deny(c, req, UNAUTHORIZED)
    else
      var a := c.actions.at[actionId];
      Step(c, Outcome([], Some(ActionView(actionId, a.state, a.result, a.error)), None))
  }

  predicate Resolvable(c: Core, actionId: Id) {
    && actionId in c.actions.at && c.actions.at[actionId].state == DISPATCHED
    && c.phase in {RUNNING, STOPPING, UNCONFIRMED}
  }

  function AuditOf(a: ActionRec, state: ActionState, exit: Option<Exit>, result: Option<ActionResult>,
          error: Option<Code>): Audit {
    var http := a.kind == HTTP_GET && result.Some? && result.value.HttpResult?;
    Audit(a.actionId, state, a.kind, if a.kind == SPAWN then exit else None,
          if http then Some(result.value.status) else None,
          if http then Some(result.value.bodyHash) else None, error)
  }

  function FinishedRec(a: ActionRec, result: Option<ActionResult>, error: Option<Code>, exit: Option<Exit>): ActionRec {
    if error == None && result.Some? then a.(state := SUCCEEDED, result := result)
    else a.(state := ACTION_HAS_FAILED, error := if error.Some? then error else Some(ACTION_FAILED),
            result := result, exit := exit)
  }

  function FinishAction(c: Core, actionId: Id, result: Option<ActionResult>, error: Option<Code>,
          exit: Option<Exit>): Step {
    if !Resolvable(c, actionId) then Silent(c)
    else
      var a := c.actions.at[actionId];
      var a' := FinishedRec(a, result, error, exit);
      var line := AuditOf(a, a'.state, exit, result, if a'.state == SUCCEEDED then None else a'.error);
      Step(c.(inflight := c.inflight - 1, actions := c.actions.Put(actionId, a')),
           Outcome([ActionFinished(line)], None, None))
  }

  function GiveUpAction(c: Core, actionId: Id, code: Code): Step {
    if !Resolvable(c, actionId) then Silent(c)
    else
      var a := c.actions.at[actionId].(state := UNKNOWN, error := Some(code));
      Step(c.(inflight := c.inflight - 1, actions := c.actions.Put(actionId, a)),
           Outcome([ActionUnknown(actionId, code)], None, None))
  }

  // ---- compute reservations ----

  /** The catalogue dictionary: the last model with an id wins. */
  function ModelOf(catalog: seq<E.Model>, id: Id): (m: Option<E.Model>)
    ensures m.Some? ==> m.value in catalog && m.value.id == id
    ensures m.None? ==> forall x :: x in catalog ==> x.id != id
  {
    if catalog == [] then None
    else if catalog[|catalog| - 1].id == id then Some(catalog[|catalog| - 1])
    else ModelOf(catalog[..|catalog| - 1], id)
  }

  /** The charge of a piece of work, or the code of the first failing check. */
  function ChargeOf(cfg: Config, w: Work): Result<nat, Code> {
    if !E.WorkDims(w.inputTokens, w.maxOutputTokens, w.batch) then Err(INVALID_INPUT)
    else match ModelOf(cfg.catalog, w.modelId)
      case None => Err(UNSUPPORTED_MODEL)
      case Some(m) =>
        match E.ForModelWork(m, w)
        case Err(code) => Err(code)
        case Ok(est) => Ok(est.chargedFlops)
  }

  function ObservedCharge(cfg: Config, w: Work, observed: nat): Result<nat, Code> {
    match ModelOf(cfg.catalog, w.modelId)
    case None => Err(UNSUPPORTED_MODEL)
    case Some(m) =>
      match E.FromParts(m, w.inputTokens, observed, w.batch)
      case Err(code) => Err(code)
      case Ok(est) => Ok(est.chargedFlops)
  }

  predicate AdmitsFlops(cfg: Config, c: Core, charge: nat) {
    cfg.budgets.maxFlops == None || c.charged + charge <= cfg.budgets.maxFlops.value
  }

  /** `compute_reserve`; a check that raises is answered with the same denial by the dispatcher. */
  function ReserveCompute(cfg: Config, c: Core, channel: Id, w: Work, computeId: Id, req: Id): Step {
    if c.phase != RUNNING then Fails(c, STOPPED)
    else match ChargeOf(cfg, w)
      case Err(code) => Deny(c, req, code)
      case Ok(charge) =>
        if !AdmitsFlops(cfg, c, charge) then Latch(Deny(c, req, FLOPS_CAP_REACHED), FLOPS_CAP)
        else
          var res := Reservation(computeId, w, charge, CHARGED, None, None);
          Step(c.(charged := c.charged + charge, computes := c.computes.Put(computeId, ComputeRec(res, channel))),
               Outcome([ComputeReserved(res)], Some(Reserved(res)), None))
  }

  function FinishCompute(cfg: Config, c: Core, channel: Id, computeId: Id, observed: nat, req: Id): Step {
    if computeId !in c.computes.at then Deny(c, req, NOT_FOUND)
    else
      var rec := c.computes.at[computeId];
      var res := rec.reservation;
      if rec.channelId != channel then Deny(c, req, UNAUTHORIZED)
      else if res.state == FINISHED then
        if res.observedTokens == Some(observed) then Step(c, Outcome([], Some(Reserved(res)), None))
        else if observed > res.work.maxOutputTokens then Latch(Deny(c, req, ENVELOPE_EXCEEDED), FLOPS_CAP)
        else Deny(c, req, CONFLICT)
      else if c.phase != RUNNING then Fails(c, STOPPED)
      else if observed > res.work.maxOutputTokens then Latch(Deny(c, req, ENVELOPE_EXCEEDED), FLOPS_CAP)
      else match ObservedCharge(cfg, res.work, observed)
        case Err(code) => Deny(c, req, code)
        case Ok(charge) =>
          var res' := res.(state := FINISHED, observedTokens := Some(observed), observedFlops := Some(charge));
          Step(c.(computes := c.computes.Put(computeId, rec.(reservation := res'))),
               Outcome([ComputeFinished(res')], Some(Reserved(res')), None))
  }

  // ---- stop, containment, end of the run ----

  function Stop(c: Core, reason: Reason): Step {
    var s := if c.stopReason.Some? then Silent(c) else Latch(Silent(c), reason);
    s.(out := s.out.(result := Some(StopView(s.core.phase, s.core.stopReason))))
  }

  function Fault(c: Core, reason: Reason): Step {
    if c.phase in {ARMING, RUNNING} then Latch(Silent(c), reason)
    else if c.phase in {STOPPING, UNCONFIRMED, FINALIZING} then Emit(c, FaultObserved(reason))
    else Silent(c)
  }

  function IssueKill(c: Core, cgroup: bool, group: bool, now: int): Step {
    if c.phase !in {STOPPING, UNCONFIRMED} then Silent(c)
    else Emit(if c.killIssuedAtUs.None? then c.(killIssuedAtUs := Some(now)) else c, KillIssued(cgroup, group))
  }

  function KillIsUnconfirmed(c: Core, elapsed: int): Step {
    if c.phase != STOPPING then Silent(c) else Emit(c.(phase := UNCONFIRMED), KillUnconfirmed(elapsed))
  }

  function ContainmentIsEmpty(c: Core, sample: Option<Sample>, exit: Option<Exit>): Step {
    if c.phase !in {STOPPING, UNCONFIRMED} then Silent(c)
    else
      var c' := c.(phase := FINALIZING, rootExit := if exit.Some? then exit else c.rootExit);
      Emit(c', ContainmentEmpty(sample, c'.rootExit))
  }

  /** The state a stop source ends in. */
  function FinalPhase(r: Reason): Phase {
    if IsFaultReason(r) then FAILED else if r == ROOT_EXIT then COMPLETED else KILLED
  }

  function KillLatency(c: Core): int {
    if c.killIssuedAtUs.Some? && c.stopLatchedUs.Some? then c.killIssuedAtUs.value - c.stopLatchedUs.value else 0
  }

  function Finalize(c: Core): Step {
    if c.phase != FINALIZING then Silent(c)
    else if !(0 <= KillLatency(c) <= U_MAX) || c.charged > U_MAX then Fails(c, OVERFLOW)
    else
      var reason := if c.stopReason.Some? then c.stopReason.value else ROOT_EXIT;
      Emit(c.(phase := FinalPhase(reason)),
           RunFinalized(FinalPhase(reason), c.charged, c.spawnIssued, c.rootExit, reason, KillLatency(c)))
  }

  function RejectRun(c: Core, code: Code): Step {
    if c.phase !in {CREATED, ARMING} then Silent(c) else Emit(c.(phase := REJECTED), RunRejected(code))
  }

  // ---- one operation ----

  /** Everything that can be applied to the ledger: the reducer's methods, and the four places where
      the supervisor sets its fields directly (creation, arming, start, observed root exit). */
  datatype Op =
    | Create(configHash: Hash)
    | Arm
    | Start(baseline: Sample)
    | Record(sample: Sample)
    | NoteExit(observedExit: Exit)
    | Refuse(req: Id, code: Code)
    | Issue(channel: Id, action: Action, now: Time, tokenId: Id, req: Id)
    | Dispatch(channel: Id, body: TokenBody, action: Action, now: Time, actionId: Id, req: Id)
    | Expire(now: Time)
    | View(channel: Id, actionId: Id, req: Id)
    | Finish(actionId: Id, result: Option<ActionResult>, error: Option<Code>, exit: Option<Exit>)
    | GiveUp(actionId: Id, code: Code)
    | Reserve(channel: Id, work: Work, computeId: Id, req: Id)
    | Complete(channel: Id, computeId: Id, observed: nat, req: Id)
    | Halt(reason: Reason)
    | Kill(cgroup: bool, group: bool, now: Time)
    | Unconfirm(elapsed: int)
    | Emptied(finalSample: Option<Sample>, lastExit: Option<Exit>)
    | End
    | Reject(code: Code)
    | Observe(reason: Reason)

  function Apply(cfg: Config, c: Core, op: Op): Step {
    match op
    case Create(h) => Emit(c, RunCreated(h))
    case Arm => Emit(c.(phase := ARMING), RunArming)
    case Start(baseline) => Emit(c.(phase := RUNNING), RunStarted(baseline))
    case Record(sample) => Emit(c, SampleRecorded(sample))
    case NoteExit(exit) => Silent(c.(rootExit := Some(exit)))
    case Refuse(req, code) => Deny(c, req, code)
    case Issue(channel, a, now, id, req) => IssueToken(cfg, c, channel, a, now, id, req)
    case Dispatch(channel, body, a, now, id, req) => DispatchAction(cfg, c, channel, body, a, now, id, req)
    case Expire(now) => ExpireTokens(c, now)
    case View(channel, id, req) => ViewAction(c, channel, id, req)
    case Finish(id, result, error, exit) => FinishAction(c, id, result, error, exit)
    case GiveUp(id, code) => GiveUpAction(c, id, code)
    case Reserve(channel, w, id, req) => ReserveCompute(cfg, c, channel, w, id, req)
    case Complete(channel, id, observed, req) => FinishCompute(cfg, c, channel, id, observed, req)
    case Halt(reason) => Stop(c, reason)
    case Kill(cgroup, group, now) => IssueKill(c, cgroup, group, now)
    case Unconfirm(elapsed) => KillIsUnconfirmed(c, elapsed)
    case Emptied(sample, exit) => ContainmentIsEmpty(c, sample, exit)
    case End => Finalize(c)
    case Reject(code) => RejectRun(c, code)
    case Observe(reason) => Fault(c, reason)
  }

  /** What the supervisor guarantees when it applies an operation: identifiers are fresh, it assigns a
      phase only where its own control flow has the phase before, and it reports containment empty only
      after the drain that resolves every action. */
  ghost predicate Enabled(c: Core, op: Op) {
    match op
    case Create(_) => c == INITIAL
    case Arm => c.phase == CREATED
    case Start(_) => c.phase == ARMING
    case Record(_) => c.phase in {RUNNING, STOPPING, UNCONFIRMED}
    case Issue(_, _, _, id, _) => id !in c.tokens.at
    case Dispatch(_, _, _, _, id, _) => id !in c.actions.at
    case Reserve(_, _, id, _) => id !in c.computes.at
    case Emptied(_, _) => forall k :: k in c.actions.at ==> c.actions.at[k].state != DISPATCHED
    case _ => true
  }
}
