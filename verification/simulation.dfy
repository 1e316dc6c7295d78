/** The ledger and the offline replay checker are the same machine: whatever the ledger emits, the
    checker accepts, and it ends with the ledger's own phase and record states. The same for the fold
    with which a supervisor rebuilds a ledger from its journal. */
module Simulation {
  import opened Types
  import opened Dicts
  import opened Ledger
  import opened Invariants
  import Replay

  ghost function TokenStates(at: map<Id, TokenRec>): map<Id, TokenState> { map k | k in at :: at[k].state }
  ghost function ActionStates(at: map<Id, ActionRec>): map<Id, ActionState> { map k | k in at :: at[k].state }
  ghost function ComputeStates(at: map<Id, ComputeRec>): map<Id,
      ComputeState> { map k | k in at :: at[k].reservation.state }

  /** The checker's view of a ledger. */
  ghost function View(c: Core): Replay.State {
    Replay.State(c.phase, TokenStates(c.tokens.at), ActionStates(c.actions.at), ComputeStates(c.computes.at))
  }

  // ---- the fold that rebuilds a ledger from its journal ----

  /** The fields `_rebuild` restores. */
  datatype Rebuilt = Rebuilt(stopReason: Option<Reason>, charged: nat, spawnIssued: nat, issueSeq: nat)

  const BLANK := Rebuilt(None, 0, 0, 0)

  function Refold(r: Rebuilt, e: Event): Rebuilt {
    match e
    case StopLatched(reason) => r.(stopReason := Some(reason))
    case TokenIssued(body, _) => r.(spawnIssued := r.spawnIssued + 1, issueSeq := body.issueSeq)
    case ComputeReserved(res) => r.(charged := r.charged + res.charged)
    case _ => r
  }

  function RefoldAll(r: Rebuilt, events: seq<Event>): Rebuilt {
    if events == [] then r
    else Refold(RefoldAll(r, events[..|events| - 1]), events[|events| - 1])
  }

  lemma {:induction false} RefoldAppend(r: Rebuilt, a: seq<Event>, b: seq<Event>)
    ensures RefoldAll(r, a + b) == RefoldAll(RefoldAll(r, a), b)
  {
    if b == [] {
      assert a + b == a;
    } else {
      RefoldAppend(r, a, b[..|b| - 1]);
      assert (a + b)[..|a + b| - 1] == a + b[..|b| - 1];
    }
  }

  ghost function Restored(c: Core): Rebuilt {
    Rebuilt(c.stopReason, c.charged, c.spawnIssued, c.issueSeq)
  }

  // ---- emitting events keeps checker and fold in step ----

  /** From `c` to `c'` by `events`: the checker follows, the fold follows, payloads are well typed. */
  ghost predicate Mirrors(c: Core, events: seq<Event>, c': Core) {
    && Replay.NextAll(View(c), events) == Some(View(c'))
    && RefoldAll(Restored(c), events) == Restored(c')
    && (forall e :: e in events ==> WellTyped(e) && !e.RunCreated?)
  }

  lemma MirrorsNone(c: Core, c': Core)
    requires View(c) == View(c') && Restored(c) == Restored(c')
    ensures Mirrors(c, [], c')
  {
  }

  lemma MirrorsOne(c: Core, e: Event, c': Core)
    requires Replay.Next(View(c), e) == Some(View(c')) && Refold(Restored(c), e) == Restored(c')
    requires WellTyped(e)
    ensures Mirrors(c, [e], c')
  {
    hide View, Restored;
    assert [e][..0] == [];
    assert Replay.NextAll(View(c), [e][..0]) == Some(View(c));
    assert RefoldAll(Restored(c), [e][..0]) == Restored(c);
  }

  lemma MirrorsAppend(c: Core, a: seq<Event>, c': Core, b: seq<Event>, c'': Core)
    requires Mirrors(c, a, c') && Mirrors(c', b, c'')
    ensures Mirrors(c, a + b, c'')
  {
    hide View, Restored;
    Replay.NextAllAppend(View(c), a, b);
    RefoldAppend(Restored(c), a, b);
  }

  lemma DenialMirrors(c: Core, req: Id, code: Code)
    ensures Mirrors(c, Denial(c, req, code), c)
  {
    if Live(c.phase) {
      MirrorsOne(c, RequestDenied(req, code), c);
    } else {
      MirrorsNone(c, c);
    }
  }

  /** A latch after some events: either nothing more happens or StopLatched is appended. */
  lemma LatchMirrors(c: Core, s: Step, reason: Reason)
    requires Mirrors(c, s.out.events, s.core)
    ensures Mirrors(c, Latch(s, reason).out.events, Latch(s, reason).core)
  {
    hide Mirrors;
    if CanLatch(s.core) {
      var c' := Latch(s, reason).core;
      MirrorsOne(s.core, StopLatched(reason), c');
      MirrorsAppend(c, s.out.events, s.core, [StopLatched(reason)], c');
    }
  }

  // ---- views of updated dictionaries ----

  lemma TokenPutView(d: Dict<Id, TokenRec>, k: Id, rec: TokenRec)
    ensures TokenStates(d.Put(k, rec).at) == TokenStates(d.at)[k := rec.state]
  {
  }

  lemma ActionPutView(d: Dict<Id, ActionRec>, k: Id, rec: ActionRec)
    ensures ActionStates(d.Put(k, rec).at) == ActionStates(d.at)[k := rec.state]
  {
  }

  lemma ComputePutView(d: Dict<Id, ComputeRec>, k: Id, rec: ComputeRec)
    ensures ComputeStates(d.Put(k, rec).at) == ComputeStates(d.at)[k := rec.reservation.state]
  {
  }

  // ---- one lemma per operation that touches records ----

  lemma IssueMirrors(cfg: Config, c: Core, channel: Id, a: Action, now: Time, id: Id, req: Id)
    requires Inv(cfg, c) && id !in c.tokens.at
    ensures var s := IssueToken(cfg, c, channel, a, now, id, req); Mirrors(c, s.out.events, s.core)
  {
    hide Inv, PolicyAllows, Mirrors;
    if c.phase != RUNNING {
      MirrorsNone(c, c);
    } else {
      DenialMirrors(c, req, ACTION_DENIED);
      DenialMirrors(c, req, SPAWN_CAP_REACHED);
      LatchMirrors(c, Deny(c, req, SPAWN_CAP_REACHED), SPAWN_CAP);
      if PolicyAllows(cfg, a) && c.spawnIssued < cfg.budgets.spawns {
        var rec := NewToken(cfg, c, channel, a, now, id);
        TokenPutView(c.tokens, id, rec);
        MirrorsOne(c, TokenIssued(rec.body, a.Kind()), IssueToken(cfg, c, channel, a, now, id, req).core);
      }
    }
  }

  lemma ExpireOneMirrors(cfg: Config, c: Core, id: Id)
    requires Inv(cfg, c) && id in c.tokens.at && c.tokens.at[id].state == ISSUED && c.phase == RUNNING
    ensures Mirrors(c, [TokenExpired(c.tokens.at[id].body.tokenId)],
                    c.(tokens := c.tokens.Put(id, c.tokens.at[id].(state := EXPIRED))))
  {
    assert c.tokens.at[id].body.tokenId == id;
    hide Inv, Mirrors;
    var rec := c.tokens.at[id].(state := EXPIRED);
    TokenPutView(c.tokens, id, rec);
    MirrorsOne(c, TokenExpired(id), c.(tokens := c.tokens.Put(id, rec)));
  }

  lemma SpendMirrors(c: Core, id: Id, arec: ActionRec)
    requires c.phase == RUNNING && id in c.tokens.at && c.tokens.at[id].state == ISSUED
    requires arec.actionId !in c.actions.at && arec.state == DISPATCHED
    ensures Mirrors(c, [TokenSpent(id, arec.actionId)],
                    c.(tokens := c.tokens.Put(id, c.tokens.at[id].(state := SPENT, actionId := Some(arec.actionId))),
                       inflight := c.inflight + 1, actions := c.actions.Put(arec.actionId, arec)))
  {
    hide Mirrors;
    var rec := c.tokens.at[id].(state := SPENT, actionId := Some(arec.actionId));
    TokenPutView(c.tokens, id, rec);
    ActionPutView(c.actions, arec.actionId, arec);
    MirrorsOne(c, TokenSpent(id, arec.actionId),
               c.(tokens := c.tokens.Put(id, rec), inflight := c.inflight + 1,
                  actions := c.actions.Put(arec.actionId, arec)));
  }

  lemma DispatchMirrors(cfg: Config, c: Core, channel: Id, body: TokenBody, a: Action, now: Time, id: Id, req: Id)
    requires Inv(cfg, c) && id !in c.actions.at
    ensures var s := DispatchAction(cfg, c, channel, body, a, now, id, req); Mirrors(c, s.out.events, s.core)
  {
    hide Inv, Mirrors;
    MirrorsNone(c, c);
    DenialMirrors(c, req, TOKEN_BINDING);
    DenialMirrors(c, req, TOKEN_USED);
    DenialMirrors(c, req, TOKEN_EXPIRED);
    if body.tokenId in c.tokens.at && c.tokens.at[body.tokenId].state == ISSUED && c.phase == RUNNING {
      var rec := c.tokens.at[body.tokenId];
      if now >= rec.expiresUs {
        var c' := c.(tokens := c.tokens.Put(body.tokenId, rec.(state := EXPIRED)));
        ExpireOneMirrors(cfg, c, body.tokenId);
        DenialMirrors(c', req, TOKEN_EXPIRED);
        MirrorsAppend(c, [TokenExpired(rec.body.tokenId)], c', Denial(c', req, TOKEN_EXPIRED), c');
      } else if c.inflight < MAX_INFLIGHT_ACTIONS {
        SpendMirrors(c, body.tokenId, ActionRec(id, channel, a.Kind(), body.tokenId, DISPATCHED, None, None, None));
      }
    }
  }

  /** The ledger after the sweep has passed the first `i` tokens. */
  ghost function SweptTo(c: Core, i: nat, now: int): Core
    requires i <= |c.tokens.order|
  {
    c.(tokens := c.tokens.(at := SweptUpTo(c.tokens.at, c.tokens.order[..i], now)))
  }

  lemma SweepOneMirrors(c: Core, i: nat, now: int)
    requires TokensOk(c.tokens, |c.tokens.order|) && c.phase == RUNNING && i < |c.tokens.order|
    ensures c.tokens.order[i] in c.tokens.at
    ensures Mirrors(SweptTo(c, i, now),
                    if Due(c.tokens.at[c.tokens.order[i]], now)
                    then [TokenExpired(c.tokens.at[c.tokens.order[i]].body.tokenId)] else [],
                    SweptTo(c, i + 1, now))
  {
    hide TokensOk, Mirrors, SweptUpTo, SweepEvents;
    TokenFiledAt(c.tokens, i);
    var id := c.tokens.order[i];
    SweepStep(c.tokens, i, now);
    var c0, c1 := SweptTo(c, i, now), SweptTo(c, i + 1, now);
    TokenPutView(c0.tokens, id, Swept(c.tokens.at[id], now));
    TokenStateAt(c0.tokens.at, id);
    hide ActionStates, ComputeStates, TokenStates;
    if Due(c.tokens.at[id], now) {
      MirrorsOne(c0, TokenExpired(id), c1);
    } else {
      MirrorsNone(c0, c1);
    }
  }

  lemma TokenFiledAt(d: Dict<Id, TokenRec>, i: nat)
    requires TokensOk(d, |d.order|) && i < |d.order|
    ensures d.Valid() && d.order[i] in d.at && d.at[d.order[i]].body.tokenId == d.order[i]
  {
    assert d.order[i] in d.order;
  }

  lemma TokenStateAt(at: map<Id, TokenRec>, id: Id)
    requires id in at
    ensures id in TokenStates(at) && TokenStates(at)[id] == at[id].state
    ensures TokenStates(at)[id := at[id].state] == TokenStates(at)
  {
  }

  lemma {:induction false} SweepMirrors(c: Core, i: nat, now: int)
    requires TokensOk(c.tokens, |c.tokens.order|) && c.phase == RUNNING && i <= |c.tokens.order|
    ensures Mirrors(c, SweepEvents(c.tokens.order[..i], c.tokens.at, now), SweptTo(c, i, now))
  {
    hide TokensOk, Mirrors, Due, View, Restored;
    if i == 0 {
      assert SweptTo(c, 0, now).tokens.at == c.tokens.at;
      MirrorsNone(c, c);
    } else {
      hide SweptTo, SweptUpTo;
      TokenFiledAt(c.tokens, i - 1);
      assert c.tokens.order[..i][..i - 1] == c.tokens.order[..i - 1];
      SweepMirrors(c, i - 1, now);
      SweepOneMirrors(c, i - 1, now);
      var rec := c.tokens.at[c.tokens.order[i - 1]];
      MirrorsAppend(c, SweepEvents(c.tokens.order[..i - 1], c.tokens.at, now), SweptTo(c, i - 1, now),
                    if Due(rec, now) then [TokenExpired(rec.body.tokenId)] else [], SweptTo(c, i, now));
    }
  }

  lemma ExpireMirrors(cfg: Config, c: Core, now: int)
    requires Inv(cfg, c)
    ensures var s := ExpireTokens(c, now); Mirrors(c, s.out.events, s.core)
  {
    hide Mirrors;
    if c.phase == RUNNING {
      SweepMirrors(c, |c.tokens.order|, now);
      assert c.tokens.order[..|c.tokens.order|] == c.tokens.order;
      SweepEnds(c.tokens, now);
    } else {
      MirrorsNone(c, c);
    }
  }

  /** A resolution: the checker's ActionFinished or ActionUnknown step. */
  lemma ResolveMirrors(c: Core, id: Id, a: ActionRec, e: Event)
    requires Resolvable(c, id) && a.state != DISPATCHED
    requires (e.ActionFinished? && e.action.actionId == id && e.action.state == a.state && a.state != UNKNOWN)
          || (e.ActionUnknown? && e.actionId == id && a.state == UNKNOWN)
    ensures Mirrors(c, [e], c.(inflight := c.inflight - 1, actions := c.actions.Put(id, a)))
  {
    hide Mirrors;
    ActionPutView(c.actions, id, a);
    MirrorsOne(c, e, c.(inflight := c.inflight - 1, actions := c.actions.Put(id, a)));
  }

  lemma FinishMirrors(cfg: Config, c: Core, id: Id, result: Option<ActionResult>, error: Option<Code>,
          exit: Option<Exit>)
    requires Inv(cfg, c)
    ensures var s := FinishAction(c, id, result, error, exit); Mirrors(c, s.out.events, s.core)
  {
    hide Inv, Mirrors;
    if Resolvable(c, id) {
      assert c.actions.at[id].actionId == id by { Parts(cfg, c); }
      var a := c.actions.at[id];
      var a' := FinishedRec(a, result, error, exit);
      var line := AuditOf(a, a'.state, exit, result, if a'.state == SUCCEEDED then None else a'.error);
      ResolveMirrors(c, id, a', ActionFinished(line));
    } else {
      MirrorsNone(c, c);
    }
  }

  lemma GiveUpMirrors(c: Core, id: Id, code: Code)
    ensures var s := GiveUpAction(c, id, code); Mirrors(c, s.out.events, s.core)
  {
    hide Mirrors;
    if Resolvable(c, id) {
      ResolveMirrors(c, id, c.actions.at[id].(state := UNKNOWN, error := Some(code)), ActionUnknown(id, code));
    } else {
      MirrorsNone(c, c);
    }
  }

  lemma ReserveMirrors(cfg: Config, c: Core, channel: Id, w: Work, id: Id, req: Id)
    requires id !in c.computes.at
    ensures var s := ReserveCompute(cfg, c, channel, w, id, req); Mirrors(c, s.out.events, s.core)
  {
    hide ChargeOf, Mirrors;
    var s := ReserveCompute(cfg, c, channel, w, id, req);
    if c.phase != RUNNING {
      MirrorsNone(c, c);
    } else if ChargeOf(cfg, w).Err? {
      DenialMirrors(c, req, ChargeOf(cfg, w).error);
    } else if !AdmitsFlops(cfg, c, ChargeOf(cfg, w).value) {
      DenialMirrors(c, req, FLOPS_CAP_REACHED);
      LatchMirrors(c, Deny(c, req, FLOPS_CAP_REACHED), FLOPS_CAP);
    } else {
      var r := ComputeRec(Reservation(id, w, ChargeOf(cfg, w).value, CHARGED, None, None), channel);
      ComputePutView(c.computes, id, r);
      MirrorsOne(c, ComputeReserved(r.reservation), s.core);
    }
  }

  lemma FinishInsideMirrors(c: Core, id: Id, observed: nat, charge: nat)
    requires c.phase == RUNNING && id in c.computes.at && c.computes.at[id].reservation.computeId == id
    requires c.computes.at[id].reservation.state == CHARGED
    ensures var rec := c.computes.at[id];
            var res := rec.reservation.(state := FINISHED, observedTokens := Some(observed),
              observedFlops := Some(charge));
            Mirrors(c, [ComputeFinished(res)], c.(computes := c.computes.Put(id, rec.(reservation := res))))
  {
    hide Mirrors;
    var rec := c.computes.at[id];
    var res := rec.reservation.(state := FINISHED, observedTokens := Some(observed), observedFlops := Some(charge));
    ComputePutView(c.computes, id, rec.(reservation := res));
    MirrorsOne(c, ComputeFinished(res), c.(computes := c.computes.Put(id, rec.(reservation := res))));
  }

  lemma CompleteMirrors(cfg: Config, c: Core, channel: Id, id: Id, observed: nat, req: Id)
    requires Inv(cfg, c)
    ensures var s := FinishCompute(cfg, c, channel, id, observed, req); Mirrors(c, s.out.events, s.core)
  {
    hide Inv, ObservedCharge, Mirrors;
    MirrorsNone(c, c);
    if id !in c.computes.at {
      DenialMirrors(c, req, NOT_FOUND);
    } else {
      var rec := c.computes.at[id];
      DenialMirrors(c, req, UNAUTHORIZED);
      DenialMirrors(c, req, CONFLICT);
      DenialMirrors(c, req, ENVELOPE_EXCEEDED);
      LatchMirrors(c, Deny(c, req, ENVELOPE_EXCEEDED), FLOPS_CAP);
      match ObservedCharge(cfg, rec.reservation.work, observed)
      case Err(code) => DenialMirrors(c, req, code);
      case Ok(charge) =>
        if c.phase == RUNNING && rec.reservation.state == CHARGED {
          assert rec.reservation.computeId == id by { ComputeIdOf(cfg, c, id); }
          FinishInsideMirrors(c, id, observed, charge);
        }
    }
  }

  lemma ComputeIdOf(cfg: Config, c: Core, id: Id)
    requires Inv(cfg, c) && id in c.computes.at
    ensures c.computes.at[id].reservation.computeId == id
  {
  }

  lemma ViewMirrors(c: Core, channel: Id, id: Id, req: Id)
    ensures var s := ViewAction(c, channel, id, req); Mirrors(c, s.out.events, s.core)
  {
    hide Mirrors;
    MirrorsNone(c, c);
    DenialMirrors(c, req, NOT_FOUND);
    DenialMirrors(c, req, UNAUTHORIZED);
  }

  lemma PhaseOpMirrors(cfg: Config, c: Core, op: Op)
    requires Coherent(c) && Enabled(c, op) && !TouchesRecords(op)
    requires !op.Create? && !op.Refuse? && !op.View?
    ensures var s := Apply(cfg, c, op); Mirrors(c, s.out.events, s.core)
  {
    hide IssueToken, DispatchAction, ExpireTokens, FinishAction, GiveUpAction, ReserveCompute, FinishCompute;
    hide Mirrors;
    var s := Apply(cfg, c, op);
    MirrorsNone(c, c);
    if op.Halt? || op.Observe? {
      LatchMirrors(c, Silent(c), op.reason);
      if c.phase in {STOPPING, UNCONFIRMED, FINALIZING} { MirrorsOne(c, FaultObserved(op.reason), c); }
    } else if s.out.events == [] {
      MirrorsNone(c, s.core);
    } else {
      MirrorsOne(c, s.out.events[0], s.core);
    }
  }

  /** Simulation, one operation: from any reachable ledger the checker accepts the emitted events and
      lands in the new ledger's view, and the rebuilding fold lands in its counters. */
  lemma ApplyMirrors(cfg: Config, c: Core, op: Op)
    requires Inv(cfg, c) && Enabled(c, op) && !op.Create?
    ensures var s := Apply(cfg, c, op); Mirrors(c, s.out.events, s.core)
  {
    hide Inv, Mirrors;
    hide IssueToken, DispatchAction, ExpireTokens, FinishAction, GiveUpAction, ReserveCompute, FinishCompute,
         ViewAction;
    if !TouchesRecords(op) && !op.Refuse? && !op.View? {
      assert Coherent(c) by { Parts(cfg, c); }
      hide Coherent;
      PhaseOpMirrors(cfg, c, op);
    } else {
      match op
      case Refuse(req, code) => DenialMirrors(c, req, code);
      case View(channel, id, req) => ViewMirrors(c, channel, id, req);
      case Issue(channel, a, now, id, req) => IssueMirrors(cfg, c, channel, a, now, id, req);
      case Dispatch(channel, body, a, now, id, req) => DispatchMirrors(cfg, c, channel, body, a, now, id, req);
      case Expire(now) => ExpireMirrors(cfg, c, now);
      case Finish(id, result, error, exit) => FinishMirrors(cfg, c, id, result, error, exit);
      case GiveUp(id, code) => GiveUpMirrors(c, id, code);
      case Reserve(channel, w, id, req) => ReserveMirrors(cfg, c, channel, w, id, req);
      case Complete(channel, id, observed, req) => CompleteMirrors(cfg, c, channel, id, observed, req);
    }
  }
}
