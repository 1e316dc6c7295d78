/** What every reachable ledger satisfies: conservation, one-to-one bookkeeping, life-cycle coherence. */
module Invariants {
  import opened Types
  import opened Dicts
  import opened Ledger
  import E = Estimator

  ghost function ChargeIn(r: ComputeRec): int { r.reservation.charged }
  ghost function OneIfDispatched(a: ActionRec): int { if a.state == DISPATCHED then 1 else 0 }
  ghost function OneIfSpent(t: TokenRec): int { if t.state == SPENT then 1 else 0 }

  /** `issued` tokens, each under its own id; token number i is the i-th one issued. */
  ghost predicate TokensOk(d: Dict<Id, TokenRec>, issued: nat) {
    && d.Valid() && |d.order| == issued
    && (forall k :: k in d.at ==> d.at[k].body.tokenId == k)
    && (forall i :: 0 <= i < |d.order| ==> d.at[d.order[i]].body.issueSeq == i + 1)
  }

  /** Each action under its own id; `inflight` of them are still dispatched. */
  ghost predicate ActionsOk(d: Dict<Id, ActionRec>, inflight: int) {
    && d.Valid() && inflight == Sum(d, OneIfDispatched)
    && (forall k :: k in d.at ==> d.at[k].actionId == k)
  }

  /** Spent tokens and actions name each other. */
  ghost predicate Matched(tokens: map<Id, TokenRec>, actions: map<Id, ActionRec>) {
    && (forall k :: k in tokens && tokens[k].state == SPENT ==>
          tokens[k].actionId.Some? && tokens[k].actionId.value in actions
          && actions[tokens[k].actionId.value].tokenId == k)
    && (forall a :: a in actions ==>
          actions[a].tokenId in tokens && tokens[actions[a].tokenId].state == SPENT
          && tokens[actions[a].tokenId].actionId == Some(a))
  }

  /** They match one to one, and there are equally many of both. */
  ghost predicate Paired(tokens: Dict<Id, TokenRec>, actions: Dict<Id, ActionRec>) {
    tokens.Valid() && Sum(tokens, OneIfSpent) == |actions.order| && Matched(tokens.at, actions.at)
  }

  /** Each reservation carries the estimator's charge; a finished one stayed inside its envelope. */
  ghost predicate Priced(cfg: Config, r: Reservation) {
    && ChargeOf(cfg, r.work) == Ok(r.charged)
    && (r.state == CHARGED <==> r.observedTokens == None)
    && (r.state == FINISHED ==>
          && r.observedTokens.Some? && 0 <= r.observedTokens.value <= r.work.maxOutputTokens
          && r.observedFlops.Some? && r.observedFlops.value <= r.charged
          && ObservedCharge(cfg, r.work, r.observedTokens.value) == Ok(r.observedFlops.value))
  }

  /** Each reservation under its own id; `charged` is the sum of all their charges. */
  ghost predicate ComputesOk(cfg: Config, d: Dict<Id, ComputeRec>, charged: nat) {
    && d.Valid() && charged == Sum(d, ChargeIn)
    && (forall k :: k in d.at ==> d.at[k].reservation.computeId == k && Priced(cfg, d.at[k].reservation))
  }

  ghost predicate WithinLimits(cfg: Config, c: Core) {
    && (cfg.budgets.maxFlops.Some? ==> c.charged <= cfg.budgets.maxFlops.value)
    && c.spawnIssued == c.issueSeq <= cfg.budgets.spawns
    && c.inflight <= MAX_INFLIGHT_ACTIONS
  }

  ghost predicate Drained(at: map<Id, ActionRec>) {
    forall k :: k in at ==> at[k].state != DISPATCHED
  }

  /** A stop reason exists exactly from STOPPING on, and alone decides how the run ends. */
  ghost predicate Coherent(c: Core) {
    && (c.stopReason.Some? <==> Rank(c.phase) >= 3 && c.phase != REJECTED)
    && (Terminal(c.phase) && c.phase != REJECTED ==> c.phase == FinalPhase(c.stopReason.value))
    && (Rank(c.phase) < 2 || c.phase == REJECTED ==>
          c.tokens == Empty() && c.actions == Empty() && c.computes == Empty())
    && (Rank(c.phase) >= 5 ==> Drained(c.actions.at))
  }

  ghost predicate Inv(cfg: Config, c: Core) {
    && TokensOk(c.tokens, c.issueSeq)
    && ActionsOk(c.actions, c.inflight)
    && Paired(c.tokens, c.actions)
    && ComputesOk(cfg, c.computes, c.charged)
    && WithinLimits(cfg, c)
    && Coherent(c)
  }

  lemma InitiallyInv(cfg: Config)
    ensures Inv(cfg, INITIAL)
  {
  }

  // ---- one dictionary at a time ----

  lemma NewTokenOk(d: Dict<Id, TokenRec>, k: Id, rec: TokenRec)
    requires TokensOk(d, |d.order|) && k !in d.at
    requires rec.body.tokenId == k && rec.body.issueSeq == |d.order| + 1
    ensures TokensOk(d.Put(k, rec), |d.order| + 1)
  {
    var d' := d.Put(k, rec);
    forall i | 0 <= i < |d'.order| ensures d'.at[d'.order[i]].body.issueSeq == i + 1 {
      if i < |d.order| { assert d'.order[i] == d.order[i] && d.order[i] in d.at; }
    }
  }

  lemma TokenUpdateOk(d: Dict<Id, TokenRec>, k: Id, rec: TokenRec)
    requires TokensOk(d, |d.order|) && k in d.at && rec.body == d.at[k].body
    ensures TokensOk(d.Put(k, rec), |d.order|)
  {
  }

  /** A token that is not spent, before and after, does not touch the pairing. */
  lemma PairedUnspent(tokens: Dict<Id, TokenRec>, actions: Dict<Id, ActionRec>, k: Id, rec: TokenRec)
    requires Paired(tokens, actions) && rec.state != SPENT
    requires k in tokens.at ==> tokens.at[k].state != SPENT
    ensures Paired(tokens.Put(k, rec), actions)
  {
    assert Matched(tokens.at[k := rec], actions.at);
    hide Matched, Total;
    SumPut(tokens, OneIfSpent, k, rec);
  }

  lemma PairedSpend(tokens: Dict<Id, TokenRec>, actions: Dict<Id, ActionRec>, k: Id, rec: TokenRec, a: Id,
          arec: ActionRec)
    requires Paired(tokens, actions) && k in tokens.at && tokens.at[k].state != SPENT && a !in actions.at
    requires rec.state == SPENT && rec.actionId == Some(a) && arec.tokenId == k
    ensures Paired(tokens.Put(k, rec), actions.Put(a, arec))
  {
    assert Matched(tokens.at[k := rec], actions.at[a := arec]);
    hide Matched, Total;
    SumPut(tokens, OneIfSpent, k, rec);
  }

  lemma PairedResolve(tokens: Dict<Id, TokenRec>, actions: Dict<Id, ActionRec>, a: Id, arec: ActionRec)
    requires Paired(tokens, actions) && a in actions.at && arec.tokenId == actions.at[a].tokenId
    ensures Paired(tokens, actions.Put(a, arec))
  {
    assert Matched(tokens.at, actions.at[a := arec]);
  }

  lemma ActionPutOk(d: Dict<Id, ActionRec>, inflight: int, k: Id, rec: ActionRec)
    requires ActionsOk(d, inflight) && rec.actionId == k
    ensures ActionsOk(d.Put(k, rec),
            inflight - (if k in d.at then OneIfDispatched(d.at[k]) else 0) + OneIfDispatched(rec))
  {
    SumPut(d, OneIfDispatched, k, rec);
  }

  lemma ComputePutOk(cfg: Config, d: Dict<Id, ComputeRec>, charged: nat, k: Id, rec: ComputeRec, charged': nat)
    requires ComputesOk(cfg, d, charged)
    requires rec.reservation.computeId == k && Priced(cfg, rec.reservation)
    requires charged' == charged - (if k in d.at then ChargeIn(d.at[k]) else 0) + ChargeIn(rec)
    ensures ComputesOk(cfg, d.Put(k, rec), charged')
  {
    hide Priced;
    SumPut(d, ChargeIn, k, rec);
  }

  lemma {:induction false} SweptSum(order: seq<Id>, at: map<Id, TokenRec>, now: int)
    requires forall k :: k in order ==> k in at
    ensures Total(order, map k | k in at :: Swept(at[k], now), OneIfSpent) == Total(order, at, OneIfSpent)
  {
    if order != [] {
      SweptSum(order[..|order| - 1], at, now);
    }
  }

  lemma SweptTokensOk(d: Dict<Id, TokenRec>, now: int)
    requires TokensOk(d, |d.order|)
    ensures TokensOk(d.(at := map k | k in d.at :: Swept(d.at[k], now)), |d.order|)
  {
    var d' := d.(at := map k | k in d.at :: Swept(d.at[k], now));
    forall i | 0 <= i < |d.order| ensures d'.at[d'.order[i]].body.issueSeq == i + 1 {
      assert d.order[i] in d.at;
    }
  }

  lemma SweptPaired(tokens: Dict<Id, TokenRec>, actions: Dict<Id, ActionRec>, now: int)
    requires Paired(tokens, actions)
    ensures Paired(tokens.(at := map k | k in tokens.at :: Swept(tokens.at[k], now)), actions)
  {
    var at := map k | k in tokens.at :: Swept(tokens.at[k], now);
    assert Matched(at, actions.at);
    hide Matched;
    SweptSum(tokens.order, tokens.at, now);
  }

  // ---- every operation keeps the invariant ----

  /** The parts of the invariant that the case analyses below look at. */
  lemma Parts(cfg: Config, c: Core)
    requires Inv(cfg, c)
    ensures Coherent(c) && WithinLimits(cfg, c)
    ensures forall k :: k in c.actions.at ==> c.actions.at[k].actionId == k
  {
  }

  /** Changing only the phase-related fields keeps the bookkeeping half of the invariant. */
  lemma SameBooks(cfg: Config, c: Core, c': Core)
    requires Inv(cfg, c) && Coherent(c')
    requires c'.tokens == c.tokens && c'.actions == c.actions && c'.computes == c.computes
    requires c'.charged == c.charged && c'.spawnIssued == c.spawnIssued && c'.issueSeq == c.issueSeq
    requires c'.inflight == c.inflight
    ensures Inv(cfg, c')
  {
  }

  lemma IssueKeeps(cfg: Config, c: Core, channel: Id, a: Action, now: Time, id: Id)
    requires Inv(cfg, c) && c.phase == RUNNING && id !in c.tokens.at && c.spawnIssued < cfg.budgets.spawns
    ensures Inv(cfg, c.(spawnIssued := c.spawnIssued + 1, issueSeq := c.issueSeq + 1,
                        tokens := c.tokens.Put(id, NewToken(cfg, c, channel, a, now, id))))
  {
    hide ActionsOk, Paired, ComputesOk;
    var rec := NewToken(cfg, c, channel, a, now, id);
    NewTokenOk(c.tokens, id, rec);
    PairedUnspent(c.tokens, c.actions, id, rec);
  }

  lemma ExpireOneKeeps(cfg: Config, c: Core, id: Id)
    requires Inv(cfg, c) && id in c.tokens.at && c.tokens.at[id].state == ISSUED && c.phase == RUNNING
    ensures Inv(cfg, c.(tokens := c.tokens.Put(id, c.tokens.at[id].(state := EXPIRED))))
  {
    hide ActionsOk, Paired, ComputesOk;
    var rec := c.tokens.at[id].(state := EXPIRED);
    TokenUpdateOk(c.tokens, id, rec);
    PairedUnspent(c.tokens, c.actions, id, rec);
  }

  lemma SpendKeeps(cfg: Config, c: Core, id: Id, arec: ActionRec)
    requires Inv(cfg, c) && c.phase == RUNNING && c.inflight < MAX_INFLIGHT_ACTIONS
    requires id in c.tokens.at && c.tokens.at[id].state == ISSUED
    requires arec.actionId !in c.actions.at && arec.tokenId == id && arec.state == DISPATCHED
    ensures Inv(cfg, c.(tokens := c.tokens.Put(id, c.tokens.at[id].(state := SPENT, actionId := Some(arec.actionId))),
                        inflight := c.inflight + 1, actions := c.actions.Put(arec.actionId, arec)))
  {
    hide ActionsOk, Paired, ComputesOk;
    var rec := c.tokens.at[id].(state := SPENT, actionId := Some(arec.actionId));
    TokenUpdateOk(c.tokens, id, rec);
    PairedSpend(c.tokens, c.actions, id, rec, arec.actionId, arec);
    ActionPutOk(c.actions, c.inflight, arec.actionId, arec);
  }

  lemma ExpireKeeps(cfg: Config, c: Core, now: int)
    requires Inv(cfg, c)
    ensures Inv(cfg, ExpireTokens(c, now).core)
  {
    if c.phase == RUNNING {
      SweptTokensOk(c.tokens, now);
      SweptPaired(c.tokens, c.actions, now);
    }
  }

  /** Replacing a dispatched action by its resolved record. */
  lemma ResolveKeeps(cfg: Config, c: Core, id: Id, a: ActionRec)
    requires Inv(cfg, c) && Resolvable(c, id)
    requires a.state != DISPATCHED && a.actionId == id && a.tokenId == c.actions.at[id].tokenId
    ensures Inv(cfg, c.(inflight := c.inflight - 1, actions := c.actions.Put(id, a)))
  {
    hide TokensOk, ActionsOk, Paired, ComputesOk, Total;
    PairedResolve(c.tokens, c.actions, id, a);
    ActionPutOk(c.actions, c.inflight, id, a);
  }

  /** Adding or replacing a reservation, with the total charged moving along. */
  lemma PriceKeeps(cfg: Config, c: Core, id: Id, r: ComputeRec, charged: nat)
    requires Inv(cfg, c) && c.phase == RUNNING
    requires Priced(cfg, r.reservation) && r.reservation.computeId == id
    requires charged == c.charged - (if id in c.computes.at then ChargeIn(c.computes.at[id]) else 0) + ChargeIn(r)
    requires cfg.budgets.maxFlops.Some? ==> charged <= cfg.budgets.maxFlops.value
    ensures Inv(cfg, c.(charged := charged, computes := c.computes.Put(id, r)))
  {
    hide TokensOk, ActionsOk, Paired, ComputesOk;
    ComputePutOk(cfg, c.computes, c.charged, id, r, charged);
  }

  /** Work finished inside its envelope always has an estimate, and it is at most the charge. */
  lemma ObservedNeverFails(cfg: Config, w: Work, observed: nat)
    requires ChargeOf(cfg, w).Ok? && observed <= w.maxOutputTokens
    ensures ObservedCharge(cfg, w, observed).Ok?
    ensures ObservedCharge(cfg, w, observed).value <= ChargeOf(cfg, w).value
  {
    E.ObservedWithinCharge(ModelOf(cfg.catalog, w.modelId).value, w, observed);
  }

  lemma IssueTokenKeeps(cfg: Config, c: Core, channel: Id, a: Action, now: Time, id: Id, req: Id)
    requires Inv(cfg, c) && id !in c.tokens.at
    ensures Inv(cfg, IssueToken(cfg, c, channel, a, now, id, req).core)
  {
    hide Inv, PolicyAllows, NewToken;
    Parts(cfg, c);
    var c' := IssueToken(cfg, c, channel, a, now, id, req).core;
    if c.phase == RUNNING && PolicyAllows(cfg, a) && c.spawnIssued < cfg.budgets.spawns {
      IssueKeeps(cfg, c, channel, a, now, id);
    } else {
      SameBooks(cfg, c, c');
    }
  }

  lemma DispatchKeeps(cfg: Config, c: Core, channel: Id, body: TokenBody, a: Action, now: Time, id: Id, req: Id)
    requires Inv(cfg, c) && id !in c.actions.at
    ensures Inv(cfg, DispatchAction(cfg, c, channel, body, a, now, id, req).core)
  {
    hide Inv;
    if body.tokenId in c.tokens.at && c.tokens.at[body.tokenId].state == ISSUED && c.phase == RUNNING {
      if now >= c.tokens.at[body.tokenId].expiresUs {
        ExpireOneKeeps(cfg, c, body.tokenId);
      } else if c.inflight < MAX_INFLIGHT_ACTIONS {
        SpendKeeps(cfg, c, body.tokenId, ActionRec(id, channel, a.Kind(), body.tokenId, DISPATCHED, None, None, None));
      }
    }
  }

  lemma FinishKeeps(cfg: Config, c: Core, id: Id, result: Option<ActionResult>, error: Option<Code>, exit: Option<Exit>)
    requires Inv(cfg, c)
    ensures Inv(cfg, FinishAction(c, id, result, error, exit).core)
  {
    hide Inv;
    if Resolvable(c, id) {
      Parts(cfg, c);
      ResolveKeeps(cfg, c, id, FinishedRec(c.actions.at[id], result, error, exit));
    }
  }

  lemma GiveUpKeeps(cfg: Config, c: Core, id: Id, code: Code)
    requires Inv(cfg, c)
    ensures Inv(cfg, GiveUpAction(c, id, code).core)
  {
    hide Inv;
    if Resolvable(c, id) {
      Parts(cfg, c);
      ResolveKeeps(cfg, c, id, c.actions.at[id].(state := UNKNOWN, error := Some(code)));
    }
  }

  lemma ReserveKeeps(cfg: Config, c: Core, channel: Id, w: Work, id: Id, req: Id)
    requires Inv(cfg, c) && id !in c.computes.at
    ensures Inv(cfg, ReserveCompute(cfg, c, channel, w, id, req).core)
  {
    hide Inv, ChargeOf;
    Parts(cfg, c);
    var c' := ReserveCompute(cfg, c, channel, w, id, req).core;
    if c.phase == RUNNING && ChargeOf(cfg, w).Ok? && AdmitsFlops(cfg, c, ChargeOf(cfg, w).value) {
      var charge := ChargeOf(cfg, w).value;
      var r := ComputeRec(Reservation(id, w, charge, CHARGED, None, None), channel);
      assert Priced(cfg, r.reservation);
      PriceKeeps(cfg, c, id, r, c.charged + charge);
    } else {
      SameBooks(cfg, c, c');
    }
  }

  /** Finishing a reservation inside its envelope: the estimate exists and fits the charge. */
  lemma FinishInsideKeeps(cfg: Config, c: Core, id: Id, observed: nat)
    requires Inv(cfg, c) && c.phase == RUNNING && id in c.computes.at
    requires c.computes.at[id].reservation.state == CHARGED
    requires observed <= c.computes.at[id].reservation.work.maxOutputTokens
    ensures ObservedCharge(cfg, c.computes.at[id].reservation.work, observed).Ok?
    ensures var rec := c.computes.at[id];
            var charge := ObservedCharge(cfg, rec.reservation.work, observed).value;
            Inv(cfg, c.(computes := c.computes.Put(id, rec.(reservation :=
              rec.reservation.(state := FINISHED, observedTokens := Some(observed), observedFlops := Some(charge))))))
  {
    hide ChargeOf, ObservedCharge;
    var rec := c.computes.at[id];
    ObservedNeverFails(cfg, rec.reservation.work, observed);
    var charge := ObservedCharge(cfg, rec.reservation.work, observed).value;
    var res := rec.reservation.(state := FINISHED, observedTokens := Some(observed), observedFlops := Some(charge));
    PriceKeeps(cfg, c, id, rec.(reservation := res), c.charged);
  }

  lemma CompleteKeeps(cfg: Config, c: Core, channel: Id, id: Id, observed: nat, req: Id)
    requires Inv(cfg, c)
    ensures Inv(cfg, FinishCompute(cfg, c, channel, id, observed, req).core)
  {
    hide Inv, ObservedCharge;
    Parts(cfg, c);
    var c' := FinishCompute(cfg, c, channel, id, observed, req).core;
    if c'.computes == c.computes {
      SameBooks(cfg, c, c');
    } else {
      FinishInsideKeeps(cfg, c, id, observed);
    }
  }

  predicate TouchesRecords(op: Op) {
    op.Issue? || op.Dispatch? || op.Expire? || op.Finish? || op.GiveUp? || op.Reserve? || op.Complete?
  }

  lemma PhaseOpCoherent(cfg: Config, c: Core, op: Op)
    requires Coherent(c) && Enabled(c, op) && !TouchesRecords(op)
    ensures Coherent(Apply(cfg, c, op).core)
  {
    hide IssueToken, DispatchAction, ExpireTokens, FinishAction, GiveUpAction, ReserveCompute, FinishCompute;
  }

  lemma PhaseOpKeeps(cfg: Config, c: Core, op: Op)
    requires Inv(cfg, c) && Enabled(c, op) && !TouchesRecords(op)
    ensures Inv(cfg, Apply(cfg, c, op).core)
  {
    hide Inv, IssueToken, DispatchAction, ExpireTokens, FinishAction, GiveUpAction, ReserveCompute, FinishCompute;
    Parts(cfg, c);
    hide Coherent, WithinLimits;
    PhaseOpCoherent(cfg, c, op);
    SameBooks(cfg, c, Apply(cfg, c, op).core);
  }

  /** Every operation keeps the invariant. */
  lemma ApplyKeepsInv(cfg: Config, c: Core, op: Op)
    requires Inv(cfg, c) && Enabled(c, op)
    ensures Inv(cfg, Apply(cfg, c, op).core)
  {
    hide Inv, IssueToken, DispatchAction, ExpireTokens, FinishAction, GiveUpAction, ReserveCompute, FinishCompute;
    match op {
      case Issue(channel, a, now, id, req) => IssueTokenKeeps(cfg, c, channel, a, now, id, req);
      case Dispatch(channel, body, a, now, id, req) => DispatchKeeps(cfg, c, channel, body, a, now, id, req);
      case Expire(now) => ExpireKeeps(cfg, c, now);
      case Finish(id, result, error, exit) => FinishKeeps(cfg, c, id, result, error, exit);
      case GiveUp(id, code) => GiveUpKeeps(cfg, c, id, code);
      case Reserve(channel, w, id, req) => ReserveKeeps(cfg, c, channel, w, id, req);
      case Complete(channel, id, observed, req) => CompleteKeeps(cfg, c, channel, id, observed, req);
      case _ => PhaseOpKeeps(cfg, c, op);
    }
  }

  /** A run never dispatches more actions than its spawn budget, nor more than 32 at once. */
  lemma ActionsWithinBudget(cfg: Config, c: Core)
    requires Inv(cfg, c)
    ensures |c.actions.order| <= |c.tokens.order| == c.spawnIssued <= cfg.budgets.spawns
    ensures 0 <= c.inflight <= |c.actions.order| && c.inflight <= MAX_INFLIGHT_ACTIONS
    ensures c.inflight == 0 <==> Drained(c.actions.at)
  {
    TotalBounds(c.tokens.order, c.tokens.at, OneIfSpent);
    TotalBounds(c.actions.order, c.actions.at, OneIfDispatched);
    DrainedTotal(c.actions.order, c.actions.at);
  }

  lemma {:induction false} DrainedTotal(order: seq<Id>, at: map<Id, ActionRec>)
    requires forall k :: k in order ==> k in at
    ensures Total(order, at, OneIfDispatched) == 0 <==> forall k :: k in order ==> at[k].state != DISPATCHED
  {
    if order != [] {
      TotalBounds(order[..|order| - 1], at, OneIfDispatched);
      DrainedTotal(order[..|order| - 1], at);
      assert order[|order| - 1] in order;
      assert forall k :: k in order[..|order| - 1] ==> k in order;
      assert forall k :: k in order ==> k in order[..|order| - 1] || k == order[|order| - 1];
    }
  }
}
