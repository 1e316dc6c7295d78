/** What a run answers to the requests that grant no effect, and to those it cannot take up. */
module Answers {
  import opened Types
  import opened Dicts
  import opened Ledger
  import opened Invariants
  import opened Audit
  import opened Supervisor
  import opened Runs
  import opened Requests
  import opened Admission
  import E = Estimator

  /** The request is refused without an event. */
  ghost predicate Failed(su: Setup, r: Run, st: Move, code: Code)
    requires Legal(su, r, st) && st.Serve?
  {
    AnswerOf(su, r, st) == Reply(None, Some(code)) && Stores(su, r, st) && Books(su, r, st, r.core, [])
  }

  /** The request is answered, and nothing else happens. */
  ghost predicate Told(su: Setup, r: Run, st: Move, result: Payload)
    requires Legal(su, r, st) && st.Serve?
  {
    AnswerOf(su, r, st) == Reply(Some(result), None) && Stores(su, r, st) && Books(su, r, st, r.core, [])
  }

  lemma FailedBy(su: Setup, r: Run, st: Move, op: Op, code: Code)
    requires Legal(su, r, st) && Amounts(su, r, st, op) && code != BUSY
    requires Apply(su.cfg, r.core, op) == Step(r.core, Outcome([], None, Some(code)))
    ensures Failed(su, r, st, code)
  {
    assert !Latches([]);
    hide Apply, Legal, NextRun, AnswerOf, Books, Stores, Latches, RequestOp, Asks;
    Served(su, r, st, op);
  }

  lemma ToldBy(su: Setup, r: Run, st: Move, op: Op, result: Payload)
    requires Legal(su, r, st) && Amounts(su, r, st, op) && !result.IssuedToken?
    requires Apply(su.cfg, r.core, op) == Step(r.core, Outcome([], Some(result), None))
    ensures Told(su, r, st, result)
  {
    assert !Latches([]);
    NotSigned(su, result);
    hide Apply, Legal, NextRun, AnswerOf, Books, Stores, Latches, RequestOp, Asks, Signed;
    Served(su, r, st, op);
  }

  /** A new request of channel `ch` to a run that can still deny. */
  predicate AsksLive(r: Run, st: Move, ch: Id) {
    Asks(r, st) && st.channel == Some(ch) && r.core.phase in {CREATED, ARMING, RUNNING, STOPPING, UNCONFIRMED}
  }

  lemma RefuseLive(cfg: Config, c: Core, req: Id)
    requires c.phase in {CREATED, ARMING, RUNNING, STOPPING, UNCONFIRMED}
    ensures forall code :: Apply(cfg, c, Refuse(req, code))
                        == Step(c, Outcome([RequestDenied(req, code)], None, Some(code)))
  {
  }

  // ---- where an action stands ----

  /** A channel is told how an action of its own stands, and nothing about any other. */
  lemma ActionAsked(su: Setup, r: Run, st: Move, ch: Id)
    requires Legal(su, r, st) && AsksLive(r, st, ch) && st.request.ActionGet?
    ensures var id, actions := st.request.actionId, r.core.actions.at;
            if id !in actions then Denied(su, r, st, NOT_FOUND)
            else if actions[id].channelId != ch then Denied(su, r, st, UNAUTHORIZED)
            else Told(su, r, st, ActionView(id, actions[id].state, actions[id].result, actions[id].error))
  {
    ViewAmounts(su, r, st, ch);
    hide *;
    var id, actions := st.request.actionId, r.core.actions.at;
    var op := View(ch, id, st.key.id);
    if id !in actions {
      DeniedBy(su, r, st, op, NOT_FOUND);
    } else if actions[id].channelId != ch {
      DeniedBy(su, r, st, op, UNAUTHORIZED);
    } else {
      ToldBy(su, r, st, op, ActionView(id, actions[id].state, actions[id].result, actions[id].error));
    }
  }

  lemma ViewAmounts(su: Setup, r: Run, st: Move, ch: Id)
    requires AsksLive(r, st, ch) && st.request.ActionGet?
    ensures st.Serve?
    ensures var id, actions, op := st.request.actionId, r.core.actions.at, View(ch, st.request.actionId, st.key.id);
            var s := Apply(su.cfg, r.core, op);
            && Amounts(su, r, st, op)
            && if id !in actions then
                 s == Step(r.core, Outcome([RequestDenied(st.key.id, NOT_FOUND)], None, Some(NOT_FOUND)))
               else if actions[id].channelId != ch then
                 s == Step(r.core, Outcome([RequestDenied(st.key.id, UNAUTHORIZED)], None, Some(UNAUTHORIZED)))
               else
                 s == Step(r.core,
                           Outcome([], Some(ActionView(id, actions[id].state, actions[id].result, actions[id].error)),
                                   None))
  {
  }

  // ---- reserving compute ----

  /** The catalogue entry of a model: the last one with its id. */
  ghost predicate Listed(catalog: seq<E.Model>, id: Id, m: E.Model) {
    exists k :: && 0 <= k < |catalog| && catalog[k] == m && m.id == id
                && forall n :: k < n < |catalog| ==> catalog[n].id != id
  }

  lemma {:induction false} ListedIff(catalog: seq<E.Model>, id: Id)
    ensures ModelOf(catalog, id).Some? ==> Listed(catalog, id, ModelOf(catalog, id).value)
    ensures forall m :: Listed(catalog, id, m) ==> ModelOf(catalog, id) == Some(m)
  {
    if catalog != [] {
      var n := |catalog| - 1;
      ListedIff(catalog[..n], id);
      if catalog[n].id == id {
        assert Listed(catalog, id, catalog[n]);
      } else {
        forall m ensures Listed(catalog, id, m) <==> Listed(catalog[..n], id, m) {
          ListedBefore(catalog, id, m);
        }
      }
    }
  }

  lemma ListedBefore(catalog: seq<E.Model>, id: Id, m: E.Model)
    requires catalog != [] && catalog[|catalog| - 1].id != id
    ensures Listed(catalog, id, m) <==> Listed(catalog[..|catalog| - 1], id, m)
  {
    var init := catalog[..|catalog| - 1];
    assert forall k :: 0 <= k < |init| ==> init[k] == catalog[k];
  }

  /** The catalogue prices this work at `n` operations. */
  ghost predicate PricedAt(cfg: Config, w: Work, n: int) {
    exists m :: && Listed(cfg.catalog, w.modelId, m) && E.Estimable(m)
                && E.Workable(w.inputTokens, w.maxOutputTokens, w.batch)
                && E.CostsExactly(m, w.inputTokens + w.maxOutputTokens, w.batch, n)
  }

  lemma WorkableIff(w: Work)
    ensures E.WorkDims(w.inputTokens, w.maxOutputTokens, w.batch)
       <==> E.Workable(w.inputTokens, w.maxOutputTokens, w.batch)
  {
  }

  /** What the charge of a piece of work is, or why there is none. */
  lemma ChargeIs(cfg: Config, w: Work)
    ensures var charge, model := ChargeOf(cfg, w), ModelOf(cfg.catalog, w.modelId);
            if !E.Workable(w.inputTokens, w.maxOutputTokens, w.batch) then charge == Err(INVALID_INPUT)
            else if forall m :: !Listed(cfg.catalog, w.modelId, m) then charge == Err(UNSUPPORTED_MODEL)
            else if forall m :: Listed(cfg.catalog, w.modelId, m) ==> !E.Estimable(m) then
              charge == Err(INVALID_INPUT)
            else charge.Ok? && PricedAt(cfg, w, charge.value)
    ensures forall n :: PricedAt(cfg, w, n) ==> ChargeOf(cfg, w) == Ok(n)
  {
    WorkableIff(w);
    ListedIff(cfg.catalog, w.modelId);
    var model := ModelOf(cfg.catalog, w.modelId);
    if model.Some? {
      E.EstimateIsExact(model.value, w.inputTokens, w.maxOutputTokens, w.batch);
    }
    hide Listed, ModelOf, E.WorkDims, E.Workable, E.FromParts, E.CostsExactly;
    forall n | PricedAt(cfg, w, n) ensures ChargeOf(cfg, w) == Ok(n) {
      var charged := E.FromParts(model.value, w.inputTokens, w.maxOutputTokens, w.batch).value.chargedFlops;
      E.CostIsUnique(model.value, w.inputTokens + w.maxOutputTokens, w.batch, n, charged);
    }
  }

  function WithCharge(c: Core, res: Reservation, ch: Id): Core {
    c.(charged := c.charged + res.charged, computes := c.computes.Put(res.computeId, ComputeRec(res, ch)))
  }

  /** Compute: a running run prices a reservation by the catalogue; it denies and stops exactly when the budget
      cannot bear the price, and charges exactly the price otherwise. */
  lemma ComputeAsked(su: Setup, r: Run, st: Move, ch: Id)
    requires Legal(su, r, st) && AsksRunning(r, st, ch) && st.request.ReserveReq?
    ensures st.Serve? && st.inputs.newId.Some?
    ensures var w, cap := st.request.work, su.cfg.budgets.maxFlops;
            if !E.Workable(w.inputTokens, w.maxOutputTokens, w.batch) then Denied(su, r, st, INVALID_INPUT)
            else if forall m :: !Listed(su.cfg.catalog, w.modelId, m) then Denied(su, r, st, UNSUPPORTED_MODEL)
            else if forall m :: Listed(su.cfg.catalog, w.modelId, m) ==> !E.Estimable(m) then
              Denied(su, r, st, INVALID_INPUT)
            else
              exists n: nat :: && PricedAt(su.cfg, w, n)
                               && ComputeGranted(su, r, st, ch, n, cap.Some? && r.core.charged + n > cap.value)
  {
    ReserveAmounts(su, r, st, ch);
    hide *;
    var w := st.request.work;
    var op := Reserve(ch, w, st.inputs.newId.value, st.key.id);
    ChargeIs(su.cfg, w);
    if !E.Workable(w.inputTokens, w.maxOutputTokens, w.batch) {
      DeniedBy(su, r, st, Refuse(st.key.id, INVALID_INPUT), INVALID_INPUT);
    } else {
      ReserveCases(su.cfg, r.core, op);
      var charge := ChargeOf(su.cfg, w);
      if charge.Err? {
        DeniedBy(su, r, st, op, charge.error);
      } else {
        ComputePriced(su, r, st, ch, op, charge.value);
      }
    }
  }

  /** The work is charged at `n`, or it is denied and the run stopped. */
  ghost predicate ComputeGranted(su: Setup, r: Run, st: Move, ch: Id, n: nat, over: bool)
    requires Legal(su, r, st) && st.Serve? && st.request.ReserveReq? && st.inputs.newId.Some?
  {
    var res := Reservation(st.inputs.newId.value, st.request.work, n, CHARGED, None, None);
    if over then DeniedAndStopped(su, r, st, FLOPS_CAP_REACHED, FLOPS_CAP)
    else GrantedAs(su, r, st, Reserved(res), WithCharge(r.core, res, ch), ComputeReserved(res))
  }

  lemma ComputePriced(su: Setup, r: Run, st: Move, ch: Id, op: Op, n: nat)
    requires Legal(su, r, st) && AsksRunning(r, st, ch) && st.request.ReserveReq? && st.inputs.newId.Some?
    requires op == Reserve(ch, st.request.work, st.inputs.newId.value, st.key.id) && Amounts(su, r, st, op)
    requires ChargeOf(su.cfg, st.request.work) == Ok(n)
    ensures var cap := su.cfg.budgets.maxFlops;
            ComputeGranted(su, r, st, ch, n, cap.Some? && r.core.charged + n > cap.value)
  {
    var cap := su.cfg.budgets.maxFlops;
    var res := Reservation(st.inputs.newId.value, st.request.work, n, CHARGED, None, None);
    assert r.core.phase == RUNNING && r.core.stopReason == None;
    hide Legal, AnswerOf, Books, Stores, NextRun, Apply, Amounts, DeniedAndStopped, GrantedAs, AsksRunning, ChargeOf,
         WithCharge, Signed;
    ReserveCases(su.cfg, r.core, op);
    if cap.Some? && r.core.charged + n > cap.value {
      StoppedBy(su, r, st, op, FLOPS_CAP_REACHED, FLOPS_CAP);
    } else {
      NotSigned(su, Reserved(res));
      GrantedBy(su, r, st, op, Reserved(res), Reserved(res), WithCharge(r.core, res, ch), ComputeReserved(res));
    }
  }

  lemma ReserveAmounts(su: Setup, r: Run, st: Move, ch: Id)
    requires AsksRunning(r, st, ch) && st.request.ReserveReq?
    ensures st.Serve? && st.inputs.newId.Some? && r.core.phase == RUNNING && r.core.stopReason == None
    ensures var w := st.request.work;
            Amounts(su, r, st,
                    if !E.Workable(w.inputTokens, w.maxOutputTokens, w.batch) then Refuse(st.key.id, INVALID_INPUT)
                    else Reserve(ch, w, st.inputs.newId.value, st.key.id))
    ensures Apply(su.cfg, r.core, Refuse(st.key.id, INVALID_INPUT))
         == Step(r.core, Outcome([RequestDenied(st.key.id, INVALID_INPUT)], None, Some(INVALID_INPUT)))
  {
    WorkableIff(st.request.work);
    hide E.Workable, E.WorkDims;
  }

  lemma ReserveCases(cfg: Config, c: Core, op: Op)
    requires op.Reserve? && c.phase == RUNNING && c.stopReason == None
    ensures var s, charge, cap := Apply(cfg, c, op), ChargeOf(cfg, op.work), cfg.budgets.maxFlops;
            if charge.Err? then
              s == Step(c, Outcome([RequestDenied(op.req, charge.error)], None, Some(charge.error)))
            else if cap.Some? && c.charged + charge.value > cap.value then
              s == Step(c.(phase := STOPPING, stopReason := Some(FLOPS_CAP)),
                        Outcome([RequestDenied(op.req, FLOPS_CAP_REACHED), StopLatched(FLOPS_CAP)], None,
                                Some(FLOPS_CAP_REACHED)))
            else
              var res := Reservation(op.computeId, op.work, charge.value, CHARGED, None, None);
              s == Step(WithCharge(c, res, op.channel), Outcome([ComputeReserved(res)], Some(Reserved(res)), None))
  {
    hide ChargeOf;
    assert [RequestDenied(op.req, FLOPS_CAP_REACHED)] + [StopLatched(FLOPS_CAP)]
        == [RequestDenied(op.req, FLOPS_CAP_REACHED), StopLatched(FLOPS_CAP)];
  }

  // ---- finishing compute ----

  /** The model a reservation was priced with costs this much at the observed output. */
  ghost predicate ObservedAt(cfg: Config, w: Work, observed: nat, n: int) {
    exists m :: && Listed(cfg.catalog, w.modelId, m)
                && E.CostsExactly(m, w.inputTokens + observed, w.batch, n)
  }

  function FinishedWith(c: Core, id: Id, res: Reservation): Core
    requires id in c.computes.at
  {
    c.(computes := c.computes.Put(id, c.computes.at[id].(reservation := res)))
  }

  /** Output beyond the reserved envelope is denied, and stops a run that is running. */
  ghost predicate Exceeded(su: Setup, r: Run, st: Move)
    requires Legal(su, r, st) && st.Serve?
  {
    if r.core.phase == RUNNING then DeniedAndStopped(su, r, st, ENVELOPE_EXCEEDED, FLOPS_CAP)
    else Denied(su, r, st, ENVELOPE_EXCEEDED)
  }

  /** The reservation becomes finished, at no more than its charge. */
  ghost predicate Finishes(su: Setup, r: Run, st: Move, id: Id, observed: nat)
    requires Legal(su, r, st) && st.Serve? && id in r.core.computes.at
  {
    var res := r.core.computes.at[id].reservation;
    exists n: nat :: && n <= res.charged && ObservedAt(su.cfg, res.work, observed, n)
                     && var done := res.(state := FINISHED, observedTokens := Some(observed), observedFlops := Some(n));
                        GrantedAs(su, r, st, Reserved(done), FinishedWith(r.core, id, done), ComputeFinished(done))
  }

  /** Finishing: only the channel that reserved can finish, once, inside the envelope; the same report again is
      answered the same way, and any other is denied. */
  lemma FinishAsked(su: Setup, r: Run, st: Move, ch: Id)
    requires RunInv(su, r) && Legal(su, r, st) && AsksLive(r, st, ch) && st.request.FinishReq?
    ensures st.Serve?
    ensures var id, observed, computes := st.request.computeId, st.request.observed, r.core.computes.at;
            if id !in computes then Denied(su, r, st, NOT_FOUND)
            else
              var res := computes[id].reservation;
              if computes[id].channelId != ch then Denied(su, r, st, UNAUTHORIZED)
              else if res.state == FINISHED && res.observedTokens == Some(observed) then
                Told(su, r, st, Reserved(res))
              else if res.state == CHARGED && r.core.phase != RUNNING then Failed(su, r, st, STOPPED)
              else if observed > res.work.maxOutputTokens then Exceeded(su, r, st)
              else if res.state == FINISHED then Denied(su, r, st, CONFLICT)
              else Finishes(su, r, st, id, observed)
  {
    FinishAmounts(su, r, st, ch);
    FinishFacts(su, r, st, ch);
    hide *;
    var id, observed, computes := st.request.computeId, st.request.observed, r.core.computes.at;
    var op := Complete(ch, id, observed, st.key.id);
    FinishCases(su.cfg, r.core, op);
    if id !in computes {
      DeniedBy(su, r, st, op, NOT_FOUND);
    } else if computes[id].channelId != ch {
      DeniedBy(su, r, st, op, UNAUTHORIZED);
    } else {
      FinishKnown(su, r, st, ch);
    }
  }

  lemma FinishAmounts(su: Setup, r: Run, st: Move, ch: Id)
    requires AsksLive(r, st, ch) && st.request.FinishReq?
    ensures Amounts(su, r, st, Complete(ch, st.request.computeId, st.request.observed, st.key.id))
    ensures st.Serve? && r.core.phase in {CREATED, ARMING, RUNNING, STOPPING, UNCONFIRMED}
  {
  }

  /** What the invariant says of the run and of the reservation. */
  lemma FinishFacts(su: Setup, r: Run, st: Move, ch: Id)
    requires RunInv(su, r)
    ensures r.core.phase == RUNNING ==> r.core.stopReason == None
    ensures r.core.phase == ARMING || r.core.phase == CREATED ==> r.core.computes == Empty()
    ensures forall id :: id in r.core.computes.at ==> Priced(su.cfg, r.core.computes.at[id].reservation)
  {
    hide Faithful, Timed, Released, Priced, Paired;
  }

  lemma FinishKnown(su: Setup, r: Run, st: Move, ch: Id)
    requires RunInv(su, r) && Legal(su, r, st) && AsksLive(r, st, ch) && st.request.FinishReq?
    requires st.request.computeId in r.core.computes.at && r.core.computes.at[st.request.computeId].channelId == ch
    ensures st.Serve?
    ensures var id, observed := st.request.computeId, st.request.observed;
            var res := r.core.computes.at[id].reservation;
            if res.state == FINISHED && res.observedTokens == Some(observed) then Told(su, r, st, Reserved(res))
            else if res.state == CHARGED && r.core.phase != RUNNING then Failed(su, r, st, STOPPED)
            else if observed > res.work.maxOutputTokens then Exceeded(su, r, st)
            else if res.state == FINISHED then Denied(su, r, st, CONFLICT)
            else Finishes(su, r, st, id, observed)
  {
    FinishAmounts(su, r, st, ch);
    FinishFacts(su, r, st, ch);
    var id, observed := st.request.computeId, st.request.observed;
    var res := r.core.computes.at[id].reservation;
    var op := Complete(ch, id, observed, st.key.id);
    assert r.core.phase != ARMING && r.core.phase != CREATED;
    hide *;
    FinishCases(su.cfg, r.core, op);
    if res.state == FINISHED && res.observedTokens == Some(observed) {
      ToldBy(su, r, st, op, Reserved(res));
    } else if res.state == CHARGED && r.core.phase != RUNNING {
      FailedBy(su, r, st, op, STOPPED);
    } else if observed > res.work.maxOutputTokens {
      ExceededBy(su, r, st, op);
    } else if res.state == FINISHED {
      DeniedBy(su, r, st, op, CONFLICT);
    } else {
      FinishesBy(su, r, st, op);
    }
  }

  lemma ExceededBy(su: Setup, r: Run, st: Move, op: Op)
    requires Legal(su, r, st) && Amounts(su, r, st, op)
    requires Apply(su.cfg, r.core, op)
          == if r.core.phase == RUNNING then
               Step(r.core.(phase := STOPPING, stopReason := Some(FLOPS_CAP)),
                    Outcome([RequestDenied(st.key.id, ENVELOPE_EXCEEDED), StopLatched(FLOPS_CAP)], None,
                            Some(ENVELOPE_EXCEEDED)))
             else Step(r.core, Outcome([RequestDenied(st.key.id, ENVELOPE_EXCEEDED)], None, Some(ENVELOPE_EXCEEDED)))
    ensures st.Serve? && Exceeded(su, r, st)
  {
    hide Legal, Amounts, Apply, Denied, DeniedAndStopped;
    assert st.Serve? by { AmountsServe(su, r, st, op); }
    if r.core.phase == RUNNING {
      StoppedBy(su, r, st, op, ENVELOPE_EXCEEDED, FLOPS_CAP);
    } else {
      DeniedBy(su, r, st, op, ENVELOPE_EXCEEDED);
    }
  }

  lemma AmountsServe(su: Setup, r: Run, st: Move, op: Op)
    requires Amounts(su, r, st, op)
    ensures st.Serve?
  {
  }

  lemma FinishesBy(su: Setup, r: Run, st: Move, op: Op)
    requires Legal(su, r, st) && Amounts(su, r, st, op) && op.Complete? && op.computeId in r.core.computes.at
    requires var res := r.core.computes.at[op.computeId].reservation;
             && Priced(su.cfg, res) && op.observed <= res.work.maxOutputTokens
             && ObservedCharge(su.cfg, res.work, op.observed).Ok?
    requires var res := r.core.computes.at[op.computeId].reservation;
             var done := res.(state := FINISHED, observedTokens := Some(op.observed),
                              observedFlops := Some(ObservedCharge(su.cfg, res.work, op.observed).value));
             Apply(su.cfg, r.core, op)
             == Step(FinishedWith(r.core, op.computeId, done),
                     Outcome([ComputeFinished(done)], Some(Reserved(done)), None))
    ensures st.Serve? && Finishes(su, r, st, op.computeId, op.observed)
  {
    var res := r.core.computes.at[op.computeId].reservation;
    var n := ObservedCharge(su.cfg, res.work, op.observed).value;
    var done := res.(state := FINISHED, observedTokens := Some(op.observed), observedFlops := Some(n));
    AmountsServe(su, r, st, op);
    ObservedIs(su.cfg, res, op.observed);
    NotSigned(su, Reserved(done));
    hide Legal, Amounts, Apply, Priced, ObservedCharge, GrantedAs, FinishedWith, ObservedAt, Signed;
    GrantedBy(su, r, st, op, Reserved(done), Reserved(done), FinishedWith(r.core, op.computeId, done),
              ComputeFinished(done));
  }

  lemma ObservedIs(cfg: Config, res: Reservation, observed: nat)
    requires Priced(cfg, res) && observed <= res.work.maxOutputTokens
    ensures ObservedCharge(cfg, res.work, observed).Ok?
    ensures ObservedCharge(cfg, res.work, observed).value <= res.charged
    ensures ObservedAt(cfg, res.work, observed, ObservedCharge(cfg, res.work, observed).value)
  {
    ObservedNeverFails(cfg, res.work, observed);
    ListedIff(cfg.catalog, res.work.modelId);
    var m := ModelOf(cfg.catalog, res.work.modelId).value;
    E.EstimateIsExact(m, res.work.inputTokens, observed, res.work.batch);
    hide Listed, ModelOf, E.FromParts, E.CostsExactly, E.Estimable, E.Workable, Priced, ChargeOf;
  }

  lemma FinishCases(cfg: Config, c: Core, op: Op)
    requires op.Complete? && c.phase in {CREATED, ARMING, RUNNING, STOPPING, UNCONFIRMED}
    requires c.phase == RUNNING ==> c.stopReason == None
    requires c.phase in {CREATED, ARMING} ==> c.computes == Empty()
    requires forall id :: id in c.computes.at ==> Priced(cfg, c.computes.at[id].reservation)
    ensures var s, id, observed := Apply(cfg, c, op), op.computeId, op.observed;
            if id !in c.computes.at then
              s == Step(c, Outcome([RequestDenied(op.req, NOT_FOUND)], None, Some(NOT_FOUND)))
            else
              var res := c.computes.at[id].reservation;
              if c.computes.at[id].channelId != op.channel then
                s == Step(c, Outcome([RequestDenied(op.req, UNAUTHORIZED)], None, Some(UNAUTHORIZED)))
              else if res.state == FINISHED && res.observedTokens == Some(observed) then
                s == Step(c, Outcome([], Some(Reserved(res)), None))
              else if res.state == CHARGED && c.phase != RUNNING then s == Step(c, Outcome([], None, Some(STOPPED)))
              else if observed > res.work.maxOutputTokens then
                s == if c.phase == RUNNING then
                       Step(c.(phase := STOPPING, stopReason := Some(FLOPS_CAP)),
                            Outcome([RequestDenied(op.req, ENVELOPE_EXCEEDED), StopLatched(FLOPS_CAP)], None,
                                    Some(ENVELOPE_EXCEEDED)))
                     else Step(c, Outcome([RequestDenied(op.req, ENVELOPE_EXCEEDED)], None, Some(ENVELOPE_EXCEEDED)))
              else if res.state == FINISHED then
                s == Step(c, Outcome([RequestDenied(op.req, CONFLICT)], None, Some(CONFLICT)))
              else
                && ObservedCharge(cfg, res.work, observed).Ok?
                && var n := ObservedCharge(cfg, res.work, observed).value;
                   var done := res.(state := FINISHED, observedTokens := Some(observed), observedFlops := Some(n));
                   s == Step(FinishedWith(c, id, done), Outcome([ComputeFinished(done)], Some(Reserved(done)), None))
  {
    if op.computeId in c.computes.at {
      var res := c.computes.at[op.computeId].reservation;
      if op.observed <= res.work.maxOutputTokens { ObservedIs(cfg, res, op.observed); }
    }
    assert [RequestDenied(op.req, ENVELOPE_EXCEEDED)] + [StopLatched(FLOPS_CAP)]
        == [RequestDenied(op.req, ENVELOPE_EXCEEDED), StopLatched(FLOPS_CAP)];
    hide ObservedCharge, Priced, ObservedAt;
  }

  // ---- control, and what cannot be taken up ----

  /** Stopping: a run that can be stopped is, for OPERATOR; any other reports its phase and first reason. */
  lemma StopAsked(su: Setup, r: Run, st: Move)
    requires Legal(su, r, st) && Asks(r, st) && st.request == RunStop(su.cfg.runId)
    requires r.core.phase !in {FINALIZING, REJECTED, COMPLETED, KILLED, FAILED}
    ensures if r.core.phase in {ARMING, RUNNING} && r.core.stopReason == None then
              && AnswerOf(su, r, st) == Reply(Some(StopView(STOPPING, Some(OPERATOR))), None) && Stores(su, r, st)
              && Books(su, r, st,
                       r.core.(phase := STOPPING, stopReason := Some(OPERATOR), stopLatchedUs := Some(st.at)),
                       [StopLatched(OPERATOR)])
            else Told(su, r, st, StopView(r.core.phase, r.core.stopReason))
  {
    var op := Halt(OPERATOR);
    StopCases(su, r, st);
    LatchesStop(OPERATOR);
    hide Legal, Apply, AnswerOf, Books, Stores, NextRun, Amounts, Told, Signed, Asks, Latches, RequestOp;
    if r.core.phase in {ARMING, RUNNING} && r.core.stopReason == None {
      NotSigned(su, StopView(STOPPING, Some(OPERATOR)));
      AmountsAsks(su, r, st, op);
      Served(su, r, st, op);
    } else {
      ToldBy(su, r, st, op, StopView(r.core.phase, r.core.stopReason));
    }
  }

  lemma AmountsAsks(su: Setup, r: Run, st: Move, op: Op)
    requires Amounts(su, r, st, op)
    ensures Asks(r, st) && st.Serve?
    ensures RequestOp(su, r.core, st.request, ChannelOf(st.channel), st.key.id, st.inputs) == Some(op)
  {
  }

  lemma StopCases(su: Setup, r: Run, st: Move)
    requires Asks(r, st) && st.request == RunStop(su.cfg.runId)
    requires r.core.phase !in {FINALIZING, REJECTED, COMPLETED, KILLED, FAILED}
    ensures st.Serve? && Amounts(su, r, st, Halt(OPERATOR))
    ensures Apply(su.cfg, r.core, Halt(OPERATOR))
         == if r.core.phase in {ARMING, RUNNING} && r.core.stopReason == None then
              Step(r.core.(phase := STOPPING, stopReason := Some(OPERATOR)),
                   Outcome([StopLatched(OPERATOR)], Some(StopView(STOPPING, Some(OPERATOR))), None))
            else Step(r.core, Outcome([], Some(StopView(r.core.phase, r.core.stopReason)), None))
  {
  }

  /** A control request that names another run is denied, and one with malformed parameters, on either surface, is
      denied with the code of the check that refuses them. */
  lemma ElsewhereAsked(su: Setup, r: Run, st: Move)
    requires Legal(su, r, st) && Asks(r, st) && r.core.phase in {CREATED, ARMING, RUNNING, STOPPING, UNCONFIRMED}
    ensures st.request.RunGet? || st.request.RunStop? ==>
              (st.request.runId != su.cfg.runId ==> Denied(su, r, st, NOT_FOUND))
    ensures st.request.Malformed? && st.request.code != BUSY ==> Denied(su, r, st, st.request.code)
  {
    var q := st.request;
    if (q.RunGet? || q.RunStop?) && q.runId != su.cfg.runId {
      assert Amounts(su, r, st, Refuse(st.key.id, NOT_FOUND));
      hide *;
      RefuseLive(su.cfg, r.core, st.key.id);
      DeniedBy(su, r, st, Refuse(st.key.id, NOT_FOUND), NOT_FOUND);
    } else if q.Malformed? && q.code != BUSY {
      assert Amounts(su, r, st, Refuse(st.key.id, q.code));
      hide *;
      RefuseLive(su.cfg, r.core, st.key.id);
      DeniedBy(su, r, st, Refuse(st.key.id, q.code), q.code);
    }
  }

  /** Outside RUNNING no token is issued or spent and nothing is reserved: the answer is STOPPED, without an event. */
  lemma AskedTooLate(su: Setup, r: Run, st: Move, ch: Id)
    requires Legal(su, r, st) && AsksLive(r, st, ch) && r.core.phase != RUNNING && st.inputs.newId.Some?
    requires var q := st.request;
             || q.IssueReq? || (q.DispatchReq? && q.token.body.runId == su.cfg.runId && SignedHere(su, q.token))
             || (q.ReserveReq? && E.Workable(q.work.inputTokens, q.work.maxOutputTokens, q.work.batch))
    ensures Failed(su, r, st, STOPPED)
  {
    var q, id := st.request, st.inputs.newId.value;
    var op := if q.IssueReq? then Issue(ch, q.action, st.inputs.now, id, st.key.id)
              else if q.DispatchReq? then Dispatch(ch, q.token.body, q.action, st.inputs.now, id, st.key.id)
              else Reserve(ch, q.work, id, st.key.id);
    TooLate(su, r, st, ch, op);
    hide *;
    FailedBy(su, r, st, op, STOPPED);
  }

  lemma TooLate(su: Setup, r: Run, st: Move, ch: Id, op: Op)
    requires AsksLive(r, st, ch) && r.core.phase != RUNNING && st.inputs.newId.Some?
    requires var q := st.request;
             || q.IssueReq? || (q.DispatchReq? && q.token.body.runId == su.cfg.runId && SignedHere(su, q.token))
             || (q.ReserveReq? && E.Workable(q.work.inputTokens, q.work.maxOutputTokens, q.work.batch))
    requires var q, id := st.request, st.inputs.newId.value;
             op == if q.IssueReq? then Issue(ch, q.action, st.inputs.now, id, st.key.id)
                   else if q.DispatchReq? then Dispatch(ch, q.token.body, q.action, st.inputs.now, id, st.key.id)
                   else Reserve(ch, q.work, id, st.key.id)
    ensures Amounts(su, r, st, op)
    ensures Apply(su.cfg, r.core, op) == Step(r.core, Outcome([], None, Some(STOPPED)))
  {
    if st.request.ReserveReq? { WorkableIff(st.request.work); }
    hide E.WorkDims, E.Workable;
  }

  /** From FINALIZING on a run only reports: its status, or the phase and reason of its end. Everything else is
      STOPPED, without an event; only a malformed `events.read` gets its own error, which is not stored. */
  lemma AskedAfterTheEnd(su: Setup, r: Run, st: Move)
    requires Legal(su, r, st) && Asks(r, st) && r.core.phase in {FINALIZING, REJECTED, COMPLETED, KILLED, FAILED}
    ensures NextRun(su, r, st).core == r.core && NextRun(su, r, st).journal == r.journal
    ensures var q, c := st.request, r.core;
            var asksStatus := q.RunGet? || (q.Malformed? && q.to == RUN_GET);
            var asksStop := q.RunStop? || (q.Malformed? && q.to == RUN_STOP);
            var asksEvents := q.Malformed? && q.to == EVENTS_READ;
            && AnswerOf(su, r, st)
               == (if asksStatus then Reply(Some(StatusView(c.phase, c.charged, c.spawnIssued, c.stopReason)), None)
                   else if asksStop then Reply(Some(StopView(c.phase, c.stopReason)), None)
                   else if asksEvents then Reply(None, Some(q.code))
                   else Reply(None, Some(STOPPED)))
            && (st.key in NextRun(su, r, st).requests <==> !asksEvents)
  {
    NoOps(su, r, st);
    LegalCommit(su, r, st);
    ApplyNone(su.cfg, r.core);
    AppendNothing(su, r.journal);
    StoredAfterTheEnd(su, r, st);
    hide Legal, NextRun, ApplyAll, OpsOf, Append, AllEnabled, Latches;
  }

  lemma StoredAfterTheEnd(su: Setup, r: Run, st: Move)
    requires Legal(su, r, st) && Asks(r, st) && r.core.phase in {FINALIZING, REJECTED, COMPLETED, KILLED, FAILED}
    ensures st.key in NextRun(su, r, st).requests <==> !(st.request.Malformed? && st.request.to == EVENTS_READ)
  {
    hide ApplyAll, OpsOf, Append, AllEnabled, Latches, Ordered, FreshStamps;
  }

  lemma NoOps(su: Setup, r: Run, st: Move)
    requires Asks(r, st) && r.core.phase in {FINALIZING, REJECTED, COMPLETED, KILLED, FAILED}
    ensures OpsOf(su, r, st) == []
  {
  }

  /** A request on the wrong surface is UNAUTHORIZED and changes nothing. */
  lemma WrongSurface(su: Setup, r: Run, st: Move)
    requires Legal(su, r, st) && st.Serve? && !OnSurface(st.request, st.channel)
    ensures AnswerOf(su, r, st) == Reply(None, Some(UNAUTHORIZED)) && NextRun(su, r, st) == r.(clock := st.at)
  {
    SurfaceIs(st.request, st.channel);
    assert !IsCommitted(su, r, st);
    hide Legal, NextRun, IsCommitted;
    UncommittedChangesNothing(su, r, st);
  }

  /** The owner is told how its run stands. */
  lemma StatusAsked(su: Setup, r: Run, st: Move)
    requires Legal(su, r, st) && Asks(r, st) && st.request == RunGet(su.cfg.runId)
    ensures Told(su, r, st, StatusView(r.core.phase, r.core.charged, r.core.spawnIssued, r.core.stopReason))
  {
    NoOpsToTell(su, r, st);
    CommittedStores(su, r, st);
    LegalCommit(su, r, st);
    ApplyNone(su.cfg, r.core);
    AppendNothing(su, r.journal);
    hide Legal, NextRun, ApplyAll, OpsOf, Append, AllEnabled, Latches, AnswerOf, Stores;
  }

  lemma NoOpsToTell(su: Setup, r: Run, st: Move)
    requires Asks(r, st) && st.request == RunGet(su.cfg.runId)
    ensures OpsOf(su, r, st) == [] && st.Serve? && IsCommitted(su, r, st)
    ensures AnswerOf(su, r, st)
         == Reply(Some(StatusView(r.core.phase, r.core.charged, r.core.spawnIssued, r.core.stopReason)), None)
  {
  }

  /** Without an unused identifier the request is turned away, and may be made again. */
  lemma NoIdentifier(su: Setup, r: Run, st: Move, ch: Id)
    requires Legal(su, r, st) && AsksLive(r, st, ch) && st.inputs.newId.None?
    requires var q := st.request;
             || q.IssueReq? || (q.DispatchReq? && q.token.body.runId == su.cfg.runId && SignedHere(su, q.token))
             || (q.ReserveReq? && E.Workable(q.work.inputTokens, q.work.maxOutputTokens, q.work.batch))
    ensures TurnedAway(su, r, st)
  {
    AnsweredBusy(su, r, st, ch);
    hide Legal, AnswerOf, NextRun, AsksLive;
    AsksNew(r, st, ch);
    BusyStaysFree(su, r, st);
  }

  lemma AsksNew(r: Run, st: Move, ch: Id)
    requires AsksLive(r, st, ch)
    ensures st.Serve? && st.key !in r.requests
  {
  }

  lemma AnsweredBusy(su: Setup, r: Run, st: Move, ch: Id)
    requires AsksLive(r, st, ch) && st.inputs.newId.None?
    requires var q := st.request;
             || q.IssueReq? || (q.DispatchReq? && q.token.body.runId == su.cfg.runId && SignedHere(su, q.token))
             || (q.ReserveReq? && E.Workable(q.work.inputTokens, q.work.maxOutputTokens, q.work.batch))
    ensures st.Serve? && AnswerOf(su, r, st) == Reply(None, Some(BUSY))
  {
    if st.request.ReserveReq? { WorkableIff(st.request.work); }
    hide E.WorkDims, E.Workable;
  }
}
