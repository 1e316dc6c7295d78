/** The reducer object: one run's authoritative ledger, updated in place. Every method is proved to do
    to the fields exactly what the transition functions of `Ledger` do to a value. */
module RunCores {
  import opened Types
  import opened Dicts
  import opened Ledger
  import E = Estimator

  class RunCore {
    const cfg: Config
    var phase: Phase
    var stopReason: Option<Reason>
    var charged: nat
    var spawnIssued: nat
    var issueSeq: nat
    var inflight: int
    var tokens: Dict<Id, TokenRec>
    var actions: Dict<Id, ActionRec>
    var computes: Dict<Id, ComputeRec>
    var rootExit: Option<Exit>
    var killIssuedAtUs: Option<int>
    var stopLatchedUs: Option<int>

    /** The ledger value held by the fields. */
    ghost function View(): Core
      reads this
    {
      Core(phase, stopReason, charged, spawnIssued, issueSeq, inflight, tokens, actions, computes,
           rootExit, killIssuedAtUs, stopLatchedUs)
    }

    constructor (cfg: Config)
      ensures this.cfg == cfg && View() == INITIAL
    {
      this.cfg := cfg;
      phase, stopReason := CREATED, None;
      charged, spawnIssued, issueSeq, inflight := 0, 0, 0, 0;
      tokens, actions, computes := Empty(), Empty(), Empty();
      rootExit, killIssuedAtUs, stopLatchedUs := None, None, None;
    }

    /** `_deny`: a committed denial leaves a RequestDenied wherever the phase permits the event. */
    method Refusal(req: Id, code: Code) returns (out: Outcome)
      ensures out == Deny(View(), req, code).out
    {
      out := Outcome([], None, Some(code));
      if Live(phase) {
        out := out.(events := [RequestDenied(req, code)]);
      }
    }

    /** `_latch`: the first stop source wins. */
    method LatchStop(reason: Reason, given: Outcome) returns (out: Outcome)
      modifies this
      ensures var s := Latch(Step(old(View()), given), reason); View() == s.core && out == s.out
    {
      out := given;
      if (phase == ARMING || phase == RUNNING) && stopReason == None {
        stopReason := Some(reason);
        phase := STOPPING;
        out := out.(events := out.events + [StopLatched(reason)]);
      }
    }

    method TokenIssue(channel: Id, action: Action, now: Time, tokenId: Id, req: Id) returns (out: Outcome)
      modifies this
      ensures var s := IssueToken(cfg, old(View()), channel, action, now, tokenId, req);
              View() == s.core && out == s.out
    {
      if phase != RUNNING {
        return Outcome([], None, Some(STOPPED));
      }
      if !PolicyAllows(cfg, action) {
        out := Refusal(req, ACTION_DENIED);
        return;
      }
      var cap := cfg.budgets.spawns;
      if spawnIssued >= cap {
        out := Refusal(req, SPAWN_CAP_REACHED);
        out := LatchStop(SPAWN_CAP, out);
        return;
      }
      spawnIssued := spawnIssued + 1;
      issueSeq := issueSeq + 1;
      var hash := cfg.crypto.actionHash(action);
      var body := TokenBody(cfg.keyId, tokenId, cfg.runId, channel, hash, now, now + TOKEN_TTL_US, issueSeq);
      tokens := tokens.Put(tokenId, TokenRec(body, channel, hash, now + TOKEN_TTL_US, ISSUED, None));
      out := Outcome([TokenIssued(body, action.Kind())], Some(IssuedToken(body, cap - spawnIssued)), None);
    }

    method DispatchToken(channel: Id, body: TokenBody, action: Action, now: Time, actionId: Id, req: Id)
      returns (out: Outcome)
      modifies this
      ensures var s := DispatchAction(cfg, old(View()), channel, body, action, now, actionId, req);
              View() == s.core && out == s.out
    {
      if phase != RUNNING {
        return Outcome([], None, Some(STOPPED));
      }
      if body.runId != cfg.runId || body.channelId != channel
         || body.actionHash != cfg.crypto.actionHash(action) || body.tokenId !in tokens.at {
        out := Refusal(req, TOKEN_BINDING);
        return;
      }
      var rec := tokens.at[body.tokenId];
      if rec.state == SPENT {
        out := Refusal(req, TOKEN_USED);
        return;
      }
      if rec.state == EXPIRED {
        out := Refusal(req, TOKEN_EXPIRED);
        return;
      }
      if now >= rec.expiresUs {
        tokens := tokens.Put(body.tokenId, rec.(state := EXPIRED));
        out := Refusal(req, TOKEN_EXPIRED);
        out := out.(events := [TokenExpired(rec.body.tokenId)] + out.events);
        return;
      }
      if inflight >= MAX_INFLIGHT_ACTIONS {
        return Outcome([], None, Some(BUSY));
      }
      tokens := tokens.Put(body.tokenId, rec.(state := SPENT, actionId := Some(actionId)));
      inflight := inflight + 1;
      actions := actions.Put(actionId,
        ActionRec(actionId, channel, action.Kind(), body.tokenId, DISPATCHED, None, None, None));
      out := Outcome([TokenSpent(body.tokenId, actionId)], Some(Dispatched(actionId)), None);
    }

    /** The periodic sweep walks the tokens in issue order and expires the due ones. */
    method ExpireDue(now: Time) returns (out: Outcome)
      requires tokens.Valid()
      modifies this`tokens
      ensures var s := ExpireTokens(old(View()), now); View() == s.core && out == s.out
    {
      out := Outcome([], None, None);
      if phase != RUNNING {
        return;
      }
      ghost var before := tokens;
      SweepEnds(before, now);
      assert before.order[..0] == [] && SweepEvents([], before.at, now) == [];
      hide SweptUpTo, SweepEvents;
      var order := tokens.order;
      for i := 0 to |order|
        invariant tokens == before.(at := SweptUpTo(before.at, order[..i], now))
        invariant out == Outcome(SweepEvents(order[..i], before.at, now), None, None)
      {
        SweepStep(before, i, now);
        var rec := tokens.at[order[i]];
        if rec.state == ISSUED && now >= rec.expiresUs {
          tokens := tokens.(at := tokens.at[order[i] := rec.(state := EXPIRED)]);
          out := out.(events := out.events + [TokenExpired(rec.body.tokenId)]);
        }
      }
      assert order[..|order|] == order;
    }

    method ShowAction(channel: Id, actionId: Id, req: Id) returns (out: Outcome)
      ensures var s := ViewAction(View(), channel, actionId, req); out == s.out && View() == s.core
    {
      if actionId !in actions.at {
        out := Refusal(req, NOT_FOUND);
        return;
      }
      var a := actions.at[actionId];
      if a.channelId != channel {
        out := Refusal(req, UNAUTHORIZED);
        return;
      }
      out := Outcome([], Some(ActionView(actionId, a.state, a.result, a.error)), None);
    }

    /** Resolve a dispatched effect; legal while RUNNING, STOPPING or UNCONFIRMED. */
    method ActionFinish(actionId: Id, result: Option<ActionResult>, error: Option<Code>, exit: Option<Exit>)
      returns (out: Outcome)
      modifies this`inflight, this`actions
      ensures var s := FinishAction(old(View()), actionId, result, error, exit); View() == s.core && out == s.out
    {
      out := Outcome([], None, None);
      if actionId !in actions.at || actions.at[actionId].state != DISPATCHED
         || phase !in {RUNNING, STOPPING, UNCONFIRMED} {
        return;
      }
      inflight := inflight - 1;
      var a := actions.at[actionId];
      var audit;
      if error == None && result.Some? {
        a := a.(state := SUCCEEDED, result := result);
        audit := AuditOf(a, SUCCEEDED, exit, result, None);
      } else {
        a := a.(state := ACTION_HAS_FAILED, error := if error.Some? then error else Some(ACTION_FAILED),
                result := result, exit := exit);
        audit := AuditOf(a, ACTION_HAS_FAILED, exit, result, a.error);
      }
      actions := actions.Put(actionId, a);
      out := Outcome([ActionFinished(audit)], None, None);
    }

    method ActionGiveUp(actionId: Id, code: Code) returns (out: Outcome)
      modifies this`inflight, this`actions
      ensures var s := GiveUpAction(old(View()), actionId, code); View() == s.core && out == s.out
    {
      out := Outcome([], None, None);
      if actionId !in actions.at || actions.at[actionId].state != DISPATCHED
         || phase !in {RUNNING, STOPPING, UNCONFIRMED} {
        return;
      }
      inflight := inflight - 1;
      actions := actions.Put(actionId, actions.at[actionId].(state := UNKNOWN, error := Some(code)));
      out := Outcome([ActionUnknown(actionId, code)], None, None);
    }

    method ComputeReserve(channel: Id, work: Work, computeId: Id, req: Id) returns (out: Outcome)
      modifies this
      ensures var s := ReserveCompute(cfg, old(View()), channel, work, computeId, req);
              View() == s.core && out == s.out
    {
      hide E.WorkDims, E.ForModelWork, ModelOf;
      if phase != RUNNING {
        return Outcome([], None, Some(STOPPED));
      }
      if !E.WorkDims(work.inputTokens, work.maxOutputTokens, work.batch) {
        out := Refusal(req, INVALID_INPUT);
        return;
      }
      var model := ModelOf(cfg.catalog, work.modelId);
      if model == None {
        out := Refusal(req, UNSUPPORTED_MODEL);
        return;
      }
      var est := E.ForModelWork(model.value, work);
      if est.Err? {
        out := Refusal(req, est.error);
        return;
      }
      var charge := est.value.chargedFlops;
      if cfg.budgets.maxFlops.Some? && charged + charge > cfg.budgets.maxFlops.value {
        out := Refusal(req, FLOPS_CAP_REACHED);
        out := LatchStop(FLOPS_CAP, out);
        return;
      }
      charged := charged + charge;
      var res := Reservation(computeId, work, charge, CHARGED, None, None);
      computes := computes.Put(computeId, ComputeRec(res, channel));
      out := Outcome([ComputeReserved(res)], Some(Reserved(res)), None);
    }

    method ComputeFinish(channel: Id, computeId: Id, observed: nat, req: Id) returns (out: Outcome)
      modifies this
      ensures var s := FinishCompute(cfg, old(View()), channel, computeId, observed, req);
              View() == s.core && out == s.out
    {
      hide ObservedCharge;
      if computeId !in computes.at {
        out := Refusal(req, NOT_FOUND);
        return;
      }
      var rec := computes.at[computeId];
      if rec.channelId != channel {
        out := Refusal(req, UNAUTHORIZED);
        return;
      }
      var res := rec.reservation;
      if res.state == FINISHED {
        if res.observedTokens == Some(observed) {
          return Outcome([], Some(Reserved(res)), None);
        }
        if observed > res.work.maxOutputTokens {
          out := Refusal(req, ENVELOPE_EXCEEDED);
          out := LatchStop(FLOPS_CAP, out);
          return;
        }
        out := Refusal(req, CONFLICT);
        return;
      }
      if phase != RUNNING {
        return Outcome([], None, Some(STOPPED));
      }
      if observed > res.work.maxOutputTokens {
        out := Refusal(req, ENVELOPE_EXCEEDED);
        out := LatchStop(FLOPS_CAP, out);
        return;
      }
      var est := ObservedCharge(cfg, res.work, observed);
      if est.Err? {
        out := Refusal(req, est.error);
        return;
      }
      res := res.(state := FINISHED, observedTokens := Some(observed), observedFlops := Some(est.value));
      computes := computes.Put(computeId, rec.(reservation := res));
      out := Outcome([ComputeFinished(res)], Some(Reserved(res)), None);
    }

    /** Stop latch: the first committed source wins; repeats are idempotent. */
    method StopRun(reason: Reason) returns (out: Outcome)
      modifies this
      ensures var s := Stop(old(View()), reason); View() == s.core && out == s.out
    {
      out := Outcome([], None, None);
      if stopReason.None? && (phase == ARMING || phase == RUNNING) {
        out := LatchStop(reason, out);
      }
      out := out.(result := Some(StopView(phase, stopReason)));
    }

    method KillWasIssued(cgroup: bool, group: bool, now: Time) returns (out: Outcome)
      modifies this`killIssuedAtUs
      ensures var s := IssueKill(old(View()), cgroup, group, now); View() == s.core && out == s.out
    {
      out := Outcome([], None, None);
      if phase == STOPPING || phase == UNCONFIRMED {
        if killIssuedAtUs.None? {
          killIssuedAtUs := Some(now);
        }
        out := Outcome([KillIssued(cgroup, group)], None, None);
      }
    }

    method KillUnconfirmedAfter(elapsed: int) returns (out: Outcome)
      modifies this`phase
      ensures var s := KillIsUnconfirmed(old(View()), elapsed); View() == s.core && out == s.out
    {
      out := Outcome([], None, None);
      if phase == STOPPING {
        phase := UNCONFIRMED;
        out := Outcome([KillUnconfirmed(elapsed)], None, None);
      }
    }

    method ContainmentEmptied(sample: Option<Sample>, exit: Option<Exit>) returns (out: Outcome)
      modifies this`phase, this`rootExit
      ensures var s := ContainmentIsEmpty(old(View()), sample, exit); View() == s.core && out == s.out
    {
      out := Outcome([], None, None);
      if phase == STOPPING || phase == UNCONFIRMED {
        phase := FINALIZING;
        if exit.Some? {
          rootExit := exit;
        }
        out := Outcome([ContainmentEmpty(sample, rootExit)], None, None);
      }
    }

    /** FINALIZING to a terminal phase, decided by the first stop source. */
    method FinalizeRun() returns (out: Outcome)
      modifies this`phase
      ensures var s := Finalize(old(View())); View() == s.core && out == s.out
    {
      if phase != FINALIZING {
        return Outcome([], None, None);
      }
      var reason := if stopReason.Some? then stopReason.value else ROOT_EXIT;
      var final;
      if IsFaultReason(reason) {
        final := FAILED;
      } else if reason == ROOT_EXIT {
        final := COMPLETED;
      } else {
        final := KILLED;
      }
      var latency := 0;
      if killIssuedAtUs.Some? && stopLatchedUs.Some? {
        latency := killIssuedAtUs.value - stopLatchedUs.value;
      }
      if latency < 0 || latency > U_MAX || charged > U_MAX {
        return Outcome([], None, Some(OVERFLOW));
      }
      out := Outcome([RunFinalized(final, charged, spawnIssued, rootExit, reason, latency)], None, None);
      phase := final;
    }

    method RejectStart(code: Code) returns (out: Outcome)
      modifies this`phase
      ensures var s := RejectRun(old(View()), code); View() == s.core && out == s.out
    {
      out := Outcome([], None, None);
      if phase == CREATED || phase == ARMING {
        phase := REJECTED;
        out := Outcome([RunRejected(code)], None, None);
      }
    }

    /** Infrastructure fault: latches a live run, is only observed once the run is stopping. */
    method InfrastructureFault(reason: Reason) returns (out: Outcome)
      modifies this
      ensures var s := Fault(old(View()), reason); View() == s.core && out == s.out
    {
      out := Outcome([], None, None);
      if phase == ARMING || phase == RUNNING {
        out := LatchStop(reason, out);
      } else if phase == STOPPING || phase == UNCONFIRMED || phase == FINALIZING {
        out := Outcome([FaultObserved(reason)], None, None);
      }
    }
  }
}
