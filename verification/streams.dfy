/** What acceptance by the replay checker means for a whole stream. */
module Streams {
  import opened Types
  import opened Replay

  /** Bodies numbered 1, 2, 3, ..., as the bundle verifier enforces before it replays them. */
  ghost predicate Consecutive(bodies: seq<Body>) {
    forall i :: 0 <= i < |bodies| ==> bodies[i].seqNo == i + 1
  }

  ghost predicate SchemaTyped(bodies: seq<Body>) {
    forall i :: 0 <= i < |bodies| ==> WellTyped(bodies[i].event)
  }

  ghost predicate Accepted(bodies: seq<Body>) {
    Consecutive(bodies) && SchemaTyped(bodies) && Run(START, bodies).Some?
  }

  /** The checker's state after the first `i` bodies. */
  ghost function After(bodies: seq<Body>, i: nat): State
    requires Accepted(bodies) && i <= |bodies|
  {
    RejectedPrefix(START, bodies, i);
    Run(START, bodies[..i]).value
  }

  lemma AfterStep(bodies: seq<Body>, i: nat)
    requires Accepted(bodies) && i < |bodies|
    ensures Step(After(bodies, i), bodies[i]) == Some(After(bodies, i + 1))
    ensures WellTyped(bodies[i].event) && bodies[i].seqNo == i + 1
    ensures After(bodies, |bodies|) == Run(START, bodies).value
  {
    RejectedPrefix(START, bodies, i + 1);
    assert bodies[..i + 1][..i] == bodies[..i];
    assert bodies[..|bodies|] == bodies;
  }

  /** Nothing in the checker's books is ever undone: ranks do not fall, settled records stay as they are. */
  ghost predicate Advances(s: State, t: State) {
    && Rank(s.phase) <= Rank(t.phase)
    && (forall k :: k in s.tokens ==> k in t.tokens && (s.tokens[k] != ISSUED ==> t.tokens[k] == s.tokens[k]))
    && (forall k :: k in s.actions ==> k in t.actions && (s.actions[k] != DISPATCHED ==> t.actions[k] == s.actions[k]))
    && (forall k :: k in s.computes ==>
          k in t.computes && (s.computes[k] != CHARGED ==> t.computes[k] == s.computes[k]))
  }

  lemma StepAdvances(s: State, b: Body, t: State)
    requires Step(s, b) == Some(t) && WellTyped(b.event)
    requires b.seqNo == 1 ==> s == START
    ensures Advances(s, t)
  {
  }

  lemma AdvancesTransitive(s: State, t: State, u: State)
    requires Advances(s, t) && Advances(t, u)
    ensures Advances(s, u)
  {
  }

  lemma {:induction false} AfterAdvances(bodies: seq<Body>, i: nat, j: nat)
    requires Accepted(bodies) && i <= j <= |bodies|
    ensures Advances(After(bodies, i), After(bodies, j))
  {
    if i < j {
      AfterAdvances(bodies, i, j - 1);
      AfterStep(bodies, j - 1);
      assert j == 1 ==> bodies[..0] == [];
      StepAdvances(After(bodies, j - 1), bodies[j - 1], After(bodies, j));
      AdvancesTransitive(After(bodies, i), After(bodies, j - 1), After(bodies, j));
    }
  }

  // ---- accepted streams are well formed ----

  predicate SettlesToken(e: Event, id: Id) {
    (e.TokenExpired? && e.tokenId == id) || (e.TokenSpent? && e.tokenId == id)
  }

  predicate ResolvesAction(e: Event, id: Id) {
    (e.ActionFinished? && e.action.actionId == id) || (e.ActionUnknown? && e.actionId == id)
  }

  /** The events that only a running, not yet stopped run may produce. */
  predicate AdmitsWork(e: Event) {
    e.TokenIssued? || e.TokenExpired? || e.TokenSpent? || e.ComputeReserved? || e.ComputeFinished? || e.StopLatched?
  }

  lemma SettlingStep(s: State, b: Body, t: State, id: Id)
    requires Step(s, b) == Some(t)
    ensures SettlesToken(b.event, id) ==> Is(s.tokens, id, ISSUED) && id in t.tokens && t.tokens[id] != ISSUED
    ensures b.event.TokenIssued? && b.event.body.tokenId == id ==> id !in s.tokens
    ensures id in s.tokens && s.tokens[id] != ISSUED ==> id in t.tokens && t.tokens[id] != ISSUED
  {
  }

  lemma {:induction false} SettledStays(bodies: seq<Body>, i: nat, id: Id)
    requires Run(START, bodies).Some? && i < |bodies| && SettlesToken(bodies[i].event, id)
    ensures var tokens := Run(START, bodies).value.tokens; id in tokens && tokens[id] != ISSUED
  {
    hide Step, SettlesToken;
    var n := |bodies| - 1;
    if i < n { SettledStays(bodies[..n], i, id); }
    SettlingStep(Run(START, bodies[..n]).value, bodies[n], Run(START, bodies).value, id);
  }

  /** A token is spent or expired at most once and never both, in every stream the checker accepts, whatever its
      numbering and payloads. */
  lemma TokenSettledOnce(bodies: seq<Body>, i: nat, j: nat, id: Id)
    requires Run(START, bodies).Some? && i < j < |bodies|
    requires SettlesToken(bodies[i].event, id)
    ensures !SettlesToken(bodies[j].event, id)
    ensures !(bodies[j].event.TokenIssued? && bodies[j].event.body.tokenId == id)
  {
    RejectedPrefix(START, bodies, j + 1);
    assert bodies[..j + 1][..j] == bodies[..j];
    hide Step, SettlesToken;
    var s, t := Run(START, bodies[..j]).value, Run(START, bodies[..j + 1]).value;
    SettledStays(bodies[..j], i, id);
    SettlingStep(s, bodies[j], t, id);
  }

  /** An action is resolved at most once, and its id is never dispatched again. */
  lemma ActionResolvedOnce(bodies: seq<Body>, i: nat, j: nat, id: Id)
    requires Accepted(bodies) && i < j < |bodies|
    requires ResolvesAction(bodies[i].event, id)
    ensures !ResolvesAction(bodies[j].event, id)
    ensures !(bodies[j].event.TokenSpent? && bodies[j].event.actionId == id)
  {
    hide Accepted, After, Run;
    AfterStep(bodies, i);
    AfterAdvances(bodies, i + 1, j);
    AfterStep(bodies, j);
  }

  /** At most one stop is latched, and no token, spend or reservation event follows it. */
  lemma NothingAdmittedAfterStop(bodies: seq<Body>, i: nat, j: nat)
    requires Accepted(bodies) && i < j < |bodies|
    requires bodies[i].event.StopLatched?
    ensures !AdmitsWork(bodies[j].event)
  {
    hide Accepted, After, Run;
    AfterStep(bodies, i);
    AfterAdvances(bodies, i + 1, j);
    AfterStep(bodies, j);
  }

  predicate EndsRun(e: Event) {
    e.RunRejected? || e.RunFinalized?
  }

  /** A run's terminal event is the last event of its stream. */
  lemma NothingFollowsTheEnd(bodies: seq<Body>, i: nat)
    requires Accepted(bodies) && i < |bodies|
    requires EndsRun(bodies[i].event)
    ensures i == |bodies| - 1
  {
    hide Accepted, After, Run;
    AfterStep(bodies, i);
    if i + 1 < |bodies| {
      AfterStep(bodies, i + 1);
    }
  }

  lemma {:induction false} PhaseIsTerminalOnlyAtTheEnd(bodies: seq<Body>, i: nat)
    requires Accepted(bodies) && i <= |bodies|
    ensures Terminal(After(bodies, i).phase) <==> i > 0 && EndsRun(bodies[i - 1].event)
  {
    if i == 0 {
      assert bodies[..0] == [];
    } else {
      PhaseIsTerminalOnlyAtTheEnd(bodies, i - 1);
      AfterStep(bodies, i - 1);
      assert i == 1 ==> bodies[..0] == [];
    }
  }

  /** The stream's last event ends the run exactly when the replayed phase is terminal. */
  lemma {:induction false} CompleteIffTerminal(bodies: seq<Body>)
    requires Accepted(bodies)
    ensures Terminal(Run(START, bodies).value.phase) <==> bodies != [] && EndsRun(bodies[|bodies| - 1].event)
  {
    PhaseIsTerminalOnlyAtTheEnd(bodies, |bodies|);
    assert bodies[..|bodies|] == bodies;
  }

  /** Every accepted stream starts with RunCreated and names it nowhere else. */
  lemma CreatedOnlyFirst(bodies: seq<Body>, i: nat)
    requires Accepted(bodies) && i < |bodies|
    ensures bodies[i].event.RunCreated? <==> i == 0
  {
    AfterStep(bodies, i);
  }
}
