/** Requests are answered at most once, tokens are used at most once, effects never outnumber spends. */
module Requests {
  import opened Types
  import opened Sequences
  import opened Dicts
  import opened Ledger
  import opened Invariants
  import opened Simulation
  import opened Audit
  import opened Streams
  import opened Supervisor
  import opened Runs
  import opened Theorems
  import Replay

  // ---- one request ----

  function AnswerOf(su: Setup, r: Run, st: Move): Reply
    requires st.Serve?
  {
    Answer(su, r, st.key, st.request, st.channel, st.inputs)
  }

  predicate IsCommitted(su: Setup, r: Run, st: Move) {
    st.Serve? && Commits(su, r, st.key, st.request, st.channel, st.inputs)
  }

  lemma CommittedServes(su: Setup, r: Run, st: Move)
    requires IsCommitted(su, r, st)
    ensures st.Serve?
  {
  }

  /** A committed request leaves its digest and its reply in the table. */
  lemma CommittedIsStored(su: Setup, r: Run, st: Move)
    requires Legal(su, r, st) && IsCommitted(su, r, st)
    ensures st.key !in r.requests
    ensures NextRun(su, r, st).requests == r.requests[st.key := Stored(su.digest(st.request), AnswerOf(su, r, st))]
  {
    hide ApplyAll, OpsOf, Append, AllEnabled, Latches, ReplyTo, Ordered;
  }

  /** A request that is not committed changes nothing but the time. */
  lemma UncommittedChangesNothing(su: Setup, r: Run, st: Move)
    requires Legal(su, r, st) && st.Serve? && !IsCommitted(su, r, st)
    ensures NextRun(su, r, st) == r.(clock := st.at)
  {
    assert OpsOf(su, r, st) == [] && ApplyAll(su.cfg, r.core, []) == (r.core, []);
    hide ApplyAll, OpsOf, Append, AllEnabled, Ordered, ReplyTo;
    assert StampsOf(st) == [];
    AppendNothing(su, r.journal);
  }

  lemma AppendNothing(su: Setup, j: seq<Entry>)
    ensures Append(su.Signer(), j, [], []) == j
    ensures !Latches([])
  {
  }

  /** What a request under an already used key is answered with: the stored reply, or a conflict. */
  lemma UsedKeyAnswer(su: Setup, r: Run, st: Move)
    requires st.Serve? && st.key in r.requests
    ensures !IsCommitted(su, r, st)
    ensures AnswerOf(su, r, st)
         == (if !SurfaceAllows(st.request, st.channel) then Reply(None, Some(UNAUTHORIZED))
             else if r.requests[st.key].digest == su.digest(st.request) then r.requests[st.key].reply
             else Reply(None, Some(CONFLICT)))
  {
  }

  /** BUSY is never stored: the key stays free and the ledger as it was. */
  lemma BusyStaysFree(su: Setup, r: Run, st: Move)
    requires Legal(su, r, st) && st.Serve? && AnswerOf(su, r, st).error == Some(BUSY) && st.key !in r.requests
    ensures !IsCommitted(su, r, st) && NextRun(su, r, st) == r.(clock := st.at)
  {
    assert !IsCommitted(su, r, st) by { hide ReplyTo; }
    hide Legal, IsCommitted, NextRun;
    UncommittedChangesNothing(su, r, st);
  }

  // ---- whole runs ----

  lemma LastStep(su: Setup, steps: seq<Move>)
    requires History(su, steps) && steps != []
    ensures var init, st := steps[..|steps| - 1], steps[|steps| - 1];
            && History(su, init) && Legal(su, Supervisor.After(su, init), st)
            && Supervisor.After(su, steps) == NextRun(su, Supervisor.After(su, init), st)
  {
    hide Legal, NextRun;
  }

  /** The state before and after step `i` of a history. */
  lemma StepOf(su: Setup, steps: seq<Move>, i: nat)
    requires History(su, steps) && i < |steps|
    ensures History(su, steps[..i]) && History(su, steps[..i + 1])
    ensures Legal(su, Supervisor.After(su, steps[..i]), steps[i])
    ensures Supervisor.After(su, steps[..i + 1]) == NextRun(su, Supervisor.After(su, steps[..i]), steps[i])
  {
    hide Legal, NextRun, Extends, History, Supervisor.After;
    NothingUndone(su, steps, i + 1);
    LastStep(su, steps[..i + 1]);
    PrefixPlus(steps, i);
  }

  /** What step `i` did is still there before step `j`. */
  lemma StillThere(su: Setup, steps: seq<Move>, i: nat, j: nat)
    requires History(su, steps) && i <= j <= |steps|
    ensures History(su, steps[..i]) && History(su, steps[..j])
    ensures Extends(Supervisor.After(su, steps[..i]), Supervisor.After(su, steps[..j]))
  {
    hide History, Supervisor.After, Extends;
    NothingUndone(su, steps, j);
    NothingUndone(su, steps[..j], i);
    assert steps[..j][..i] == steps[..i];
  }

  /** At most once: after a request was committed, any later request under its principal and id changes
      nothing but the time; with the same method and parameters it is answered with the first reply, with
      other ones it is a conflict. */
  lemma AtMostOnce(su: Setup, steps: seq<Move>, i: nat, j: nat)
    requires History(su, steps) && i < j < |steps|
    requires History(su, steps[..i]) && IsCommitted(su, Supervisor.After(su, steps[..i]), steps[i])
    requires steps[j].Serve? && steps[j].key == steps[i].key
    ensures History(su, steps[..j]) && History(su, steps[..j + 1])
    ensures var r := Supervisor.After(su, steps[..j]);
            && Supervisor.After(su, steps[..j + 1]) == r.(clock := steps[j].at)
            && AnswerOf(su, r, steps[j])
               == (if !SurfaceAllows(steps[j].request, steps[j].channel) then Reply(None, Some(UNAUTHORIZED))
                   else if su.digest(steps[j].request) == su.digest(steps[i].request)
                        then AnswerOf(su, Supervisor.After(su, steps[..i]), steps[i])
                   else Reply(None, Some(CONFLICT)))
  {
    hide Legal, NextRun, IsCommitted, AnswerOf, SurfaceAllows, History, Supervisor.After;
    assert steps[i].Serve? by { CommittedServes(su, Supervisor.After(su, steps[..i]), steps[i]); }
    StepOf(su, steps, i);
    StepOf(su, steps, j);
    CommittedIsStored(su, Supervisor.After(su, steps[..i]), steps[i]);
    StillThere(su, steps, i + 1, j);
    var r := Supervisor.After(su, steps[..j]);
    assert steps[i].key in r.requests;
    UsedKeyAnswer(su, r, steps[j]);
    UncommittedChangesNothing(su, r, steps[j]);
  }

  // ---- tokens are used once ----

  predicate Dispatches(su: Setup, r: Run, st: Move) {
    && IsCommitted(su, r, st) && st.request.DispatchReq?
    && AnswerOf(su, r, st).result.Some? && AnswerOf(su, r, st).result.value.Dispatched?
  }

  /** A dispatched token was issued before and is spent afterwards. */
  lemma DispatchSpends(su: Setup, r: Run, st: Move)
    requires Legal(su, r, st) && Dispatches(su, r, st)
    ensures var id := st.request.token.body.tokenId;
            && id in r.core.tokens.at && r.core.tokens.at[id].state == ISSUED
            && id in NextRun(su, r, st).core.tokens.at && NextRun(su, r, st).core.tokens.at[id].state == SPENT
  {
    LegalCommit(su, r, st);
    DispatchOps(su, r, st);
    hide Legal, NextRun, Append, Latches, ApplyAll, AllEnabled, Ordered, OpsOf, Dispatches;
  }

  lemma DispatchOps(su: Setup, r: Run, st: Move)
    requires Dispatches(su, r, st)
    ensures var id := st.request.token.body.tokenId;
            var c := ApplyAll(su.cfg, r.core, OpsOf(su, r, st)).0;
            && id in r.core.tokens.at && r.core.tokens.at[id].state == ISSUED
            && id in c.tokens.at && c.tokens.at[id].state == SPENT
  {
    var op := RequestOp(su, r.core, st.request, ChannelOf(st.channel), st.key.id, st.inputs).value;
    assert OpsOf(su, r, st) == [op];
    ApplyOne(su.cfg, r.core, op);
    hide TokenSigned, OpsOf, ApplyAll;
  }

  /** Spent tokens stay spent, through the checker's eyes. */
  lemma SpentStays(su: Setup, r: Run, r': Run, id: Id)
    requires Faithful(su, r) && Faithful(su, r') && r.journal <= r'.journal
    requires id in r.core.tokens.at && r.core.tokens.at[id].state == SPENT
    ensures id in r'.core.tokens.at && r'.core.tokens.at[id].state == SPENT
  {
    var bodies, n := Bodies(r'.journal), |r.journal|;
    assert bodies[..n] == Bodies(r.journal);
    assert bodies[..|bodies|] == bodies;
    assert TokenStates(r.core.tokens.at)[id] == SPENT;
    AfterAdvances(bodies, n, |bodies|);
    assert id in TokenStates(r'.core.tokens.at);
  }

  /** No token is dispatched twice in a run, whoever presents it, for whatever request. */
  lemma TokenUsedOnce(su: Setup, steps: seq<Move>, i: nat, j: nat)
    requires History(su, steps) && i < j < |steps| && History(su, steps[..i]) && History(su, steps[..j])
    requires Dispatches(su, Supervisor.After(su, steps[..i]), steps[i])
    requires Dispatches(su, Supervisor.After(su, steps[..j]), steps[j])
    ensures steps[i].request.token.body.tokenId != steps[j].request.token.body.tokenId
  {
    hide Legal, NextRun, History, Supervisor.After, Faithful, Inv, Timed, Released;
    StepOf(su, steps, i);
    StepOf(su, steps, j);
    DispatchSpends(su, Supervisor.After(su, steps[..i]), steps[i]);
    DispatchSpends(su, Supervisor.After(su, steps[..j]), steps[j]);
    StillThere(su, steps, i + 1, j);
    Reachable(su, steps[..i + 1]);
    Reachable(su, steps[..j]);
    if steps[i].request.token.body.tokenId == steps[j].request.token.body.tokenId {
      SpentStays(su, Supervisor.After(su, steps[..i + 1]), Supervisor.After(su, steps[..j]),
                 steps[i].request.token.body.tokenId);
    }
  }

  // ---- an issued token is good for one dispatch ----

  /** The same token, whatever has become of it. */
  predicate SameToken(a: TokenRec, b: TokenRec) {
    b == a.(state := b.state, actionId := b.actionId)
  }

  ghost predicate TokensKept(c: Core, c': Core) {
    forall k :: k in c.tokens.at ==> k in c'.tokens.at && SameToken(c.tokens.at[k], c'.tokens.at[k])
  }

  lemma ApplyKeepsTokens(cfg: Config, c: Core, op: Op)
    requires Enabled(c, op)
    ensures TokensKept(c, Apply(cfg, c, op).core)
  {
    hide PolicyAllows, ChargeOf, ObservedCharge, SweepEvents, AuditOf, FinishedRec, FinalPhase;
  }

  lemma {:induction false} AllKeepTokens(cfg: Config, c: Core, ops: seq<Op>)
    requires AllEnabled(cfg, c, ops)
    ensures TokensKept(c, ApplyAll(cfg, c, ops).0)
  {
    hide Apply, Enabled;
    if ops != [] {
      var n := |ops| - 1;
      AllKeepTokens(cfg, c, ops[..n]);
      ApplyKeepsTokens(cfg, ApplyAll(cfg, c, ops[..n]).0, ops[n]);
    }
  }

  lemma StepKeepsTokens(su: Setup, r: Run, st: Move)
    requires Legal(su, r, st)
    ensures TokensKept(r.core, NextRun(su, r, st).core)
  {
    LegalCommit(su, r, st);
    hide Legal, NextRun, ApplyAll, AllEnabled, OpsOf, Append, Ordered;
    AllKeepTokens(su.cfg, r.core, OpsOf(su, r, st));
  }

  lemma {:induction false} HistoryKeepsTokens(su: Setup, steps: seq<Move>, n: nat)
    requires History(su, steps) && n <= |steps| && History(su, steps[..n])
    ensures TokensKept(Supervisor.After(su, steps[..n]).core, Supervisor.After(su, steps).core)
  {
    hide Legal, NextRun, History, Supervisor.After;
    if n == |steps| {
      assert steps[..n] == steps;
    } else {
      var init := steps[..|steps| - 1];
      LastStep(su, steps);
      assert init[..n] == steps[..n];
      HistoryKeepsTokens(su, init, n);
      StepKeepsTokens(su, Supervisor.After(su, init), steps[|steps| - 1]);
    }
  }

  predicate Issues(su: Setup, r: Run, st: Move) {
    && IsCommitted(su, r, st) && st.request.IssueReq?
    && AnswerOf(su, r, st).result.Some? && AnswerOf(su, r, st).result.value.SignedToken?
  }

  /** What the run keeps of a token it answered with: the body it signed, bound to its channel and action. */
  ghost predicate KeptToken(su: Setup, c: Core, t: Token, channel: Id, a: Action) {
    && t.body.runId == su.cfg.runId && t.body.keyId == su.cfg.keyId && t.body.channelId == channel
    && t.body.actionHash == su.cfg.crypto.actionHash(a)
    && t.sig == su.cfg.crypto.sign(su.seed, su.cfg.crypto.tokenMessage(t.body))
    && t.body.tokenId in c.tokens.at && c.tokens.at[t.body.tokenId].body == t.body
    && c.tokens.at[t.body.tokenId].expiresUs == t.body.expiresUs
  }

  lemma IssuedIsKept(su: Setup, r: Run, st: Move)
    requires Legal(su, r, st) && Issues(su, r, st)
    ensures KeptToken(su, NextRun(su, r, st).core, AnswerOf(su, r, st).result.value.token, ChannelOf(st.channel),
                      st.request.action)
  {
    LegalCommit(su, r, st);
    IssueOps(su, r, st);
    hide Legal, NextRun, Append, Latches, ApplyAll, AllEnabled, Ordered, OpsOf, Issues, AnswerOf;
  }

  lemma IssueOps(su: Setup, r: Run, st: Move)
    requires Issues(su, r, st)
    ensures KeptToken(su, ApplyAll(su.cfg, r.core, OpsOf(su, r, st)).0, AnswerOf(su, r, st).result.value.token,
                      ChannelOf(st.channel), st.request.action)
  {
    var op := RequestOp(su, r.core, st.request, ChannelOf(st.channel), st.key.id, st.inputs).value;
    assert OpsOf(su, r, st) == [op];
    ApplyOne(su.cfg, r.core, op);
    hide PolicyAllows, OpsOf, ApplyAll;
  }

  /** The token is presented on a channel for an action, with a new request and room for one more effect, to a
      running run in which it is still issued and not yet due. */
  predicate Presents(r: Run, st: Move, t: Token, a: Action) {
    && st.Serve? && st.request == DispatchReq(t, a) && st.channel.Some? && st.key !in r.requests
      && st.inputs.newId.Some?
    && r.core.phase == RUNNING && r.core.inflight < MAX_INFLIGHT_ACTIONS
    && (t.body.tokenId in r.core.tokens.at ==> r.core.tokens.at[t.body.tokenId].state == ISSUED)
    && st.inputs.now < t.body.expiresUs
  }

  /** The token round trip: the token a run answered with, presented for its action on its channel, is
      dispatched. In particular the run never finds its own signature or binding wrong. */
  lemma IssuedTokenDispatches(su: Setup, steps: seq<Move>, i: nat, j: nat, t: Token)
    requires History(su, steps) && i < j < |steps| && History(su, steps[..i]) && History(su, steps[..j])
    requires su.cfg.crypto.Sound() && Issues(su, Supervisor.After(su, steps[..i]), steps[i])
    requires t == AnswerOf(su, Supervisor.After(su, steps[..i]), steps[i]).result.value.token
    requires Presents(Supervisor.After(su, steps[..j]), steps[j], t, steps[i].request.action)
    requires steps[j].channel == steps[i].channel
    ensures Dispatches(su, Supervisor.After(su, steps[..j]), steps[j])
    ensures AnswerOf(su, Supervisor.After(su, steps[..j]), steps[j])
         == Reply(Some(Dispatched(steps[j].inputs.newId.value)), None)
  {
    var a := steps[i].request.action;
    hide *;
    KeptUntil(su, steps, i, j, t);
    PresentedDispatches(su, Supervisor.After(su, steps[..j]), steps[j], t, a);
  }

  lemma TokensKeptBetween(su: Setup, steps: seq<Move>, m: nat, n: nat)
    requires m <= n <= |steps| && History(su, steps[..m]) && History(su, steps[..n])
    ensures TokensKept(Supervisor.After(su, steps[..m]).core, Supervisor.After(su, steps[..n]).core)
  {
    hide *;
    assert steps[..n][..m] == steps[..m];
    HistoryKeepsTokens(su, steps[..n], m);
  }

  lemma KeptUntil(su: Setup, steps: seq<Move>, i: nat, j: nat, t: Token)
    requires History(su, steps) && i < j < |steps| && History(su, steps[..i]) && History(su, steps[..j])
    requires Issues(su, Supervisor.After(su, steps[..i]), steps[i])
    requires t == AnswerOf(su, Supervisor.After(su, steps[..i]), steps[i]).result.value.token
    ensures KeptToken(su, Supervisor.After(su, steps[..j]).core, t, ChannelOf(steps[i].channel),
                      steps[i].request.action)
  {
    var channel, a := ChannelOf(steps[i].channel), steps[i].request.action;
    hide *;
    StepOf(su, steps, i);
    IssuedIsKept(su, Supervisor.After(su, steps[..i]), steps[i]);
    TokensKeptBetween(su, steps, i + 1, j);
    KeptLater(su, Supervisor.After(su, steps[..i + 1]).core, Supervisor.After(su, steps[..j]).core, t, channel, a);
  }

  lemma KeptLater(su: Setup, c: Core, c': Core, t: Token, channel: Id, a: Action)
    requires KeptToken(su, c, t, channel, a) && TokensKept(c, c')
    ensures KeptToken(su, c', t, channel, a)
  {
  }

  lemma PresentedDispatches(su: Setup, r: Run, st: Move, t: Token, a: Action)
    requires Presents(r, st, t, a) && KeptToken(su, r.core, t, ChannelOf(st.channel), a) && su.cfg.crypto.Sound()
    ensures AnswerOf(su, r, st) == Reply(Some(Dispatched(st.inputs.newId.value)), None) && Dispatches(su, r, st)
  {
    assert TokenSigned(su, t);
  }

  // ---- effects never outnumber spends ----

  /** How many tokens a stream spends. */
  ghost function Spends(events: seq<Event>): nat {
    if events == [] then 0
    else Spends(events[..|events| - 1]) + (if events[|events| - 1].TokenSpent? then 1 else 0)
  }

  predicate SpendsFor(e: Event, a: Id) {
    e.TokenSpent? && e.actionId == a
  }

  /** One body: a spend files one new action, everything else files none. */
  lemma StepFiles(s: Replay.State, b: Body, t: Replay.State)
    requires Replay.Step(s, b) == Some(t)
    ensures if b.event.TokenSpent? then b.event.actionId !in s.actions
            && t.actions.Keys == s.actions.Keys + {b.event.actionId}
            else t.actions.Keys == s.actions.Keys
  {
  }

  /** In an accepted stream the checker's actions are exactly those some event spent a token for, and there
      is one spend per action. */
  lemma {:induction false} ActionsAreSpends(bodies: seq<Body>, n: nat)
    requires Accepted(bodies) && n <= |bodies|
    ensures var actions := Streams.After(bodies, n).actions;
            && |actions.Keys| == Spends(Replay.Events(bodies)[..n])
            && (forall a :: a in actions <==> exists i :: 0 <= i < n && SpendsFor(bodies[i].event, a))
  {
    hide Accepted, Streams.After, Replay.Step;
    if n == 0 {
      StartsEmpty(bodies);
    } else {
      ActionsAreSpends(bodies, n - 1);
      AfterStep(bodies, n - 1);
      StepFiles(Streams.After(bodies, n - 1), bodies[n - 1], Streams.After(bodies, n));
      PrefixPlus(Replay.Events(bodies), n - 1);
      var before, actions := Streams.After(bodies, n - 1).actions, Streams.After(bodies, n).actions;
      var e := bodies[n - 1].event;
      assert e.TokenSpent? ==> SpendsFor(e, e.actionId);
      assert forall a :: a in actions <==> a in before || SpendsFor(e, a);
    }
  }

  lemma StartsEmpty(bodies: seq<Body>)
    requires Accepted(bodies)
    ensures Streams.After(bodies, 0) == Replay.START
  {
    assert bodies[..0] == [];
  }

  /** No effect is released twice, each has a committed TokenSpent of its own, and a run releases at most as
      many effects as it spends tokens, which is at most its spawn budget. */
  ghost predicate EffectsCovered(r: Run, budget: nat) {
    var events := Replay.Events(Bodies(r.journal));
    && (forall i, j :: 0 <= i < j < |r.released| ==> r.released[i] != r.released[j])
    && (forall a :: a in r.released ==> exists i :: 0 <= i < |events| && SpendsFor(events[i], a))
    && |r.released| <= Spends(events) == |r.core.actions.order| <= budget
  }

  lemma EffectsNeverOutnumberSpends(su: Setup, steps: seq<Move>)
    requires History(su, steps)
    ensures EffectsCovered(Supervisor.After(su, steps), su.cfg.budgets.spawns)
  {
    var r := Supervisor.After(su, steps);
    hide History, Supervisor.After, Faithful, Timed, Inv;
    Reachable(su, steps);
    ActionsWithinBudget(su.cfg, r.core);
    assert r.core.actions.Valid() by { ActionsValid(su.cfg, r.core); }
    CoveredByJournal(su, r);
  }

  lemma ActionsValid(cfg: Config, c: Core)
    requires Inv(cfg, c)
    ensures c.actions.Valid()
  {
  }

  lemma CoveredByJournal(su: Setup, r: Run)
    requires Faithful(su, r) && Released(r) && r.core.actions.Valid() && |r.core.actions.order| <= su.cfg.budgets.spawns
    ensures EffectsCovered(r, su.cfg.budgets.spawns)
  {
    var bodies, acts := Bodies(r.journal), r.core.actions;
    var events := Replay.Events(bodies);
    hide Faithful, Spends;
    JournalledActions(su, r);
    OrderIsAll(acts);
    DistinctFit(r.released, acts.at.Keys);
    forall a | a in r.released ensures exists i :: 0 <= i < |events| && SpendsFor(events[i], a) {
      var i :| 0 <= i < |bodies| && SpendsFor(bodies[i].event, a);
      assert SpendsFor(events[i], a);
    }
  }

  /** The ledger's actions are exactly those the journal spends tokens for. */
  lemma JournalledActions(su: Setup, r: Run)
    requires Faithful(su, r)
    ensures var bodies := Bodies(r.journal);
            && |r.core.actions.at.Keys| == Spends(Replay.Events(bodies))
            && (forall a :: a in r.core.actions.at <==> exists i :: 0 <= i < |bodies| && SpendsFor(bodies[i].event, a))
  {
    var bodies := Bodies(r.journal);
    var events := Replay.Events(bodies);
    assert bodies[..|bodies|] == bodies && events[..|events|] == events;
    assert ActionStates(r.core.actions.at).Keys == r.core.actions.at.Keys;
    hide Chained, Accepted, TokenStates, ComputeStates, ActionStates, RefoldAll, Restored, Spends, Replay.Run;
    ActionsAreSpends(bodies, |bodies|);
  }

  /** An insertion-ordered dictionary lists exactly its keys. */
  lemma OrderIsAll<K, V>(d: Dict<K, V>)
    requires d.Valid()
    ensures |d.order| == |d.at.Keys|
  {
    DistinctFit(d.order, d.at.Keys);
    var listed := set i | 0 <= i < |d.order| :: d.order[i];
    assert listed == d.at.Keys;
    ListedSize(d.order);
  }

  lemma {:induction false} ListedSize<K>(s: seq<K>)
    ensures |set i | 0 <= i < |s| :: s[i]| <= |s|
  {
    if s != [] {
      var n := |s| - 1;
      ListedSize(s[..n]);
      assert (set i | 0 <= i < |s| :: s[i]) == (set i | 0 <= i < n :: s[..n][i]) + {s[n]};
    }
  }
}
