/** What a run grants and refuses, request by request, in terms of the request and the books alone. */
module Admission {
  import opened Types
  import opened Dicts
  import opened Ledger
  import opened Invariants
  import opened Audit
  import opened Supervisor
  import opened Runs
  import opened Theorems
  import opened Requests
  import opened Metering
  import E = Estimator

  // ---- the admission policy ----

  /** The path is the root or lies below it; slashes at the end of the root do not count. */
  ghost predicate Below(root: string, path: string) {
    path == root || exists n :: BelowPrefix(root, n, path)
  }

  ghost predicate BelowPrefix(root: string, n: nat, path: string) {
    && n <= |root| && (forall i :: n <= i < |root| ==> root[i] == '/') && (n > 0 ==> root[n - 1] != '/')
    && n < |path| && path[..n] == root[..n] && path[n] == '/'
  }

  lemma {:induction false} StripIsPrefix(root: string)
    ensures var n := |StripSlashes(root)|;
            && n <= |root| && StripSlashes(root) == root[..n]
            && (forall i :: n <= i < |root| ==> root[i] == '/') && (n > 0 ==> root[n - 1] != '/')
  {
    if root != "" && root[|root| - 1] == '/' {
      StripIsPrefix(root[..|root| - 1]);
    }
  }

  lemma BelowIff(root: string, path: string)
    ensures Below(root, path) <==> path == root || StripSlashes(root) + "/" <= path
  {
    var n := |StripSlashes(root)|;
    StripIsPrefix(root);
    var dir := StripSlashes(root) + "/";
    if dir <= path {
      assert path[..n + 1] == dir && path[..n] == path[..n + 1][..n];
      assert path[n] == path[..n + 1][n];
      assert BelowPrefix(root, n, path);
    }
    forall m | BelowPrefix(root, m, path) ensures dir <= path {
      assert m == n;
      assert path[..n + 1] == path[..n] + [path[n]];
    }
  }

  ghost predicate BelowSome(roots: seq<string>, path: string) {
    exists i :: 0 <= i < |roots| && Below(roots[i], path)
  }

  /** What an action has to be for a token: a program and a directory below the approved roots, or a request to a
      configured address, for no more bytes than configured, all of whose hosts are public. */
  ghost predicate Approved(cfg: Config, a: Action) {
    match a
    case Spawn(argv0, cwd, _) => BelowSome(cfg.approvedRoots, argv0) && BelowSome(cfg.approvedRoots, cwd)
    case HttpGet(origin, path, most) =>
      exists d :: (origin, path) in cfg.network && cfg.network[(origin, path)] == d
                  && most <= d.maxResponseBytes && d.ipsPublic
  }

  lemma PolicyIff(cfg: Config, a: Action)
    ensures PolicyAllows(cfg, a) <==> Approved(cfg, a)
  {
    if a.Spawn? {
      forall path ensures InApprovedRoots(cfg, path) <==> BelowSome(cfg.approvedRoots, path) {
        RootsIff(cfg, path);
      }
      hide InApprovedRoots, BelowSome;
    }
  }

  lemma RootsIff(cfg: Config, path: string)
    ensures InApprovedRoots(cfg, path) <==> BelowSome(cfg.approvedRoots, path)
  {
    forall i | 0 <= i < |cfg.approvedRoots|
      ensures Below(cfg.approvedRoots[i], path)
         <==> path == cfg.approvedRoots[i] || StripSlashes(cfg.approvedRoots[i]) + "/" <= path
    {
      BelowIff(cfg.approvedRoots[i], path);
    }
    hide Below, StripSlashes;
  }

  // ---- a request that reaches the ledger ----

  /** The surface a request belongs to: the owner's connection for control, a channel for work. */
  predicate OnSurface(q: Request, channel: Option<Id>) {
    match q
    case RunGet(_) => channel.None?
    case RunStop(_) => channel.None?
    case Malformed(to, _, _) => if to in {RUN_GET, RUN_STOP, EVENTS_READ} then channel.None? else channel.Some?
    case _ => channel.Some?
  }

  lemma SurfaceIs(q: Request, channel: Option<Id>)
    ensures SurfaceAllows(q, channel) <==> OnSurface(q, channel)
  {
  }

  /** A new request on the surface it belongs to. */
  predicate Asks(r: Run, st: Move) {
    st.Serve? && OnSurface(st.request, st.channel) && st.key !in r.requests
  }

  ghost predicate Books(su: Setup, r: Run, st: Move, c: Core, events: seq<Event>)
    requires Legal(su, r, st)
  {
    var r' := NextRun(su, r, st);
    && r'.core == c && |r'.journal| == |r.journal| + |events| && r.journal <= r'.journal
    && forall i :: 0 <= i < |events| ==> r'.journal[|r.journal| + i].body.event == events[i]
  }

  /** The reply is stored under the request's key, with its digest; an effect that it grants is pending, and neither the
      meter nor what was released before is touched. */
  ghost predicate Stores(su: Setup, r: Run, st: Move)
    requires Legal(su, r, st) && st.Serve?
  {
    var r', reply := NextRun(su, r, st), AnswerOf(su, r, st);
    && r'.requests == r.requests[st.key := Stored(su.digest(st.request), reply)]
    && r'.pending == (if reply.result.Some? && reply.result.value.Dispatched? then Some(reply.result.value.actionId)
                      else r.pending)
    && r'.meter == r.meter && r'.released == r.released
  }

  lemma {:induction false} AppendedEvents(s: Signer, j: seq<Entry>, events: seq<Event>, stamps: seq<Stamp>)
    requires |stamps| == |events|
    ensures var r := Append(s, j, events, stamps);
            j <= r && forall i :: 0 <= i < |events| ==> r[|j| + i].body.event == events[i]
  {
    if events != [] {
      var n := |events| - 1;
      AppendedEvents(s, j, events[..n], stamps[..n]);
      hide HeadOf;
    }
  }

  /** A new request is answered with the outcome of its operation, which is committed unless it is BUSY. */
  lemma Served(su: Setup, r: Run, st: Move, op: Op)
    requires Legal(su, r, st) && Asks(r, st)
    requires RequestOp(su, r.core, st.request, ChannelOf(st.channel), st.key.id, st.inputs) == Some(op)
    ensures var s := Apply(su.cfg, r.core, op);
            && AnswerOf(su, r, st) == Reply(Signed(su, s.out.result), s.out.error)
            && (s.out.error != Some(BUSY) ==>
                  Stores(su, r, st)
                  && Books(su, r, st, if Latches(s.out.events) then s.core.(stopLatchedUs := Some(st.at)) else s.core,
                           s.out.events))
            && (s.out.error == Some(BUSY) ==> NextRun(su, r, st) == r.(clock := st.at))
  {
    var s := Apply(su.cfg, r.core, op);
    hide RequestOp, Apply, Enabled, Legal, NextRun, AllEnabled, ApplyAll, Append, Ordered, Latches, OpsOf, Signed;
    if s.out.error == Some(BUSY) {
      UncommittedChangesNothing(su, r, st);
    } else {
      LegalCommit(su, r, st);
      ServesOne(su, r, st, op);
      CommittedStores(su, r, st);
      ApplyOne(su.cfg, r.core, op);
      AppendedEvents(su.Signer(), r.journal, s.out.events, st.stamps);
    }
  }

  lemma CommittedStores(su: Setup, r: Run, st: Move)
    requires Legal(su, r, st) && IsCommitted(su, r, st)
    ensures Stores(su, r, st)
  {
    hide ApplyAll, OpsOf, Append, AllEnabled, Latches, ReplyTo, Ordered, FreshStamps;
  }

  lemma ServesOne(su: Setup, r: Run, st: Move, op: Op)
    requires Asks(r, st) && Apply(su.cfg, r.core, op).out.error != Some(BUSY)
    requires RequestOp(su, r.core, st.request, ChannelOf(st.channel), st.key.id, st.inputs) == Some(op)
    ensures OpsOf(su, r, st) == [op] && IsCommitted(su, r, st)
  {
    assert !Closed(r.core.phase);
    hide RequestOp, Apply;
  }

  /** A new request of channel `ch` to a running run, with a fresh identifier at hand. */
  predicate AsksRunning(r: Run, st: Move, ch: Id) {
    Asks(r, st) && st.channel == Some(ch) && r.core.phase == RUNNING && r.core.stopReason == None
      && st.inputs.newId.Some?
  }

  /** The request is denied, and nothing else happens. */
  ghost predicate Denied(su: Setup, r: Run, st: Move, code: Code)
    requires Legal(su, r, st) && st.Serve?
  {
    && AnswerOf(su, r, st) == Reply(None, Some(code)) && Stores(su, r, st)
    && Books(su, r, st, r.core, [RequestDenied(st.key.id, code)])
  }

  /** The request is denied and stops the run. */
  ghost predicate DeniedAndStopped(su: Setup, r: Run, st: Move, code: Code, reason: Reason)
    requires Legal(su, r, st) && st.Serve?
  {
    && AnswerOf(su, r, st) == Reply(None, Some(code)) && Stores(su, r, st)
    && Books(su, r, st, r.core.(phase := STOPPING, stopReason := Some(reason), stopLatchedUs := Some(st.at)),
             [RequestDenied(st.key.id, code), StopLatched(reason)])
  }

  /** The request is granted with this result and this one event. */
  ghost predicate GrantedAs(su: Setup, r: Run, st: Move, result: Payload, c: Core, e: Event)
    requires Legal(su, r, st) && st.Serve?
  {
    AnswerOf(su, r, st) == Reply(Some(result), None) && Stores(su, r, st) && Books(su, r, st, c, [e])
  }

  /** The request amounts to this operation. */
  predicate Amounts(su: Setup, r: Run, st: Move, op: Op) {
    Asks(r, st) && RequestOp(su, r.core, st.request, ChannelOf(st.channel), st.key.id, st.inputs) == Some(op)
  }

  lemma DeniedBy(su: Setup, r: Run, st: Move, op: Op, code: Code)
    requires Legal(su, r, st) && Amounts(su, r, st, op) && code != BUSY
    requires Apply(su.cfg, r.core, op)
          == Step(r.core, Outcome([RequestDenied(st.key.id, code)], None, Some(code)))
    ensures Denied(su, r, st, code)
  {
    assert !Latches([RequestDenied(st.key.id, code)]);
    hide Apply, Legal, NextRun, AnswerOf, Books, Stores, Latches, RequestOp, Asks;
    Served(su, r, st, op);
  }

  lemma StoppedBy(su: Setup, r: Run, st: Move, op: Op, code: Code, reason: Reason)
    requires Legal(su, r, st) && Amounts(su, r, st, op) && code != BUSY
    requires Apply(su.cfg, r.core, op)
          == Step(r.core.(phase := STOPPING, stopReason := Some(reason)),
                  Outcome([RequestDenied(st.key.id, code), StopLatched(reason)], None, Some(code)))
    ensures DeniedAndStopped(su, r, st, code, reason)
  {
    assert [RequestDenied(st.key.id, code), StopLatched(reason)][1].StopLatched?;
    assert Latches([RequestDenied(st.key.id, code), StopLatched(reason)]);
    hide Apply, Legal, NextRun, AnswerOf, Books, Stores, Latches, RequestOp, Asks;
    Served(su, r, st, op);
  }

  lemma GrantedBy(su: Setup, r: Run, st: Move, op: Op, result: Payload, shown: Payload, c: Core, e: Event)
    requires Legal(su, r, st) && Amounts(su, r, st, op) && !e.StopLatched?
    requires Apply(su.cfg, r.core, op) == Step(c, Outcome([e], Some(result), None))
    requires Signed(su, Some(result)) == Some(shown)
    ensures GrantedAs(su, r, st, shown, c, e)
  {
    assert !Latches([e]);
    hide Apply, Legal, NextRun, AnswerOf, Books, Stores, Latches, RequestOp, Asks, Signed;
    Served(su, r, st, op);
  }

  // ---- asking for a token ----

  /** The body of a token for this action of this channel: bound to run, channel and action, numbered on, and good
      for one second. */
  function BodyFor(su: Setup, c: Core, ch: Id, a: Action, now: Time, tokenId: Id): TokenBody {
    TokenBody(su.cfg.keyId, tokenId, su.cfg.runId, ch, su.cfg.crypto.actionHash(a), now, now + 1_000_000,
              c.issueSeq + 1)
  }

  /** How many tokens may still be granted after the next one. */
  function LeftAfter(su: Setup, c: Core): int {
    su.cfg.budgets.spawns - (c.spawnIssued + 1)
  }

  /** The token with this body, signed by the run. */
  function SignedBy(su: Setup, body: TokenBody): Token {
    Token(body, su.cfg.crypto.sign(su.seed, su.cfg.crypto.tokenMessage(body)))
  }

  /** The books with a new token. */
  function WithToken(c: Core, body: TokenBody): Core {
    c.(spawnIssued := c.spawnIssued + 1, issueSeq := c.issueSeq + 1,
       tokens := c.tokens.Put(body.tokenId,
                              TokenRec(body, body.channelId, body.actionHash, body.expiresUs, ISSUED, None)))
  }

  /** Admission: a running run answers a new request for a token with ACTION_DENIED exactly when the action is not
      approved; it denies an approved one and stops exactly when the spawn budget is used up; it grants a signed
      token otherwise, and only then does a record change. */
  lemma TokenAsked(su: Setup, r: Run, st: Move, ch: Id)
    requires Legal(su, r, st) && AsksRunning(r, st, ch) && st.request.IssueReq?
    ensures var a := st.request.action;
            var body := BodyFor(su, r.core, ch, a, st.inputs.now, st.inputs.newId.value);
            if !Approved(su.cfg, a) then Denied(su, r, st, ACTION_DENIED)
            else if r.core.spawnIssued >= su.cfg.budgets.spawns then
              DeniedAndStopped(su, r, st, SPAWN_CAP_REACHED, SPAWN_CAP)
            else
              GrantedAs(su, r, st, SignedToken(SignedBy(su, body), LeftAfter(su, r.core)),
                        WithToken(r.core, body), TokenIssued(body, a.Kind()))
  {
    IssueAmounts(su, r, st, ch);
    hide *;
    var a := st.request.action;
    PolicyIff(su.cfg, a);
    if !Approved(su.cfg, a) || r.core.spawnIssued >= su.cfg.budgets.spawns {
      TokenRefused(su, r, st, ch);
    } else {
      TokenGranted(su, r, st, ch);
    }
  }

  lemma TokenRefused(su: Setup, r: Run, st: Move, ch: Id)
    requires Legal(su, r, st) && AsksRunning(r, st, ch) && st.request.IssueReq?
    ensures var allowed := PolicyAllows(su.cfg, st.request.action);
            && (!allowed ==> Denied(su, r, st, ACTION_DENIED))
            && (allowed && r.core.spawnIssued >= su.cfg.budgets.spawns ==>
                  DeniedAndStopped(su, r, st, SPAWN_CAP_REACHED, SPAWN_CAP))
  {
    IssueAmounts(su, r, st, ch);
    hide *;
    var op := Issue(ch, st.request.action, st.inputs.now, st.inputs.newId.value, st.key.id);
    IssueCases(su, r.core, op);
    if !PolicyAllows(su.cfg, st.request.action) {
      DeniedBy(su, r, st, op, ACTION_DENIED);
    } else if r.core.spawnIssued >= su.cfg.budgets.spawns {
      StoppedBy(su, r, st, op, SPAWN_CAP_REACHED, SPAWN_CAP);
    }
  }

  lemma TokenGranted(su: Setup, r: Run, st: Move, ch: Id)
    requires Legal(su, r, st) && AsksRunning(r, st, ch) && st.request.IssueReq?
    requires PolicyAllows(su.cfg, st.request.action) && r.core.spawnIssued < su.cfg.budgets.spawns
    ensures var body := BodyFor(su, r.core, ch, st.request.action, st.inputs.now, st.inputs.newId.value);
            GrantedAs(su, r, st, SignedToken(SignedBy(su, body), LeftAfter(su, r.core)),
                      WithToken(r.core, body), TokenIssued(body, st.request.action.Kind()))
  {
    IssueAmounts(su, r, st, ch);
    hide *;
    var a, now, id := st.request.action, st.inputs.now, st.inputs.newId.value;
    var body, left := BodyFor(su, r.core, ch, a, now, id), LeftAfter(su, r.core);
    IssueGrants(su, r.core, ch, a, now, id, st.key.id);
    SignedBody(su, body, left);
    GrantedBy(su, r, st, Issue(ch, a, now, id, st.key.id), IssuedToken(body, left),
              SignedToken(SignedBy(su, body), left), WithToken(r.core, body), TokenIssued(body, a.Kind()));
  }

  lemma IssueGrants(su: Setup, c: Core, ch: Id, a: Action, now: Time, id: Id, req: Id)
    requires c.phase == RUNNING && PolicyAllows(su.cfg, a) && c.spawnIssued < su.cfg.budgets.spawns
    ensures var body := BodyFor(su, c, ch, a, now, id);
            Apply(su.cfg, c, Issue(ch, a, now, id, req))
            == Step(WithToken(c, body),
                    Outcome([TokenIssued(body, a.Kind())],
                            Some(IssuedToken(body, LeftAfter(su, c))), None))
  {
    hide PolicyAllows;
  }

  lemma IssueAmounts(su: Setup, r: Run, st: Move, ch: Id)
    requires AsksRunning(r, st, ch) && st.request.IssueReq?
    ensures st.Serve? && st.inputs.newId.Some? && r.core.phase == RUNNING && r.core.stopReason == None
    ensures Amounts(su, r, st, Issue(ch, st.request.action, st.inputs.now, st.inputs.newId.value, st.key.id))
  {
  }

  lemma SignedBody(su: Setup, body: TokenBody, remaining: int)
    ensures Signed(su, Some(IssuedToken(body, remaining)))
         == Some(SignedToken(SignedBy(su, body), remaining))
  {
  }

  lemma IssueCases(su: Setup, c: Core, op: Op)
    requires op.Issue? && c.phase == RUNNING && c.stopReason == None
    ensures var body := BodyFor(su, c, op.channel, op.action, op.now, op.tokenId);
            var s := Apply(su.cfg, c, op);
            if !PolicyAllows(su.cfg, op.action) then
              s == Step(c, Outcome([RequestDenied(op.req, ACTION_DENIED)], None, Some(ACTION_DENIED)))
            else if c.spawnIssued >= su.cfg.budgets.spawns then
              s == Step(c.(phase := STOPPING, stopReason := Some(SPAWN_CAP)),
                        Outcome([RequestDenied(op.req, SPAWN_CAP_REACHED), StopLatched(SPAWN_CAP)], None,
                                Some(SPAWN_CAP_REACHED)))
            else s == Step(WithToken(c, body),
                           Outcome([TokenIssued(body, op.action.Kind())],
                                   Some(IssuedToken(body, LeftAfter(su, c))), None))
  {
    hide PolicyAllows;
    if c.spawnIssued >= su.cfg.budgets.spawns {
      assert [RequestDenied(op.req, SPAWN_CAP_REACHED)] + [StopLatched(SPAWN_CAP)]
          == [RequestDenied(op.req, SPAWN_CAP_REACHED), StopLatched(SPAWN_CAP)];
    }
  }

  // ---- presenting a token ----

  /** The request is answered BUSY: nothing happens, and its key stays free. */
  ghost predicate TurnedAway(su: Setup, r: Run, st: Move)
    requires Legal(su, r, st) && st.Serve?
  {
    AnswerOf(su, r, st) == Reply(None, Some(BUSY)) && NextRun(su, r, st) == r.(clock := st.at)
  }

  /** The token is found to be due: it expires, and the request is denied. */
  ghost predicate DeniedAsDue(su: Setup, r: Run, st: Move, id: Id)
    requires Legal(su, r, st) && st.Serve? && id in r.core.tokens.at
  {
    var c, rec := r.core, r.core.tokens.at[id];
    && AnswerOf(su, r, st) == Reply(None, Some(TOKEN_EXPIRED)) && Stores(su, r, st)
    && Books(su, r, st, c.(tokens := c.tokens.Put(id, rec.(state := EXPIRED))),
             [TokenExpired(rec.body.tokenId), RequestDenied(st.key.id, TOKEN_EXPIRED)])
  }

  lemma TurnedAwayBy(su: Setup, r: Run, st: Move, op: Op)
    requires Legal(su, r, st) && Amounts(su, r, st, op)
    requires Apply(su.cfg, r.core, op) == Step(r.core, Outcome([], None, Some(BUSY)))
    ensures TurnedAway(su, r, st)
  {
    hide Apply, Legal, NextRun, AnswerOf, Books, Stores, Latches, RequestOp, Asks;
    Served(su, r, st, op);
  }

  lemma DueBy(su: Setup, r: Run, st: Move, op: Op, id: Id)
    requires Legal(su, r, st) && Amounts(su, r, st, op) && id in r.core.tokens.at
    requires var c, rec := r.core, r.core.tokens.at[id];
             Apply(su.cfg, c, op)
             == Step(c.(tokens := c.tokens.Put(id, rec.(state := EXPIRED))),
                     Outcome([TokenExpired(rec.body.tokenId), RequestDenied(st.key.id, TOKEN_EXPIRED)], None,
                             Some(TOKEN_EXPIRED)))
    ensures DeniedAsDue(su, r, st, id)
  {
    NeitherLatches(TokenExpired(r.core.tokens.at[id].body.tokenId), RequestDenied(st.key.id, TOKEN_EXPIRED));
    hide Apply, Legal, NextRun, AnswerOf, Books, Stores, Latches, RequestOp, Asks;
    Served(su, r, st, op);
  }

  lemma LatchesStop(reason: Reason)
    ensures Latches([StopLatched(reason)])
  {
    assert [StopLatched(reason)][0].StopLatched?;
  }

  lemma NeitherLatches(a: Event, b: Event)
    requires !a.StopLatched? && !b.StopLatched?
    ensures !Latches([a, b])
  {
  }

  /** The run's own signature verifies on the token. */
  predicate SignedHere(su: Setup, t: Token) {
    && t.body.keyId == su.cfg.keyId
    && su.cfg.crypto.verify(su.cfg.crypto.publicKey(su.seed), su.cfg.crypto.tokenMessage(t.body), t.sig)
  }

  /** The token is bound to the channel that presents it and to the action it is presented for, and is known. */
  predicate BoundTo(su: Setup, c: Core, t: Token, ch: Id, a: Action) {
    t.body.channelId == ch && t.body.actionHash == su.cfg.crypto.actionHash(a) && t.body.tokenId in c.tokens.at
  }

  /** The books with a token spent on a new action. */
  function WithAction(c: Core, id: Id, ch: Id, a: Action, actionId: Id): Core
    requires id in c.tokens.at
  {
    c.(tokens := c.tokens.Put(id, c.tokens.at[id].(state := SPENT, actionId := Some(actionId))),
       inflight := c.inflight + 1,
       actions := c.actions.Put(actionId, ActionRec(actionId, ch, a.Kind(), id, DISPATCHED, None, None, None)))
  }

  /** Dispatch: what a running run answers to a token presented in a new request, in the order of the checks. An
      action is dispatched exactly when the token is of this run, signed by it, bound to the channel and the
      action, issued, not due, and there is room; and only then is anything spent. */
  lemma TokenPresented(su: Setup, r: Run, st: Move, ch: Id)
    requires Legal(su, r, st) && AsksRunning(r, st, ch) && st.request.DispatchReq?
    ensures var c, t, a, id := r.core, st.request.token, st.request.action, st.request.token.body.tokenId;
            if t.body.runId != su.cfg.runId then Denied(su, r, st, TOKEN_BINDING)
            else if !SignedHere(su, t) then Denied(su, r, st, TOKEN_INVALID)
            else if !BoundTo(su, c, t, ch, a) then Denied(su, r, st, TOKEN_BINDING)
            else if c.tokens.at[id].state == SPENT then Denied(su, r, st, TOKEN_USED)
            else if c.tokens.at[id].state == EXPIRED then Denied(su, r, st, TOKEN_EXPIRED)
            else if st.inputs.now >= c.tokens.at[id].expiresUs then DeniedAsDue(su, r, st, id)
            else if c.inflight >= 32 then TurnedAway(su, r, st)
            else
              GrantedAs(su, r, st, Dispatched(st.inputs.newId.value), WithAction(c, id, ch, a, st.inputs.newId.value),
                        TokenSpent(id, st.inputs.newId.value))
  {
    PresentAmounts(su, r, st, ch);
    hide *;
    var c, t, a, id := r.core, st.request.token, st.request.action, st.request.token.body.tokenId;
    var op := Dispatch(ch, t.body, a, st.inputs.now, st.inputs.newId.value, st.key.id);
    RefuseIs(su.cfg, c, st.key.id);
    if t.body.runId != su.cfg.runId {
      DeniedBy(su, r, st, Refuse(st.key.id, TOKEN_BINDING), TOKEN_BINDING);
    } else if !SignedHere(su, t) {
      DeniedBy(su, r, st, Refuse(st.key.id, TOKEN_INVALID), TOKEN_INVALID);
    } else {
      DispatchCases(su, c, op, t);
      if !BoundTo(su, c, t, ch, a) {
        DeniedBy(su, r, st, op, TOKEN_BINDING);
      } else if c.tokens.at[id].state == SPENT {
        DeniedBy(su, r, st, op, TOKEN_USED);
      } else if c.tokens.at[id].state == EXPIRED {
        DeniedBy(su, r, st, op, TOKEN_EXPIRED);
      } else if st.inputs.now >= c.tokens.at[id].expiresUs {
        DueBy(su, r, st, op, id);
      } else if c.inflight >= 32 {
        TurnedAwayBy(su, r, st, op);
      } else {
        var shown := Dispatched(st.inputs.newId.value);
        NotSigned(su, shown);
        GrantedBy(su, r, st, op, shown, shown, WithAction(c, id, ch, a, st.inputs.newId.value),
                  TokenSpent(id, st.inputs.newId.value));
      }
    }
  }

  lemma NotSigned(su: Setup, p: Payload)
    requires !p.IssuedToken?
    ensures Signed(su, Some(p)) == Some(p)
  {
  }

  lemma RefuseIs(cfg: Config, c: Core, req: Id)
    requires c.phase == RUNNING
    ensures forall code :: Apply(cfg, c, Refuse(req, code))
                        == Step(c, Outcome([RequestDenied(req, code)], None, Some(code)))
  {
  }

  lemma PresentAmounts(su: Setup, r: Run, st: Move, ch: Id)
    requires AsksRunning(r, st, ch) && st.request.DispatchReq?
    ensures st.Serve? && st.inputs.newId.Some? && r.core.phase == RUNNING
    ensures var t, a := st.request.token, st.request.action;
            Amounts(su, r, st,
                    if t.body.runId != su.cfg.runId then Refuse(st.key.id, TOKEN_BINDING)
                    else if !SignedHere(su, t) then Refuse(st.key.id, TOKEN_INVALID)
                    else Dispatch(ch, t.body, a, st.inputs.now, st.inputs.newId.value, st.key.id))
  {
  }

  lemma DispatchCases(su: Setup, c: Core, op: Op, t: Token)
    requires op.Dispatch? && op.body == t.body && t.body.runId == su.cfg.runId && c.phase == RUNNING
    ensures var s, id := Apply(su.cfg, c, op), t.body.tokenId;
            if !BoundTo(su, c, t, op.channel, op.action) then
              s == Step(c, Outcome([RequestDenied(op.req, TOKEN_BINDING)], None, Some(TOKEN_BINDING)))
            else if c.tokens.at[id].state == SPENT then
              s == Step(c, Outcome([RequestDenied(op.req, TOKEN_USED)], None, Some(TOKEN_USED)))
            else if c.tokens.at[id].state == EXPIRED then
              s == Step(c, Outcome([RequestDenied(op.req, TOKEN_EXPIRED)], None, Some(TOKEN_EXPIRED)))
            else if op.now >= c.tokens.at[id].expiresUs then
              s == Step(c.(tokens := c.tokens.Put(id, c.tokens.at[id].(state := EXPIRED))),
                        Outcome([TokenExpired(c.tokens.at[id].body.tokenId), RequestDenied(op.req, TOKEN_EXPIRED)],
                                None, Some(TOKEN_EXPIRED)))
            else if c.inflight >= 32 then s == Step(c, Outcome([], None, Some(BUSY)))
            else s == Step(WithAction(c, id, op.channel, op.action, op.actionId),
                           Outcome([TokenSpent(id, op.actionId)], Some(Dispatched(op.actionId)), None))
  {
    if t.body.tokenId in c.tokens.at {
      var expired := TokenExpired(c.tokens.at[t.body.tokenId].body.tokenId);
      var denied := RequestDenied(op.req, TOKEN_EXPIRED);
      assert [expired] + [denied] == [expired, denied];
    }
  }

  /** Everything a dispatch needs. */
  predicate MayDispatch(su: Setup, r: Run, st: Move) {
    && st.Serve? && st.request.DispatchReq? && st.channel.Some? && st.key !in r.requests
    && r.core.phase == RUNNING && st.inputs.newId.Some?
    && var t := st.request.token;
    && t.body.runId == su.cfg.runId && SignedHere(su, t)
    && BoundTo(su, r.core, t, st.channel.value, st.request.action)
    && r.core.tokens.at[t.body.tokenId].state == ISSUED
    && st.inputs.now < r.core.tokens.at[t.body.tokenId].expiresUs
    && r.core.inflight < 32
  }

  lemma RunningIsUnstopped(su: Setup, r: Run)
    requires RunInv(su, r) && r.core.phase == RUNNING
    ensures r.core.stopReason == None
  {
    Parts(su.cfg, r.core);
    hide Faithful, Timed, Released, Inv;
  }

  /** A request dispatches an action exactly if it has everything a dispatch needs. */
  lemma DispatchesIff(su: Setup, r: Run, st: Move)
    requires RunInv(su, r) && Legal(su, r, st) && st.Serve?
    ensures Dispatches(su, r, st) <==> MayDispatch(su, r, st)
  {
    if Dispatches(su, r, st) { DispatchRuns(su, r, st); }
    hide Legal, RunInv, Dispatches, NextRun, AnswerOf, SignedHere, BoundTo, SurfaceAllows, AsksRunning;
    if st.request.DispatchReq? && st.channel.Some? && st.key !in r.requests && r.core.phase == RUNNING
       && st.inputs.newId.Some? {
      RunningIsUnstopped(su, r);
      AsksOnSurface(r, st);
      PresentedResult(su, r, st, st.channel.value);
    }
  }

  lemma AsksOnSurface(r: Run, st: Move)
    requires st.Serve? && st.request.DispatchReq? && st.channel.Some? && st.key !in r.requests
    requires r.core.phase == RUNNING && r.core.stopReason == None && st.inputs.newId.Some?
    ensures AsksRunning(r, st, st.channel.value)
  {
  }

  lemma PresentedResult(su: Setup, r: Run, st: Move, ch: Id)
    requires Legal(su, r, st) && AsksRunning(r, st, ch) && st.request.DispatchReq?
    ensures st.Serve?
    ensures Dispatches(su, r, st)
       <==> var t, id := st.request.token, st.request.token.body.tokenId;
            && t.body.runId == su.cfg.runId && SignedHere(su, t) && BoundTo(su, r.core, t, ch, st.request.action)
            && r.core.tokens.at[id].state == ISSUED && st.inputs.now < r.core.tokens.at[id].expiresUs
            && r.core.inflight < 32
  {
    AsksFacts(r, st, ch);
    hide *;
    TokenPresented(su, r, st, ch);
    AnsweredDispatch(su, r, st);
    RefusedHasNoResult(su, r, st);
  }

  lemma AsksFacts(r: Run, st: Move, ch: Id)
    requires AsksRunning(r, st, ch)
    ensures Asks(r, st) && st.Serve? && !Closed(r.core.phase) && st.inputs.newId.Some?
  {
  }

  lemma RefusedHasNoResult(su: Setup, r: Run, st: Move)
    requires Legal(su, r, st) && st.Serve?
    ensures forall code :: Denied(su, r, st, code) ==> AnswerOf(su, r, st).result == None
    ensures forall id :: id in r.core.tokens.at && DeniedAsDue(su, r, st, id) ==> AnswerOf(su, r, st).result == None
    ensures TurnedAway(su, r, st) ==> AnswerOf(su, r, st).result == None
    ensures forall p, c, e :: GrantedAs(su, r, st, p, c, e) ==> AnswerOf(su, r, st).result == Some(p)
  {
    hide Legal, AnswerOf, Books, Stores, NextRun;
  }

  lemma DispatchRuns(su: Setup, r: Run, st: Move)
    requires Dispatches(su, r, st)
    ensures st.request.DispatchReq? && st.channel.Some? && st.key !in r.requests
    ensures r.core.phase == RUNNING && st.inputs.newId.Some?
  {
    hide TokenSigned;
  }

  lemma AnsweredDispatch(su: Setup, r: Run, st: Move)
    requires Legal(su, r, st) && st.Serve? && st.request.DispatchReq? && Asks(r, st) && !Closed(r.core.phase)
    ensures Dispatches(su, r, st)
       <==> var p := AnswerOf(su, r, st).result; p.Some? && p.value.Dispatched?
  {
    hide Legal, RequestOp;
  }

  // ---- every released effect was admitted ----

  /** The state before step `i`. */
  ghost function Before(su: Setup, steps: seq<Move>, i: nat): Run
    requires History(su, steps) && i <= |steps|
  {
    NothingUndone(su, steps, i);
    Supervisor.After(su, steps[..i])
  }

  /** Step `i` answers with the token that has this body. */
  ghost predicate Grants(su: Setup, steps: seq<Move>, i: nat, body: TokenBody)
    requires History(su, steps) && i < |steps|
  {
    var r := Before(su, steps, i);
    Issues(su, r, steps[i]) && AnswerOf(su, r, steps[i]).result.value.token.body == body
  }

  /** Step `j` dispatches this action. */
  ghost predicate DispatchesAs(su: Setup, steps: seq<Move>, j: nat, actionId: Id)
    requires History(su, steps) && j < |steps|
  {
    var r := Before(su, steps, j);
    Dispatches(su, r, steps[j]) && AnswerOf(su, r, steps[j]).result == Some(Dispatched(actionId))
  }

  lemma BeforeInit(su: Setup, steps: seq<Move>)
    requires History(su, steps) && steps != []
    ensures var init := steps[..|steps| - 1];
            && History(su, init) && Before(su, steps, |init|) == Supervisor.After(su, init)
            && forall i :: 0 <= i < |init| ==> Before(su, steps, i) == Before(su, init, i) && steps[i] == init[i]
  {
    var init := steps[..|steps| - 1];
    LastStep(su, steps);
    hide *;
    forall i | 0 <= i < |init| ensures Before(su, steps, i) == Before(su, init, i) {
      BeforeEarlier(su, steps, i);
    }
    BeforeIs(su, steps, |init|);
  }

  lemma BeforeIs(su: Setup, steps: seq<Move>, i: nat)
    requires History(su, steps) && i <= |steps|
    ensures History(su, steps[..i]) && Before(su, steps, i) == Supervisor.After(su, steps[..i])
  {
    hide History, Supervisor.After;
    NothingUndone(su, steps, i);
  }

  lemma BeforeEarlier(su: Setup, steps: seq<Move>, i: nat)
    requires History(su, steps) && i < |steps|
    ensures var init := steps[..|steps| - 1]; History(su, init) && Before(su, steps, i) == Before(su, init, i)
  {
    var init := steps[..|steps| - 1];
    hide *;
    LastStep(su, steps);
    assert init[..i] == steps[..i];
    BeforeIs(su, steps, i);
    BeforeIs(su, init, i);
  }

  lemma OnlyIssueAdds(cfg: Config, c: Core, op: Op)
    requires !op.Issue?
    ensures Apply(cfg, c, op).core.tokens.at.Keys == c.tokens.at.Keys
  {
    hide PolicyAllows, ChargeOf, ObservedCharge, SweepEvents, AuditOf, FinishedRec, FinalPhase;
  }

  lemma {:induction false} OthersAddNone(cfg: Config, c: Core, ops: seq<Op>)
    requires forall i :: 0 <= i < |ops| ==> !ops[i].Issue?
    ensures ApplyAll(cfg, c, ops).0.tokens.at.Keys == c.tokens.at.Keys
  {
    hide Apply;
    if ops != [] {
      var n := |ops| - 1;
      OthersAddNone(cfg, c, ops[..n]);
      OnlyIssueAdds(cfg, ApplyAll(cfg, c, ops[..n]).0, ops[n]);
    }
  }

  /** Only a request for a token issues one. */
  lemma OnlyRequestsIssue(su: Setup, r: Run, st: Move)
    requires Legal(su, r, st) && !(IsCommitted(su, r, st) && st.request.IssueReq?)
    ensures var ops := OpsOf(su, r, st); forall i :: 0 <= i < |ops| ==> !ops[i].Issue?
  {
    hide ApplyAll, AllEnabled, TakeSample, TakeFinal, ReplyTo, TokenSigned, Ordered;
  }

  /** Only answering a token request adds a token: the one it answers with. */
  lemma NewTokens(su: Setup, r: Run, st: Move, id: Id)
    requires Legal(su, r, st) && id !in r.core.tokens.at && id in NextRun(su, r, st).core.tokens.at
    ensures Issues(su, r, st)
    ensures var rec := NextRun(su, r, st).core.tokens.at[id];
            && AnswerOf(su, r, st).result.value.token.body == rec.body
            && rec.body.tokenId == id && rec.expiresUs == rec.body.expiresUs
  {
    LegalCommit(su, r, st);
    if !(IsCommitted(su, r, st) && st.request.IssueReq?) { OnlyRequestsIssue(su, r, st); }
    var ops := OpsOf(su, r, st);
    hide Legal, NextRun, ApplyAll, AllEnabled, OpsOf, Append, Ordered, Issues, AnswerOf, IsCommitted;
    if !(IsCommitted(su, r, st) && st.request.IssueReq?) {
      OthersAddNone(su.cfg, r.core, ops);
    } else {
      IssuingStep(su, r, st, id);
    }
  }

  lemma IssuingStep(su: Setup, r: Run, st: Move, id: Id)
    requires IsCommitted(su, r, st) && st.request.IssueReq? && id !in r.core.tokens.at
    requires id in ApplyAll(su.cfg, r.core, OpsOf(su, r, st)).0.tokens.at
    ensures Issues(su, r, st)
    ensures var rec := ApplyAll(su.cfg, r.core, OpsOf(su, r, st)).0.tokens.at[id];
            && AnswerOf(su, r, st).result.value.token.body == rec.body
            && rec.body.tokenId == id && rec.expiresUs == rec.body.expiresUs
  {
    if Closed(r.core.phase) {
      ApplyNone(su.cfg, r.core);
      assert false;
    } else {
      var op := RequestOp(su, r.core, st.request, ChannelOf(st.channel), st.key.id, st.inputs).value;
      assert OpsOf(su, r, st) == [op];
      ApplyOne(su.cfg, r.core, op);
    }
    hide OpsOf, ApplyAll, PolicyAllows;
  }

  /** Every token of a run was granted by a step of its history. */
  lemma {:induction false} TokenWasGranted(su: Setup, steps: seq<Move>, id: Id) returns (i: nat)
    requires History(su, steps) && id in Supervisor.After(su, steps).core.tokens.at
    ensures var rec := Supervisor.After(su, steps).core.tokens.at[id];
            && i < |steps| && Grants(su, steps, i, rec.body)
            && rec.body.tokenId == id && rec.expiresUs == rec.body.expiresUs
  {
    hide History, Supervisor.After, Legal, NextRun, Issues, AnswerOf, Before;
    if steps == [] {
      assert false by { FreshHasNone(su); }
    } else {
      var init, st := steps[..|steps| - 1], steps[|steps| - 1];
      LastStep(su, steps);
      BeforeInit(su, steps);
      var r := Supervisor.After(su, init);
      if id in r.core.tokens.at {
        i := TokenWasGranted(su, init, id);
        StepKeepsTokens(su, r, st);
      } else {
        i := |init|;
        NewTokens(su, r, st, id);
      }
    }
  }

  lemma FreshHasNone(su: Setup)
    ensures History(su, []) && Supervisor.After(su, []) == FRESH
  {
  }

  /** Every released or pending effect was dispatched by a step of the history. */
  lemma {:induction false} EffectWasDispatched(su: Setup, steps: seq<Move>, a: Id) returns (j: nat)
    requires History(su, steps)
    requires a in Supervisor.After(su, steps).released || Supervisor.After(su, steps).pending == Some(a)
    ensures j < |steps| && DispatchesAs(su, steps, j, a)
  {
    hide History, Supervisor.After, Legal, NextRun, Dispatches, AnswerOf, Before, Dispatching, Answer;
    if steps == [] {
      assert false by { FreshHasNone(su); }
    } else {
      var init, st := steps[..|steps| - 1], steps[|steps| - 1];
      LastStep(su, steps);
      BeforeInit(su, steps);
      var r := Supervisor.After(su, init);
      EffectsMove(su, r, st);
      if a in r.released || r.pending == Some(a) {
        j := EffectWasDispatched(su, init, a);
      } else {
        j := |init|;
        assert Dispatching(su, r, st);
        DispatchingDispatches(su, r, st);
      }
    }
  }

  lemma DispatchingDispatches(su: Setup, r: Run, st: Move)
    requires Dispatching(su, r, st)
    ensures Dispatches(su, r, st)
    ensures AnswerOf(su, r, st) == Answer(su, r, st.key, st.request, st.channel, st.inputs)
    ensures AnswerOf(su, r, st).result.Some? && AnswerOf(su, r, st).result.value.Dispatched?
  {
    hide ApplyAll, RequestOp, ReplyTo, Answer, Commits;
    OnlyDispatchDispatches(su, r, st.key, st.request, st.channel, st.inputs);
    DispatchComesFrom(su, r.core, st.request, ChannelOf(st.channel), st.key.id, st.inputs);
  }

  lemma DispatchComesFrom(su: Setup, c: Core, q: Request, ch: Id, req: Id, inp: Inputs)
    ensures var op := RequestOp(su, c, q, ch, req, inp); op.Some? && op.value.Dispatch? ==> q.DispatchReq?
  {
    hide TokenSigned;
  }

  /** What a grant means: the action was approved, and the token is bound to it and to the channel that asked. */
  lemma GrantMeans(su: Setup, r: Run, st: Move)
    requires RunInv(su, r) && Legal(su, r, st) && Issues(su, r, st)
    ensures st.channel.Some? && st.inputs.newId.Some? && Approved(su.cfg, st.request.action)
    ensures AnswerOf(su, r, st).result.value.token.body
         == BodyFor(su, r.core, st.channel.value, st.request.action, st.inputs.now, st.inputs.newId.value)
  {
    IssueRuns(su, r, st);
    RunningIsUnstopped(su, r);
    hide Legal, RunInv, Issues, NextRun, AnswerOf, Asks, Approved, Books, Stores;
    TokenAsked(su, r, st, st.channel.value);
    IssuesSome(su, r, st);
  }

  lemma IssuesSome(su: Setup, r: Run, st: Move)
    requires Issues(su, r, st)
    ensures AnswerOf(su, r, st).result.Some? && AnswerOf(su, r, st).result.value.SignedToken?
  {
    hide AnswerOf, IsCommitted;
  }

  lemma IssueRuns(su: Setup, r: Run, st: Move)
    requires Issues(su, r, st)
    ensures st.channel.Some? && Asks(r, st) && r.core.phase == RUNNING && st.inputs.newId.Some?
  {
    hide PolicyAllows;
  }

  /** No effect without admission: for every effect a run ever released, an earlier step granted a token for an
      approved action, less than a second before the step that dispatched the effect; there the token was signed by
      the run and bound to the channel and the action it was presented for. If what was presented is what had been
      granted, channel and action hash are those of the grant. */
  lemma EffectsAdmitted(su: Setup, steps: seq<Move>, a: Id) returns (i: nat, j: nat, body: TokenBody)
    requires History(su, steps) && a in Supervisor.After(su, steps).released
    ensures i < j < |steps| && Grants(su, steps, i, body) && DispatchesAs(su, steps, j, a)
    ensures Approved(su.cfg, steps[i].request.action)
    ensures MayDispatch(su, Before(su, steps, j), steps[j])
    ensures var t := steps[j].request.token;
            && t.body.tokenId == body.tokenId && steps[j].inputs.now < steps[i].inputs.now + 1_000_000
            && (t.body == body ==>
                  var hash := su.cfg.crypto.actionHash;
                  steps[j].channel == steps[i].channel
                  && hash(steps[j].request.action) == hash(steps[i].request.action))
  {
    j := EffectWasDispatched(su, steps, a);
    i, body := DispatchWasGranted(su, steps, j);
    assert Dispatches(su, Before(su, steps, j), steps[j]);
  }

  lemma DispatchWasGranted(su: Setup, steps: seq<Move>, j: nat) returns (i: nat, body: TokenBody)
    requires History(su, steps) && j < |steps| && Dispatches(su, Before(su, steps, j), steps[j])
    ensures i < j && Grants(su, steps, i, body) && Approved(su.cfg, steps[i].request.action)
    ensures MayDispatch(su, Before(su, steps, j), steps[j])
    ensures var t := steps[j].request.token;
            && t.body.tokenId == body.tokenId && steps[j].inputs.now < steps[i].inputs.now + 1_000_000
            && (t.body == body ==>
                  var hash := su.cfg.crypto.actionHash;
                  steps[j].channel == steps[i].channel
                  && hash(steps[j].request.action) == hash(steps[i].request.action))
  {
    var r, id := Before(su, steps, j), steps[j].request.token.body.tokenId;
    hide History, Supervisor.After, Legal, NextRun, Issues, Dispatches, AnswerOf, Before, RunInv, SignedHere, Approved;
    BeforeIs(su, steps, j);
    StepOf(su, steps, j);
    Reachable(su, steps[..j]);
    DispatchesServes(su, r, steps[j]);
    DispatchesIff(su, r, steps[j]);
    i := TokenWasGranted(su, steps[..j], id);
    body := r.core.tokens.at[id].body;
    BeforeWithin(su, steps, j, i);
    StepOf(su, steps, i);
    BeforeIs(su, steps, i);
    Reachable(su, steps[..i]);
    GrantMeans(su, Before(su, steps, i), steps[i]);
  }

  lemma DispatchesServes(su: Setup, r: Run, st: Move)
    requires Dispatches(su, r, st)
    ensures st.Serve? && st.request.DispatchReq?
  {
    hide AnswerOf;
  }

  lemma BeforeWithin(su: Setup, steps: seq<Move>, j: nat, i: nat)
    requires History(su, steps) && i < j <= |steps| && History(su, steps[..j])
    ensures Before(su, steps[..j], i) == Before(su, steps, i) && steps[..j][i] == steps[i]
  {
    hide *;
    assert steps[..j][..i] == steps[..i];
    BeforeIs(su, steps, i);
    BeforeIs(su, steps[..j], i);
  }
}
