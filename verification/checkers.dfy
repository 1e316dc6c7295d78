/** How the two replay checkers compare, on every stream of consecutive, well-typed bodies. */
module Checkers {
  import opened Types
  import opened Sequences
  import opened Replay
  import opened Streams

  // ---- on streams the Python checker accepts ----

  /** No request id is denied twice. */
  ghost predicate DistinctDenials(bodies: seq<Body>) {
    forall i, j :: 0 <= i < j < |bodies| && bodies[i].event.RequestDenied? && bodies[j].event.RequestDenied?
      ==> bodies[i].event.requestId != bodies[j].event.requestId
  }

  ghost predicate DenialsAre(denied: set<Id>, bodies: seq<Body>) {
    && (forall i :: 0 <= i < |bodies| && bodies[i].event.RequestDenied? ==> bodies[i].event.requestId in denied)
    && (forall id :: id in denied ==>
          exists i :: 0 <= i < |bodies| && bodies[i].event.RequestDenied? && bodies[i].event.requestId == id)
  }

  ghost predicate SameBooks(s: State, t: TsState) {
    t.books == s.(phase := CREATED)
  }

  /** Both checkers in step after `bodies[..i]`: unless a denial repeats, the TypeScript one is alive with
      the same books, the denied ids, and the Python phase once a body was read. */
  ghost predicate InStep(bodies: seq<Body>, i: nat)
    requires Accepted(bodies) && i <= |bodies|
  {
    var t := TsRun(TS_START, bodies[..i]);
    && (t.Some? <==> DistinctDenials(bodies[..i]))
    && (t.Some? ==>
          && SameBooks(After(bodies, i), t.value)
          && t.value.phase == (if i == 0 then None else Some(After(bodies, i).phase))
          && DenialsAre(t.value.denied, bodies[..i]))
  }

  lemma {:induction false} TsAgrees(bodies: seq<Body>, i: nat)
    requires Accepted(bodies) && i <= |bodies|
    ensures InStep(bodies, i)
  {
    if i == 0 {
      assert bodies[..0] == [];
    } else {
      hide Accepted, InStep, After, DistinctDenials;
      TsAgrees(bodies, i - 1);
      if DistinctDenials(bodies[..i - 1]) {
        TsStepsOn(bodies, i - 1);
      } else {
        TsStaysDead(bodies, i - 1);
      }
    }
  }

  lemma TsStaysDead(bodies: seq<Body>, n: nat)
    requires Accepted(bodies) && n < |bodies| && InStep(bodies, n) && !DistinctDenials(bodies[..n])
    ensures InStep(bodies, n + 1)
  {
    hide Accepted, After, SameBooks, DenialsAre, TsStep;
    var before, upTo := bodies[..n], bodies[..n + 1];
    assert upTo[..n] == before;
    var j, k :| 0 <= j < k < n && before[j].event.RequestDenied? && before[k].event.RequestDenied?
                && before[j].event.requestId == before[k].event.requestId;
    assert upTo[j] == before[j] && upTo[k] == before[k];
  }

  lemma TsStepsOn(bodies: seq<Body>, n: nat)
    requires Accepted(bodies) && n < |bodies| && InStep(bodies, n) && DistinctDenials(bodies[..n])
    ensures InStep(bodies, n + 1)
  {
    hide Accepted, After, Step, TsStep, SameBooks, DenialsAre, DistinctDenials, Run, Consecutive, SchemaTyped, TsRun;
    AfterStep(bodies, n);
    CreatedOnlyFirst(bodies, n);
    var t := TsRun(TS_START, bodies[..n]).value;
    TsRunStep(TS_START, bodies, n);
    TsStepAgrees(After(bodies, n), t, bodies[n], After(bodies, n + 1), n == 0);
    DenialStep(bodies[..n], t.denied, bodies[n]);
    PrefixPlus(bodies, n);
  }

  /** One event: where the Python checker steps, the TypeScript one refuses only a repeated denial. */
  lemma TsStepAgrees(s: State, t: TsState, b: Body, s': State, first: bool)
    requires Step(s, b) == Some(s') && SameBooks(s, t)
    requires t.phase == (if first then None else Some(s.phase))
    requires first <==> b.event.RunCreated?
    ensures TsStep(t, b.event).Some? <==> !(b.event.RequestDenied? && b.event.requestId in t.denied)
    ensures TsStep(t, b.event).Some? ==>
              var t' := TsStep(t, b.event).value;
              && SameBooks(s', t') && t'.phase == Some(s'.phase)
              && t'.denied == (if b.event.RequestDenied? then t.denied + {b.event.requestId} else t.denied)
  {
    BooksAgree(s, t, b.event);
  }

  lemma BooksAgree(s: State, t: TsState, e: Event)
    requires SameBooks(s, t) && Books(s, e).Some?
    ensures TsBooks(t.books, e).Some?
    ensures TsBooks(t.books, e).value.(phase := CREATED) == Books(s, e).value.(phase := CREATED)
    ensures TsBooks(t.books, e).value.phase == CREATED
  {
  }

  lemma DenialStep(before: seq<Body>, denied: set<Id>, b: Body)
    requires DistinctDenials(before) && DenialsAre(denied, before)
    ensures DistinctDenials(before + [b]) <==> !(b.event.RequestDenied? && b.event.requestId in denied)
    ensures DenialsAre(if b.event.RequestDenied? then denied + {b.event.requestId} else denied, before + [b])
  {
    var all, n := before + [b], |before|;
    assert forall k :: 0 <= k < n ==> all[k] == before[k];
    if b.event.RequestDenied? && b.event.requestId in denied {
      var k :| 0 <= k < n && before[k].event.RequestDenied? && before[k].event.requestId == b.event.requestId;
      assert all[k].event.requestId == all[n].event.requestId;
    }
    var denied' := if b.event.RequestDenied? then denied + {b.event.requestId} else denied;
    forall id | id in denied'
      ensures exists i :: 0 <= i < |all| && all[i].event.RequestDenied? && all[i].event.requestId == id
    {
      if id in denied {
        var k :| 0 <= k < n && before[k].event.RequestDenied? && before[k].event.requestId == id;
        assert all[k].event.requestId == id;
      } else {
        assert all[n].event.requestId == id;
      }
    }
  }

  /** On a stream the Python checker accepts, the TypeScript checker answers the same phase exactly when
      no request id is denied twice; otherwise it rejects the stream. */
  lemma CheckersAgreeIff(bodies: seq<Body>)
    requires Accepted(bodies)
    ensures TsRun(TS_START, bodies).Some? <==> DistinctDenials(bodies)
    ensures DistinctDenials(bodies) ==> TsPhase(TsRun(TS_START, bodies).value) == Run(START, bodies).value.phase
  {
    TsAgrees(bodies, |bodies|);
    assert bodies[..|bodies|] == bodies;
  }

  // ---- on all streams ----

  /** A stream that begins, if at all, with RunCreated. */
  predicate StartsCreated(bodies: seq<Body>) {
    bodies != [] ==> bodies[0].event.RunCreated?
  }

  ghost predicate StopBefore(bodies: seq<Body>, i: nat)
    requires i <= |bodies|
  {
    exists k :: 0 <= k < i && bodies[k].event.StopLatched?
  }

  /** Faults are observed only after the stop. */
  ghost predicate FaultsAfterStop(bodies: seq<Body>) {
    forall i :: 0 <= i < |bodies| && bodies[i].event.FaultObserved? ==> StopBefore(bodies, i)
  }

  /** No action id is dispatched twice. */
  ghost predicate DistinctSpends(bodies: seq<Body>) {
    forall i, j :: 0 <= i < j < |bodies| && bodies[i].event.TokenSpent? && bodies[j].event.TokenSpent? ==>
      bodies[i].event.actionId != bodies[j].event.actionId
  }

  predicate Stopped(p: Phase) {
    p in {STOPPING, UNCONFIRMED, FINALIZING, COMPLETED, KILLED, FAILED}
  }

  ghost predicate SpentBefore(bodies: seq<Body>, i: nat, a: Id)
    requires i <= |bodies|
  {
    exists k :: 0 <= k < i && bodies[k].event.TokenSpent? && bodies[k].event.actionId == a
  }

  /** The actions are the spent ones, and the phase tells whether a stop was latched. */
  ghost predicate Told(bodies: seq<Body>, i: nat, s: State)
    requires i <= |bodies|
  {
    && (forall a :: a in s.actions <==> SpentBefore(bodies, i, a))
    && (Stopped(s.phase) <==> StopBefore(bodies, i))
  }

  /** Both checkers are alive after `i` bodies, with the same books and the same phase. */
  ghost predicate BothAlive(bodies: seq<Body>, i: nat)
    requires i <= |bodies|
  {
    var p, t := Run(START, bodies[..i]), TsRun(TS_START, bodies[..i]);
    && p.Some? && t.Some? && SameBooks(p.value, t.value)
    && t.value.phase == (if i == 0 then None else Some(p.value.phase))
    && Told(bodies, i, p.value)
  }

  /** What one body tells. */
  lemma ToldStep(bodies: seq<Body>, i: nat, s: State, s': State)
    requires i < |bodies| && Told(bodies, i, s)
    requires forall a :: a in s'.actions <==>
               a in s.actions || (bodies[i].event.TokenSpent? && bodies[i].event.actionId == a)
    requires Stopped(s'.phase) <==> Stopped(s.phase) || bodies[i].event.StopLatched?
    ensures Told(bodies, i + 1, s')
  {
    forall a ensures a in s'.actions <==> SpentBefore(bodies, i + 1, a) {
      if a in s.actions {
        var k :| 0 <= k < i && bodies[k].event.TokenSpent? && bodies[k].event.actionId == a;
      }
    }
    if Stopped(s.phase) {
      var k :| 0 <= k < i && bodies[k].event.StopLatched?;
    }
  }

  /** One body that the Python checker takes changes actions and phase as `ToldStep` asks. */
  lemma StepTells(s: State, b: Body, s': State)
    requires Step(s, b) == Some(s') && WellTyped(b.event) && (b.seqNo == 1 ==> s == START)
    ensures forall a :: a in s'.actions <==> a in s.actions || (b.event.TokenSpent? && b.event.actionId == a)
    ensures Stopped(s'.phase) <==> Stopped(s.phase) || b.event.StopLatched?
  {
  }

  /** One body that the TypeScript checker takes is taken by the Python one too, where neither the beginning,
      nor an early fault, nor a repeated action id is in the way. */
  lemma PythonSteps(s: State, t: TsState, b: Body)
    requires TsStep(t, b.event).Some? && SameBooks(s, t) && WellTyped(b.event)
    requires t.phase == (if b.seqNo == 1 then None else Some(s.phase))
    requires b.seqNo == 1 ==> s == START && b.event.RunCreated?
    requires b.event.FaultObserved? ==> Stopped(s.phase)
    requires b.event.TokenSpent? ==> b.event.actionId !in s.actions
    ensures Step(s, b).Some?
    ensures SameBooks(Step(s, b).value, TsStep(t, b.event).value)
    ensures TsStep(t, b.event).value.phase == Some(Step(s, b).value.phase)
  {
  }

  lemma {:induction false} BothFollow(bodies: seq<Body>, i: nat)
    requires Consecutive(bodies) && SchemaTyped(bodies) && TsRun(TS_START, bodies).Some?
    requires StartsCreated(bodies) && FaultsAfterStop(bodies) && DistinctSpends(bodies) && i <= |bodies|
    ensures BothAlive(bodies, i)
  {
    if i == 0 {
      assert bodies[..0] == [];
    } else {
      var n := i - 1;
      BothFollow(bodies, n);
      TsRejectedPrefix(TS_START, bodies, i);
      RunStep(START, bodies, n);
      TsRunStep(TS_START, bodies, n);
      assert n == 0 ==> bodies[..n] == [];
      hide TsStep, Step, SameBooks, Run, TsRun;
      var s, t := Run(START, bodies[..n]).value, TsRun(TS_START, bodies[..n]).value;
      PythonSteps(s, t, bodies[n]);
      StepTells(s, bodies[n], Step(s, bodies[n]).value);
      ToldStep(bodies, n, s, Step(s, bodies[n]).value);
    }
  }

  /** Exactly what the Python checker asks beyond the TypeScript one: of a stream the TypeScript checker
      accepts, it accepts those that begin with RunCreated, observe faults only after the stop, and dispatch
      no action id twice; and then with the same phase. */
  lemma PythonAgreesIff(bodies: seq<Body>)
    requires Consecutive(bodies) && SchemaTyped(bodies) && TsRun(TS_START, bodies).Some?
    ensures Run(START, bodies).Some? <==> StartsCreated(bodies) && FaultsAfterStop(bodies) && DistinctSpends(bodies)
    ensures Run(START, bodies).Some? ==> TsPhase(TsRun(TS_START, bodies).value) == Run(START, bodies).value.phase
  {
    hide Step, TsStep, Run, TsRun;
    assert bodies[..|bodies|] == bodies;
    if Run(START, bodies).Some? {
      AcceptedMeets(bodies);
      CheckersAgreeIff(bodies);
    }
    if StartsCreated(bodies) && FaultsAfterStop(bodies) && DistinctSpends(bodies) {
      BothFollow(bodies, |bodies|);
    }
  }

  lemma {:induction false} AcceptedTells(bodies: seq<Body>, i: nat)
    requires Accepted(bodies) && i <= |bodies|
    ensures Told(bodies, i, After(bodies, i))
  {
    if i == 0 {
      assert bodies[..0] == [];
    } else {
      AcceptedTells(bodies, i - 1);
      AfterStep(bodies, i - 1);
      assert i == 1 ==> bodies[..0] == [];
      assert i == 1 ==> After(bodies, 0) == START;
      hide After, Accepted, Step, Stopped;
      StepTells(After(bodies, i - 1), bodies[i - 1], After(bodies, i));
      ToldStep(bodies, i - 1, After(bodies, i - 1), After(bodies, i));
    }
  }

  lemma AcceptedMeets(bodies: seq<Body>)
    requires Accepted(bodies)
    ensures StartsCreated(bodies) && FaultsAfterStop(bodies) && DistinctSpends(bodies)
  {
    if bodies != [] {
      CreatedOnlyFirst(bodies, 0);
    }
    forall i | 0 <= i < |bodies| && bodies[i].event.FaultObserved? ensures StopBefore(bodies, i) {
      AcceptedTells(bodies, i);
      AfterStep(bodies, i);
      CreatedOnlyFirst(bodies, i);
    }
    forall i, j | 0 <= i < j < |bodies| && bodies[i].event.TokenSpent? && bodies[j].event.TokenSpent?
      ensures bodies[i].event.actionId != bodies[j].event.actionId
    {
      SpendIsNew(bodies, i, j);
    }
  }

  lemma SpendIsNew(bodies: seq<Body>, i: nat, j: nat)
    requires Accepted(bodies) && i < j < |bodies| && bodies[i].event.TokenSpent? && bodies[j].event.TokenSpent?
    ensures bodies[i].event.actionId != bodies[j].event.actionId
  {
    hide Accepted, After;
    AcceptedTells(bodies, j);
    AfterStep(bodies, j);
    assert SpentBefore(bodies, j, bodies[i].event.actionId);
  }

  /** The two checkers side by side: a stream meets the Python checker and denies no request twice exactly if
      it meets the TypeScript checker and the three conditions only the Python one asks for; both then end in
      the same phase. */
  lemma CheckersMeetIff(bodies: seq<Body>)
    requires Consecutive(bodies) && SchemaTyped(bodies)
    ensures Run(START, bodies).Some? && DistinctDenials(bodies)
            <==> TsRun(TS_START, bodies).Some?
                 && StartsCreated(bodies) && FaultsAfterStop(bodies) && DistinctSpends(bodies)
    ensures Run(START, bodies).Some? && TsRun(TS_START, bodies).Some? ==>
              TsPhase(TsRun(TS_START, bodies).value) == Run(START, bodies).value.phase
  {
    hide Run, TsRun, StartsCreated, FaultsAfterStop, DistinctSpends, DistinctDenials;
    if Run(START, bodies).Some? {
      CheckersAgreeIff(bodies);
      AcceptedMeets(bodies);
    }
    if TsRun(TS_START, bodies).Some? {
      PythonAgreesIff(bodies);
    }
  }

  // ---- one stream for each difference ----

  function Numbered(events: seq<Event>): (bodies: seq<Body>)
    ensures |bodies| == |events| && Consecutive(bodies)
    ensures forall i :: 0 <= i < |events| ==> bodies[i].event == events[i]
  {
    seq(|events|, i requires 0 <= i < |events| => Body("run", "evt", "key", i + 1, ZERO_HASH, 0, events[i]))
  }

  /** The TypeScript checker over bare events. */
  function TsAll(events: seq<Event>): Option<TsState> {
    if events == [] then Some(TS_START)
    else match TsAll(events[..|events| - 1])
      case None => None
      case Some(t) => TsStep(t, events[|events| - 1])
  }

  lemma {:induction false} TsAllRuns(events: seq<Event>)
    ensures TsRun(TS_START, Numbered(events)) == TsAll(events)
  {
    if events == [] {
      assert Numbered(events) == [];
    } else {
      var n := |events| - 1;
      TsAllRuns(events[..n]);
      assert Numbered(events)[..n] == Numbered(events[..n]);
    }
  }

  lemma TsMore(events: seq<Event>, e: Event)
    ensures TsAll(events + [e]) == (match TsAll(events) case None => None case Some(t) => TsStep(t, e))
  {
    assert (events + [e])[..|events|] == events;
  }

  /** A stream with no beginning: only the TypeScript checker accepts it, whatever sample it holds. */
  lemma TsTakesNoBeginning(sample: Sample)
    ensures var b := Numbered([SampleRecorded(sample)]); TsRun(TS_START, b).Some? && Run(START, b).None?
  {
    var events := [SampleRecorded(sample)];
    TsMore([], events[0]);
    assert [] + events == events;
    TsAllRuns(events);
    assert !StartsCreated(Numbered(events));
    PythonAgreesIff(Numbered(events));
  }

  /** A fault observed before any stop: only the TypeScript checker accepts it. */
  lemma TsTakesEarlyFault(configHash: Hash, reason: Reason)
    ensures var b := Numbered([RunCreated(configHash), RunArming, FaultObserved(reason)]);
            TsRun(TS_START, b).Some? && Run(START, b).None?
  {
    var e1 := [RunCreated(configHash)];
    var e2 := e1 + [RunArming];
    var e3 := e2 + [FaultObserved(reason)];
    TsMore([], RunCreated(configHash));
    TsMore(e1, RunArming);
    TsMore(e2, FaultObserved(reason));
    assert [] + e1 == e1 && e3 == [RunCreated(configHash), RunArming, FaultObserved(reason)];
    TsAllRuns(e3);
    var b := Numbered(e3);
    assert b[2].event.FaultObserved? && !StopBefore(b, 2);
    PythonAgreesIff(b);
  }

  /** Two tokens spent for one action id. */
  function SpendTwice(baseline: Sample, one: TokenBody, two: TokenBody, a: Id): seq<Event> {
    [RunCreated("config"), RunArming, RunStarted(baseline), TokenIssued(one, SPAWN), TokenIssued(two, SPAWN),
     TokenSpent(one.tokenId, a), TokenSpent(two.tokenId, a)]
  }

  /** An action id dispatched twice: only the TypeScript checker accepts it. */
  lemma TsTakesRepeatedAction(baseline: Sample, one: TokenBody, two: TokenBody, a: Id)
    requires one.tokenId != two.tokenId
    ensures var b := Numbered(SpendTwice(baseline, one, two, a)); TsRun(TS_START, b).Some? && Run(START, b).None?
  {
    var all := SpendTwice(baseline, one, two, a);
    SpentTwiceTaken(baseline, one, two, a);
    TsAllRuns(all);
    SpentTwice(all, Numbered(all));
    hide SpendTwice, TsAll, TsRun, Run, DistinctSpends, TsStep, Step;
    PythonAgreesIff(Numbered(all));
  }

  lemma SpentTwice(all: seq<Event>, b: seq<Body>)
    requires |all| == |b| == 7 && b[5].event == all[5] && b[6].event == all[6]
    requires all[5].TokenSpent? && all[6].TokenSpent? && all[5].actionId == all[6].actionId
    ensures !DistinctSpends(b)
  {
  }

  lemma SpentTwiceTaken(baseline: Sample, one: TokenBody, two: TokenBody, a: Id)
    requires one.tokenId != two.tokenId
    ensures TsAll(SpendTwice(baseline, one, two, a)).Some?
  {
    var all := SpendTwice(baseline, one, two, a);
    BothIssued(baseline, one, two);
    var e5 := all[..5];
    var e6 := e5 + [TokenSpent(one.tokenId, a)];
    TsMore(e5, TokenSpent(one.tokenId, a));
    TsMore(e6, TokenSpent(two.tokenId, a));
    hide TsAll;
    assert e6 + [TokenSpent(two.tokenId, a)] == all;
  }

  lemma BothIssued(baseline: Sample, one: TokenBody, two: TokenBody)
    requires one.tokenId != two.tokenId
    ensures TsAll(SpendTwice(baseline, one, two, "")[..5])
         == Some(TsState(Some(RUNNING), START.(tokens := map[one.tokenId := ISSUED, two.tokenId := ISSUED]), {}))
    ensures forall a :: SpendTwice(baseline, one, two, a)[..5] == SpendTwice(baseline, one, two, "")[..5]
  {
    var e3 := [RunCreated("config"), RunArming, RunStarted(baseline)];
    StartedStream(baseline);
    var e4 := e3 + [TokenIssued(one, SPAWN)];
    TsMore(e3, TokenIssued(one, SPAWN));
    TsMore(e4, TokenIssued(two, SPAWN));
    hide TsAll;
    assert e4 + [TokenIssued(two, SPAWN)] == SpendTwice(baseline, one, two, "")[..5];
  }

  lemma StartedStream(baseline: Sample)
    ensures TsAll([RunCreated("config"), RunArming, RunStarted(baseline)]) == Some(TsState(Some(RUNNING), START, {}))
  {
    var e1 := [RunCreated("config")];
    var e2 := e1 + [RunArming];
    TsMore([], RunCreated("config"));
    TsMore(e1, RunArming);
    TsMore(e2, RunStarted(baseline));
    assert [] + e1 == e1 && e2 + [RunStarted(baseline)] == [RunCreated("config"), RunArming, RunStarted(baseline)];
  }
}
