/** The two offline checkers of an event stream's legality: the Python one and the TypeScript one. */
module Replay {
  import opened Types

  /** What a checker remembers while it walks the stream. */
  datatype State = State(phase: Phase, tokens: map<Id, TokenState>, actions: map<Id, ActionState>,
                         computes: map<Id, ComputeState>)

  const START := State(CREATED, map[], map[], map[])

  /** The phases in which an event may appear (`TRANSITIONS`). */
  function Sources(e: Event): set<Phase> {
    match e
    case RunCreated(_) => {}
    case RunArming => {CREATED}
    case RunRejected(_) => {CREATED, ARMING}
    case RunStarted(_) => {ARMING}
    case SampleRecorded(_) => {RUNNING, STOPPING, UNCONFIRMED}
    case ComputeReserved(_) => {RUNNING}
    case ComputeFinished(_) => {RUNNING}
    case TokenIssued(_, _) => {RUNNING}
    case TokenExpired(_) => {RUNNING}
    case TokenSpent(_, _) => {RUNNING}
    case ActionFinished(_) => {RUNNING, STOPPING, UNCONFIRMED}
    case ActionUnknown(_, _) => {RUNNING, STOPPING, UNCONFIRMED}
    case RequestDenied(_, _) => {CREATED, ARMING, RUNNING, STOPPING, UNCONFIRMED}
    case StopLatched(_) => {ARMING, RUNNING}
    case FaultObserved(_) => {STOPPING, UNCONFIRMED, FINALIZING}
    case KillIssued(_, _) => {STOPPING, UNCONFIRMED}
    case KillUnconfirmed(_) => {STOPPING}
    case ContainmentEmpty(_, _) => {STOPPING, UNCONFIRMED}
    case RunFinalized(_, _, _, _, _, _) => {FINALIZING}
  }

  /** The phase after an event (`POST_STATE`, and the state a RunFinalized names). */
  function Target(e: Event, p: Phase): Phase {
    match e
    case RunCreated(_) => CREATED
    case RunArming => ARMING
    case RunStarted(_) => RUNNING
    case RunRejected(_) => REJECTED
    case StopLatched(_) => STOPPING
    case KillUnconfirmed(_) => UNCONFIRMED
    case ContainmentEmpty(_, _) => FINALIZING
    case RunFinalized(q, _, _, _, _, _) => q
    case _ => p
  }

  predicate Is<K, V(==)>(m: map<K, V>, k: K, v: V) {
    k in m && m[k] == v
  }

  /** The life-cycle bookkeeping of tokens, actions and reservations. */
  function Books(s: State, e: Event): Option<State> {
    match e
    case TokenIssued(body, _) =>
      if body.tokenId in s.tokens then None else Some(s.(tokens := s.tokens[body.tokenId := ISSUED]))
    case TokenExpired(id) =>
      if !Is(s.tokens, id, ISSUED) then None else Some(s.(tokens := s.tokens[id := EXPIRED]))
    case TokenSpent(id, action) =>
      if !Is(s.tokens, id, ISSUED) || action in s.actions then None
      else Some(s.(tokens := s.tokens[id := SPENT], actions := s.actions[action := DISPATCHED]))
    case ActionFinished(a) =>
      if !Is(s.actions, a.actionId, DISPATCHED) then None
      else Some(s.(actions := s.actions[a.actionId := a.state]))
    case ActionUnknown(id, _) =>
      if !Is(s.actions, id, DISPATCHED) then None else Some(s.(actions := s.actions[id := UNKNOWN]))
    case ComputeReserved(r) =>
      if r.computeId in s.computes then None else Some(s.(computes := s.computes[r.computeId := CHARGED]))
    case ComputeFinished(r) =>
      if !Is(s.computes, r.computeId, CHARGED) then None
      else Some(s.(computes := s.computes[r.computeId := FINISHED]))
    case _ => Some(s)
  }

  function Enter(s: State, e: Event): Option<State> {
    match Books(s, e)
    case None => None
    case Some(t) => Some(t.(phase := Target(e, s.phase)))
  }

  /** An event that is not the first of its stream. */
  function Next(s: State, e: Event): Option<State> {
    if e.RunCreated? || s.phase !in Sources(e) then None else Enter(s, e)
  }

  /** One body: only the one numbered 1 may, and must, be RunCreated. */
  function Step(s: State, b: Body): Option<State> {
    if b.seqNo == 1 then (if b.event.RunCreated? then Enter(s, b.event) else None)
    else Next(s, b.event)
  }

  function Run(s: State, bodies: seq<Body>): Option<State> {
    if bodies == [] then Some(s)
    else match Run(s, bodies[..|bodies| - 1])
      case None => None
      case Some(t) => Step(t, bodies[|bodies| - 1])
  }

  function NextAll(s: State, events: seq<Event>): Option<State> {
    if events == [] then Some(s)
    else match NextAll(s, events[..|events| - 1])
      case None => None
      case Some(t) => Next(t, events[|events| - 1])
  }

  /** `replay_events`: one loop over the bodies that updates the phase and three dictionaries. */
  method ReplayEvents(bodies: seq<Body>) returns (r: Result<Phase, Code>)
    ensures Run(START, bodies) == None ==> r == Err(TRANSITION_INVALID)
    ensures Run(START, bodies).Some? ==> r == Ok(Run(START, bodies).value.phase)
  {
    var phase := CREATED;
    var tokens: map<Id, TokenState> := map[];
    var actions: map<Id, ActionState> := map[];
    var computes: map<Id, ComputeState> := map[];
    for i := 0 to |bodies|
      invariant Run(START, bodies[..i]) == Some(State(phase, tokens, actions, computes))
    {
      var e := bodies[i].event;
      RunStep(START, bodies, i);
      hide Run;
      var illegal;
      if bodies[i].seqNo == 1 {
        illegal := !e.RunCreated?;
      } else {
        illegal := e.RunCreated? || phase !in Sources(e);
      }
      match e {
        case TokenIssued(body, _) =>
          illegal := illegal || body.tokenId in tokens;
          tokens := tokens[body.tokenId := ISSUED];
        case TokenExpired(id) =>
          illegal := illegal || !Is(tokens, id, ISSUED);
          tokens := tokens[id := EXPIRED];
        case TokenSpent(id, action) =>
          illegal := illegal || !Is(tokens, id, ISSUED) || action in actions;
          tokens := tokens[id := SPENT];
          actions := actions[action := DISPATCHED];
        case ActionFinished(a) =>
          illegal := illegal || !Is(actions, a.actionId, DISPATCHED);
          actions := actions[a.actionId := a.state];
        case ActionUnknown(id, _) =>
          illegal := illegal || !Is(actions, id, DISPATCHED);
          actions := actions[id := UNKNOWN];
        case ComputeReserved(res) =>
          illegal := illegal || res.computeId in computes;
          computes := computes[res.computeId := CHARGED];
        case ComputeFinished(res) =>
          illegal := illegal || !Is(computes, res.computeId, CHARGED);
          computes := computes[res.computeId := FINISHED];
        case _ =>
      }
      if illegal {
        RejectedPrefix(START, bodies, i + 1);
        return Err(TRANSITION_INVALID);
      }
      phase := Target(e, phase);
    }
    assert bodies[..|bodies|] == bodies;
    return Ok(phase);
  }

  // ---- the TypeScript checker ----

  /** `phase` is None before the first event that names a phase; `denied` are the request ids seen. */
  datatype TsState = TsState(phase: Option<Phase>, books: State, denied: set<Id>)

  const TS_START := TsState(None, START, {})

  /** Where the TypeScript table differs: FaultObserved may also appear before the stop. */
  function TsSources(e: Event): set<Phase> {
    if e.FaultObserved? then {ARMING, RUNNING, STOPPING, UNCONFIRMED, FINALIZING} else Sources(e)
  }

  /** TypeScript overwrites a repeated action id where Python refuses it. */
  function TsBooks(s: State, e: Event): Option<State> {
    match e
    case TokenSpent(id, action) =>
      if !Is(s.tokens, id, ISSUED) then None
      else Some(s.(tokens := s.tokens[id := SPENT], actions := s.actions[action := DISPATCHED]))
    case _ => Books(s, e)
  }

  predicate NamesPhase(e: Event) {
    || e.RunCreated? || e.RunArming? || e.RunStarted? || e.RunRejected? || e.StopLatched?
    || e.KillUnconfirmed? || e.ContainmentEmpty? || e.RunFinalized?
  }

  function TsStep(s: TsState, e: Event): Option<TsState> {
    if s.phase.Some? && s.phase.value !in TsSources(e) then None
    else match TsBooks(s.books, e)
      case None => None
      case Some(books) =>
        if e.RequestDenied? && e.requestId in s.denied then None
        else Some(TsState(if NamesPhase(e) then Some(Target(e, CREATED)) else s.phase, books,
                          if e.RequestDenied? then s.denied + {e.requestId} else s.denied))
  }

  function TsRun(s: TsState, bodies: seq<Body>): Option<TsState> {
    if bodies == [] then Some(s)
    else match TsRun(s, bodies[..|bodies| - 1])
      case None => None
      case Some(t) => TsStep(t, bodies[|bodies| - 1].event)
  }

  function TsPhase(s: TsState): Phase {
    if s.phase.Some? then s.phase.value else CREATED
  }

  /** `replayEvents`: the second implementation, with three maps and the set of denied requests. */
  method TsReplayEvents(bodies: seq<Body>) returns (r: Result<Phase, Code>)
    ensures TsRun(TS_START, bodies) == None ==> r == Err(TRANSITION_INVALID)
    ensures TsRun(TS_START, bodies).Some? ==> r == Ok(TsPhase(TsRun(TS_START, bodies).value))
  {
    var phase: Option<Phase> := None;
    var tokens: map<Id, TokenState> := map[];
    var actions: map<Id, ActionState> := map[];
    var computes: map<Id, ComputeState> := map[];
    var seenRequests: set<Id> := {};
    for i := 0 to |bodies|
      invariant TsRun(TS_START, bodies[..i])
             == Some(TsState(phase, State(CREATED, tokens, actions, computes), seenRequests))
    {
      var e := bodies[i].event;
      TsRunStep(TS_START, bodies, i);
      hide TsRun;
      ghost var was := TsState(phase, State(CREATED, tokens, actions, computes), seenRequests);
      var illegal := phase.Some? && phase.value !in TsSources(e);
      match e {
        case TokenIssued(body, _) =>
          illegal := illegal || body.tokenId in tokens;
          tokens := tokens[body.tokenId := ISSUED];
        case TokenExpired(id) =>
          illegal := illegal || !Is(tokens, id, ISSUED);
          tokens := tokens[id := EXPIRED];
        case TokenSpent(id, action) =>
          illegal := illegal || !Is(tokens, id, ISSUED);
          tokens := tokens[id := SPENT];
          actions := actions[action := DISPATCHED];
        case ActionFinished(a) =>
          illegal := illegal || !Is(actions, a.actionId, DISPATCHED);
          actions := actions[a.actionId := a.state];
        case ActionUnknown(id, _) =>
          illegal := illegal || !Is(actions, id, DISPATCHED);
          actions := actions[id := UNKNOWN];
        case ComputeReserved(res) =>
          illegal := illegal || res.computeId in computes;
          computes := computes[res.computeId := CHARGED];
        case ComputeFinished(res) =>
          illegal := illegal || !Is(computes, res.computeId, CHARGED);
          computes := computes[res.computeId := FINISHED];
        case RequestDenied(req, _) =>
          illegal := illegal || req in seenRequests;
          seenRequests := seenRequests + {req};
        case _ =>
      }
      assert TsStep(was, e)
          == if illegal then None
             else Some(TsState(if NamesPhase(e) then Some(Target(e, CREATED)) else phase,
                               State(CREATED, tokens, actions, computes), seenRequests));
      hide TsStep, Target, NamesPhase;
      if illegal {
        TsRejectedPrefix(TS_START, bodies, i + 1);
        return Err(TRANSITION_INVALID);
      }
      if NamesPhase(e) {
        phase := Some(Target(e, CREATED));
      }
    }
    assert bodies[..|bodies|] == bodies;
    return Ok(if phase.Some? then phase.value else CREATED);
  }

  // ---- streams and their prefixes ----

  /** Every prefix of an accepted stream is accepted. */
  lemma {:induction false} RejectedPrefix(s: State, bodies: seq<Body>, n: nat)
    requires n <= |bodies|
    ensures Run(s, bodies).Some? ==> Run(s, bodies[..n]).Some?
  {
    if n < |bodies| {
      RejectedPrefix(s, bodies[..|bodies| - 1], n);
      assert bodies[..|bodies| - 1][..n] == bodies[..n];
    } else {
      assert bodies[..n] == bodies;
    }
  }

  lemma {:induction false} TsRejectedPrefix(s: TsState, bodies: seq<Body>, n: nat)
    requires n <= |bodies|
    ensures TsRun(s, bodies).Some? ==> TsRun(s, bodies[..n]).Some?
  {
    if n < |bodies| {
      TsRejectedPrefix(s, bodies[..|bodies| - 1], n);
      assert bodies[..|bodies| - 1][..n] == bodies[..n];
    } else {
      assert bodies[..n] == bodies;
    }
  }

  lemma RunStep(s: State, bodies: seq<Body>, i: nat)
    requires i < |bodies| && Run(s, bodies[..i]).Some?
    ensures Run(s, bodies[..i + 1]) == Step(Run(s, bodies[..i]).value, bodies[i])
  {
    assert bodies[..i + 1][..i] == bodies[..i];
  }

  lemma TsRunStep(s: TsState, bodies: seq<Body>, i: nat)
    requires i < |bodies| && TsRun(s, bodies[..i]).Some?
    ensures TsRun(s, bodies[..i + 1]) == TsStep(TsRun(s, bodies[..i]).value, bodies[i].event)
  {
    assert bodies[..i + 1][..i] == bodies[..i];
  }

  function Events(bodies: seq<Body>): (es: seq<Event>)
    ensures |es| == |bodies|
    ensures forall i :: 0 <= i < |bodies| ==> es[i] == bodies[i].event
  {
    seq(|bodies|, i requires 0 <= i < |bodies| => bodies[i].event)
  }

  /** Appending bodies numbered from 2 on is the same as entering their events one by one. */
  lemma {:induction false} RunAppend(s: State, a: seq<Body>, b: seq<Body>)
    requires forall i :: 0 <= i < |b| ==> b[i].seqNo != 1
    ensures Run(s, a + b) == (match Run(s, a) case None => None case Some(t) => NextAll(t, Events(b)))
  {
    if b == [] {
      assert a + b == a;
    } else {
      var b' := b[..|b| - 1];
      RunAppend(s, a, b');
      assert (a + b)[..|a + b| - 1] == a + b';
      assert Events(b)[..|b| - 1] == Events(b');
    }
  }

  lemma {:induction false} NextAllAppend(s: State, a: seq<Event>, b: seq<Event>)
    ensures NextAll(s, a + b) == (match NextAll(s, a) case None => None case Some(t) => NextAll(t, b))
  {
    if b == [] {
      assert a + b == a;
    } else {
      NextAllAppend(s, a, b[..|b| - 1]);
      assert (a + b)[..|a + b| - 1] == a + b[..|b| - 1];
    }
  }
}
