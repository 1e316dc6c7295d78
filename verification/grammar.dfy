/** The legal event streams, described without a checker: what must and must not have come before each event. The
    replay checker accepts exactly these. */
module Grammar {
  import opened Types
  import opened Replay
  import opened Streams

  // ---- what came before ----

  /** The events that mark how far a run has come. */
  datatype Mark = ARM | REJECTION | START_OF_RUN | STOP | OVERDUE | EMPTY | END

  function MarkOf(e: Event): Option<Mark> {
    match e
    case RunArming => Some(ARM)
    case RunRejected(_) => Some(REJECTION)
    case RunStarted(_) => Some(START_OF_RUN)
    case StopLatched(_) => Some(STOP)
    case KillUnconfirmed(_) => Some(OVERDUE)
    case ContainmentEmpty(_, _) => Some(EMPTY)
    case RunFinalized(_, _, _, _, _, _) => Some(END)
    case _ => None
  }

  ghost predicate Seen(bodies: seq<Body>, n: nat, m: Mark)
    requires n <= |bodies|
  {
    exists k :: 0 <= k < n && MarkOf(bodies[k].event) == Some(m)
  }

  ghost predicate Issued(bodies: seq<Body>, n: nat, id: Id)
    requires n <= |bodies|
  {
    exists k :: 0 <= k < n && bodies[k].event.TokenIssued? && bodies[k].event.body.tokenId == id
  }

  ghost predicate Spent(bodies: seq<Body>, n: nat, id: Id)
    requires n <= |bodies|
  {
    exists k :: 0 <= k < n && bodies[k].event.TokenSpent? && bodies[k].event.tokenId == id
  }

  ghost predicate Expired(bodies: seq<Body>, n: nat, id: Id)
    requires n <= |bodies|
  {
    exists k :: 0 <= k < n && bodies[k].event.TokenExpired? && bodies[k].event.tokenId == id
  }

  ghost predicate Dispatched(bodies: seq<Body>, n: nat, id: Id)
    requires n <= |bodies|
  {
    exists k :: 0 <= k < n && bodies[k].event.TokenSpent? && bodies[k].event.actionId == id
  }

  ghost predicate Resolved(bodies: seq<Body>, n: nat, id: Id)
    requires n <= |bodies|
  {
    exists k :: 0 <= k < n && ResolvesAction(bodies[k].event, id)
  }

  ghost predicate Reserved(bodies: seq<Body>, n: nat, id: Id)
    requires n <= |bodies|
  {
    exists k :: 0 <= k < n && bodies[k].event.ComputeReserved? && bodies[k].event.reservation.computeId == id
  }

  ghost predicate Finished(bodies: seq<Body>, n: nat, id: Id)
    requires n <= |bodies|
  {
    exists k :: 0 <= k < n && bodies[k].event.ComputeFinished? && bodies[k].event.reservation.computeId == id
  }

  // ---- the grammar ----

  /** Event `n` may come where it does. */
  ghost predicate Lawful(bodies: seq<Body>, n: nat)
    requires n < |bodies|
  {
    var e := bodies[n].event;
    var running := Seen(bodies, n, START_OF_RUN) && !Seen(bodies, n, STOP);
    var contained := (Seen(bodies, n, START_OF_RUN) || Seen(bodies, n, STOP)) && !Seen(bodies, n, EMPTY);
    var stopping := Seen(bodies, n, STOP) && !Seen(bodies, n, EMPTY);
    && (e.RunCreated? <==> n == 0)
    && match e
       case RunCreated(_) => true
       case RunArming => !Seen(bodies, n, ARM) && !Seen(bodies, n, REJECTION)
       case RunRejected(_) => !Seen(bodies, n, REJECTION) && !Seen(bodies, n, START_OF_RUN) && !Seen(bodies, n, STOP)
       case RunStarted(_) =>
         && Seen(bodies, n, ARM) && !Seen(bodies, n, START_OF_RUN) && !Seen(bodies, n, STOP)
         && !Seen(bodies, n, REJECTION)
       case SampleRecorded(_) => contained
       case ComputeReserved(r) => running && !Reserved(bodies, n, r.computeId)
       case ComputeFinished(r) => running && Reserved(bodies, n, r.computeId) && !Finished(bodies, n, r.computeId)
       case TokenIssued(body, _) => running && !Issued(bodies, n, body.tokenId)
       case TokenExpired(id) => running && Issued(bodies, n, id) && !Expired(bodies, n, id) && !Spent(bodies, n, id)
       case TokenSpent(id, action) =>
         && running && Issued(bodies, n, id) && !Expired(bodies, n, id) && !Spent(bodies, n, id)
         && !Dispatched(bodies, n, action)
       case ActionFinished(a) => contained && Dispatched(bodies, n, a.actionId) && !Resolved(bodies, n, a.actionId)
       case ActionUnknown(id, _) => contained && Dispatched(bodies, n, id) && !Resolved(bodies, n, id)
       case RequestDenied(_, _) => !Seen(bodies, n, REJECTION) && !Seen(bodies, n, EMPTY)
       case StopLatched(_) => Seen(bodies, n, ARM) && !Seen(bodies, n, REJECTION) && !Seen(bodies, n, STOP)
       case FaultObserved(_) => Seen(bodies, n, STOP) && !Seen(bodies, n, END)
       case KillIssued(_, _) => stopping
       case KillUnconfirmed(_) => stopping && !Seen(bodies, n, OVERDUE)
       case ContainmentEmpty(_, _) => stopping
       case RunFinalized(_, _, _, _, _, _) => Seen(bodies, n, EMPTY) && !Seen(bodies, n, END)
  }

  ghost predicate AllLawful(bodies: seq<Body>, n: nat)
    requires n <= |bodies|
  {
    forall k :: 0 <= k < n ==> Lawful(bodies, k)
  }

  // ---- the checker's state tells what came before ----

  /** The marks that have been seen. */
  datatype Marks = Marks(arm: bool, rejection: bool, start: bool, stop: bool, overdue: bool, empty: bool, end: bool)

  ghost function MarksBefore(bodies: seq<Body>, n: nat): Marks
    requires n <= |bodies|
  {
    Marks(Seen(bodies, n, ARM), Seen(bodies, n, REJECTION), Seen(bodies, n, START_OF_RUN), Seen(bodies, n, STOP),
          Seen(bodies, n, OVERDUE), Seen(bodies, n, EMPTY), Seen(bodies, n, END))
  }

  ghost predicate PhaseTells(p: Phase, m: Marks) {
    && (p == REJECTED <==> m.rejection)
    && (p in {COMPLETED, KILLED, FAILED} <==> m.end)
    && (p == FINALIZING <==> m.empty && !m.end)
    && (p == UNCONFIRMED <==> m.overdue && !m.empty)
    && (p == STOPPING <==> m.stop && !m.overdue && !m.empty)
    && (p == RUNNING <==> m.start && !m.stop)
    && (p == ARMING <==> m.arm && !m.start && !m.stop && !m.rejection)
    && (p == CREATED <==> !m.arm && !m.rejection)
    && (m.start || m.stop ==> m.arm && !m.rejection)
    && (m.overdue || m.empty ==> m.stop) && (m.end ==> m.empty)
  }

  ghost predicate TokenTells(s: State, bodies: seq<Body>, n: nat, id: Id)
    requires n <= |bodies|
  {
    && (id in s.tokens <==> Issued(bodies, n, id))
    && (Is(s.tokens, id, ISSUED) <==> Issued(bodies, n, id) && !Spent(bodies, n, id) && !Expired(bodies, n, id))
    && (Spent(bodies, n, id) || Expired(bodies, n, id) ==> Issued(bodies, n, id))
  }

  ghost predicate ActionTells(s: State, bodies: seq<Body>, n: nat, id: Id)
    requires n <= |bodies|
  {
    && (id in s.actions <==> Dispatched(bodies, n, id))
    && (Is(s.actions, id, DISPATCHED) <==> Dispatched(bodies, n, id) && !Resolved(bodies, n, id))
    && (Resolved(bodies, n, id) ==> Dispatched(bodies, n, id))
  }

  ghost predicate ComputeTells(s: State, bodies: seq<Body>, n: nat, id: Id)
    requires n <= |bodies|
  {
    && (id in s.computes <==> Reserved(bodies, n, id))
    && (Is(s.computes, id, CHARGED) <==> Reserved(bodies, n, id) && !Finished(bodies, n, id))
    && (Finished(bodies, n, id) ==> Reserved(bodies, n, id))
  }

  ghost predicate Tells(s: State, bodies: seq<Body>, n: nat)
    requires n <= |bodies|
  {
    && PhaseTells(s.phase, MarksBefore(bodies, n))
    && forall id :: RecordsTell(s, bodies, n, id)
  }

  ghost predicate RecordsTell(s: State, bodies: seq<Body>, n: nat, id: Id)
    requires n <= |bodies|
  {
    TokenTells(s, bodies, n, id) && ActionTells(s, bodies, n, id) && ComputeTells(s, bodies, n, id)
  }

  // ---- one more event ----

  lemma SeenOn(bodies: seq<Body>, n: nat)
    requires n < |bodies|
    ensures forall m :: Seen(bodies, n + 1, m) <==> Seen(bodies, n, m) || MarkOf(bodies[n].event) == Some(m)
  {
    hide MarkOf;
  }

  lemma IssuedOn(bodies: seq<Body>, n: nat, id: Id)
    requires n < |bodies|
    ensures var e := bodies[n].event;
            Issued(bodies, n + 1, id) <==> Issued(bodies, n, id) || (e.TokenIssued? && e.body.tokenId == id)
  {
  }

  lemma SpentOn(bodies: seq<Body>, n: nat, id: Id)
    requires n < |bodies|
    ensures var e := bodies[n].event;
            Spent(bodies, n + 1, id) <==> Spent(bodies, n, id) || (e.TokenSpent? && e.tokenId == id)
  {
  }

  lemma ExpiredOn(bodies: seq<Body>, n: nat, id: Id)
    requires n < |bodies|
    ensures var e := bodies[n].event;
            Expired(bodies, n + 1, id) <==> Expired(bodies, n, id) || (e.TokenExpired? && e.tokenId == id)
  {
  }

  lemma DispatchedOn(bodies: seq<Body>, n: nat, id: Id)
    requires n < |bodies|
    ensures var e := bodies[n].event;
            Dispatched(bodies, n + 1, id) <==> Dispatched(bodies, n, id) || (e.TokenSpent? && e.actionId == id)
  {
  }

  lemma ResolvedOn(bodies: seq<Body>, n: nat, id: Id)
    requires n < |bodies|
    ensures var e := bodies[n].event;
            Resolved(bodies, n + 1, id) <==> Resolved(bodies, n, id) || (ResolvesAction(e, id))
  {
  }

  lemma ReservedOn(bodies: seq<Body>, n: nat, id: Id)
    requires n < |bodies|
    ensures var e := bodies[n].event;
            Reserved(bodies, n + 1, id)
            <==> Reserved(bodies, n, id) || (e.ComputeReserved? && e.reservation.computeId == id)
  {
  }

  lemma FinishedOn(bodies: seq<Body>, n: nat, id: Id)
    requires n < |bodies|
    ensures var e := bodies[n].event;
            Finished(bodies, n + 1, id)
            <==> Finished(bodies, n, id) || (e.ComputeFinished? && e.reservation.computeId == id)
  {
  }

  /** The checker takes an event exactly if it is lawful. */
  lemma StepIff(bodies: seq<Body>, n: nat, s: State)
    requires n < |bodies| && bodies[n].seqNo == n + 1 && Tells(s, bodies, n)
    requires n == 0 ==> s == START
    ensures Step(s, bodies[n]).Some? <==> Lawful(bodies, n)
  {
    var e := bodies[n].event;
    var token := if e.TokenIssued? then e.body.tokenId else if e.TokenExpired? || e.TokenSpent? then e.tokenId else "";
    var action := if e.TokenSpent? || e.ActionUnknown? then e.actionId
                  else if e.ActionFinished? then e.action.actionId else "";
    var compute := if e.ComputeReserved? || e.ComputeFinished? then e.reservation.computeId else "";
    assert RecordsTell(s, bodies, n, token) && RecordsTell(s, bodies, n, action) && RecordsTell(s, bodies, n, compute);
    hide Seen, Issued, Spent, Expired, Dispatched, Resolved, Reserved, Finished, Tells, Is;
    assert PhaseTells(s.phase, MarksBefore(bodies, n));
  }

  lemma PhaseOn(bodies: seq<Body>, n: nat, s: State)
    requires n < |bodies| && bodies[n].seqNo == n + 1 && PhaseTells(s.phase, MarksBefore(bodies, n))
    requires WellTyped(bodies[n].event) && Step(s, bodies[n]).Some? && (n == 0 ==> s == START)
    ensures PhaseTells(Step(s, bodies[n]).value.phase, MarksBefore(bodies, n + 1))
  {
    SeenOn(bodies, n);
    hide Seen, Books;
  }

  lemma TokenTellsOn(bodies: seq<Body>, n: nat, s: State, id: Id)
    requires n < |bodies| && TokenTells(s, bodies, n, id) && Step(s, bodies[n]).Some?
    ensures TokenTells(Step(s, bodies[n]).value, bodies, n + 1, id)
  {
    IssuedOn(bodies, n, id);
    SpentOn(bodies, n, id);
    ExpiredOn(bodies, n, id);
    hide Issued, Spent, Expired, Sources, Target;
  }

  lemma ActionTellsOn(bodies: seq<Body>, n: nat, s: State, id: Id)
    requires n < |bodies| && ActionTells(s, bodies, n, id) && WellTyped(bodies[n].event) && Step(s, bodies[n]).Some?
    ensures ActionTells(Step(s, bodies[n]).value, bodies, n + 1, id)
  {
    DispatchedOn(bodies, n, id);
    ResolvedOn(bodies, n, id);
    hide Dispatched, Resolved, Sources, Target;
  }

  lemma ComputeTellsOn(bodies: seq<Body>, n: nat, s: State, id: Id)
    requires n < |bodies| && ComputeTells(s, bodies, n, id) && Step(s, bodies[n]).Some?
    ensures ComputeTells(Step(s, bodies[n]).value, bodies, n + 1, id)
  {
    ReservedOn(bodies, n, id);
    FinishedOn(bodies, n, id);
    hide Reserved, Finished, Sources, Target;
  }

  lemma StartTells(bodies: seq<Body>)
    ensures Tells(START, bodies, 0)
  {
  }

  lemma {:induction false} RunIff(bodies: seq<Body>, n: nat)
    requires n <= |bodies| && Consecutive(bodies) && SchemaTyped(bodies)
    ensures Run(START, bodies[..n]).Some? <==> AllLawful(bodies, n)
    ensures Run(START, bodies[..n]).Some? ==> Tells(Run(START, bodies[..n]).value, bodies, n)
  {
    hide Lawful, Step, Tells;
    if n == 0 {
      StartTells(bodies);
    } else {
      RunIff(bodies, n - 1);
      assert bodies[..n][..n - 1] == bodies[..n - 1];
      if Run(START, bodies[..n - 1]).Some? {
        var s := Run(START, bodies[..n - 1]).value;
        assert n == 1 ==> s == START;
        StepIff(bodies, n - 1, s);
        if Step(s, bodies[n - 1]).Some? {
          StepTells(bodies, n - 1, s);
        }
      }
    }
  }

  lemma StepTells(bodies: seq<Body>, n: nat, s: State)
    requires n < |bodies| && bodies[n].seqNo == n + 1 && Tells(s, bodies, n) && WellTyped(bodies[n].event)
    requires n == 0 ==> s == START
    requires Step(s, bodies[n]).Some?
    ensures Tells(Step(s, bodies[n]).value, bodies, n + 1)
  {
    hide Step, PhaseTells, TokenTells, ActionTells, ComputeTells, MarksBefore;
    PhaseOn(bodies, n, s);
    var t := Step(s, bodies[n]).value;
    var later := n + 1;
    forall id ensures RecordsTell(t, bodies, later, id) {
      assert RecordsTell(s, bodies, n, id);
      TokenTellsOn(bodies, n, s, id);
      ActionTellsOn(bodies, n, s, id);
      ComputeTellsOn(bodies, n, s, id);
    }
  }

  /** The replay checker accepts exactly the lawful streams: on every stream with consecutive numbers and payloads of
      the schema's value sets, it follows if and only if every event may come where it does. */
  lemma CheckerIff(bodies: seq<Body>)
    requires Consecutive(bodies) && SchemaTyped(bodies)
    ensures Accepted(bodies) <==> AllLawful(bodies, |bodies|)
  {
    RunIff(bodies, |bodies|);
    assert bodies[..|bodies|] == bodies;
    hide Run, AllLawful;
  }
}
