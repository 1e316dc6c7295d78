/** Promises of the repository that its code does not keep, each with the runs that show it. */
module Findings {
  import opened Types
  import opened Dicts
  import opened Ledger
  import opened Simulation
  import opened Audit
  import opened Streams
  import opened Checkers
  import opened Supervisor
  import opened Runs
  import opened Theorems
  import opened Requests
  import opened Steps
  import opened Receipts
  import opened Metering
  import opened Energy
  import opened Recalls
  import Replay

  /** The host's part in a run that takes no time: configuration hash, baseline sample, and the event ids drawn. */
  datatype Origin = Origin(hash: Hash, baseline: Sample, id: nat -> Id)
  {
    function Nth(n: nat): Stamp { Stamp(id(n), 0) }

    /** No id is drawn twice. */
    ghost predicate Distinct() { forall m, n :: m != n ==> id(m) != id(n) }
  }

  /** Event number n has the n-th id drawn. */
  ghost predicate Numbered(o: Origin, j: seq<Entry>) {
    forall i :: 0 <= i < |j| ==> j[i].body.eventId == o.id(i + 1)
  }

  /** The journal has one more entry, for the event `e`, under the next id. */
  ghost predicate OneMore(o: Origin, j: seq<Entry>, j': seq<Entry>, e: Event) {
    |j'| == |j| + 1 && j'[..|j|] == j && j'[|j|].body.event == e && Numbered(o, j')
  }

  lemma NextIsFresh(o: Origin, j: seq<Entry>)
    requires o.Distinct() && Numbered(o, j)
    ensures Stamped(j, 0, [o.Nth(|j| + 1)], 0)
  {
    assert forall k :: 0 <= k < |j| ==> j[k].body.eventId != o.id(|j| + 1);
  }

  /** Adding one entry to the journal. */
  lemma OneEntry(su: Setup, o: Origin, j: seq<Entry>, e: Event)
    requires Numbered(o, j)
    ensures OneMore(o, j, Append(su.Signer(), j, [e], [o.Nth(|j| + 1)]), e)
  {
    var stamp := o.Nth(|j| + 1);
    AppendSingle(su.Signer(), j, e, stamp);
    hide Append, HeadOf, Origin.Distinct;
    var r := Append(su.Signer(), j, [e], [stamp]);
    forall i | 0 <= i < |r| ensures r[i].body.eventId == o.id(i + 1) {
      if i < |j| { assert r[i] == j[i]; }
    }
  }

  lemma AppendSingle(s: Signer, j: seq<Entry>, e: Event, stamp: Stamp)
    ensures Append(s, j, [e], [stamp]) == j + [MakeEntry(s, HeadOf(j).0 + 1, HeadOf(j).1, e, stamp)]
  {
    var none: seq<Event>, no: seq<Stamp> := [], [];
    assert none + [e] == [e] && no + [stamp] == [stamp];
    assert Append(s, j, none, no) == j;
    hide Append, HeadOf, MakeEntry;
    AppendLast(s, j, none, no, e, stamp);
  }

  const ARMED := INITIAL.(phase := ARMING)
  const STARTED := INITIAL.(phase := RUNNING)

  /** The operation emits one event, and leaves the ledger as `core`. */
  ghost predicate Emits(su: Setup, c: Core, op: Op, core: Core, e: Event) {
    && Internal(op) && !op.Kill? && Enabled(c, op) && c.charged <= U_MAX
    && Apply(su.cfg, c, op).core == core && Apply(su.cfg, c, op).out.events == [e]
  }

  /** One of the supervisor's own operations at time 0. */
  lemma QuietStep(su: Setup, o: Origin, r: Run, op: Op, core: Core, e: Event)
    requires o.Distinct() && Numbered(o, r.journal) && r.clock == 0
    requires Emits(su, r.core, op, core, e) && (op.Create? <==> r.journal == [])
    ensures var st := Exec(op, [o.Nth(|r.journal| + 1)], 0);
            && Legal(su, r, st)
            && var r' := NextRun(su, r, st);
            && r' == r.(core := if e.StopLatched? then core.(stopLatchedUs := Some(0)) else core, journal := r'.journal)
            && OneMore(o, r.journal, r'.journal, e)
  {
    NextIsFresh(o, r.journal);
    OneEntry(su, o, r.journal, e);
    LatchesOne(e);
    hide Apply, Enabled, Internal, Append, Latches, Legal, NextRun, Stamped, OneMore, Numbered;
    ExecIsLegal(su, r, op, [o.Nth(|r.journal| + 1)], 0);
  }

  lemma LatchesOne(e: Event)
    ensures Latches([e]) <==> e.StopLatched?
  {
    assert [e][0] == e;
  }

  function Created(o: Origin): seq<Move> {
    [Exec(Create(o.hash), [o.Nth(1)], 0)]
  }

  function Armed(o: Origin): seq<Move> {
    Created(o) + [Exec(Arm, [o.Nth(2)], 0)]
  }

  function Opening(o: Origin): seq<Move> {
    Armed(o) + [Exec(Start(o.baseline), [o.Nth(3)], 0)]
  }

  /** A run in which nothing has happened yet but `n` events. */
  ghost predicate Untouched(o: Origin, r: Run, core: Core, n: nat) {
    r == FRESH.(core := core, journal := r.journal) && |r.journal| == n && Numbered(o, r.journal)
  }

  lemma UntouchedStep(su: Setup, o: Origin, steps: seq<Move>, n: nat, op: Op, core: Core, core': Core, e: Event)
    requires o.Distinct() && History(su, steps) && Untouched(o, Supervisor.After(su, steps), core, n)
    requires Emits(su, core, op, core', e) && !e.StopLatched? && (op.Create? <==> n == 0)
    ensures var steps' := steps + [Exec(op, [o.Nth(n + 1)], 0)];
            History(su, steps') && Untouched(o, Supervisor.After(su, steps'), core', n + 1)
  {
    hide History, Supervisor.After, Emits, Legal, NextRun, Numbered;
    QuietStep(su, o, Supervisor.After(su, steps), op, core', e);
    Extend(su, steps, Exec(op, [o.Nth(n + 1)], 0));
  }

  lemma Opened(su: Setup, o: Origin)
    requires o.Distinct()
    ensures History(su, Opening(o)) && Untouched(o, Supervisor.After(su, Opening(o)), STARTED, 3)
  {
    OpeningEmits(su, o);
    StartsFresh(su, o);
    assert [] + Created(o) == Created(o);
    assert Created(o) + [Exec(Arm, [o.Nth(2)], 0)] == Armed(o);
    assert Armed(o) + [Exec(Start(o.baseline), [o.Nth(3)], 0)] == Opening(o);
    hide *;
    UntouchedStep(su, o, [], 0, Create(o.hash), INITIAL, INITIAL, RunCreated(o.hash));
    UntouchedStep(su, o, Created(o), 1, Arm, INITIAL, ARMED, RunArming);
    UntouchedStep(su, o, Armed(o), 2, Start(o.baseline), ARMED, STARTED, RunStarted(o.baseline));
  }

  lemma OpeningEmits(su: Setup, o: Origin)
    ensures Emits(su, INITIAL, Create(o.hash), INITIAL, RunCreated(o.hash))
    ensures Emits(su, INITIAL, Arm, ARMED, RunArming)
    ensures Emits(su, ARMED, Start(o.baseline), STARTED, RunStarted(o.baseline))
  {
  }

  lemma StartsFresh(su: Setup, o: Origin)
    ensures History(su, []) && Untouched(o, Supervisor.After(su, []), INITIAL, 0)
  {
  }

  // ---- requests that are denied ----

  /** The owner asks for the run's status with a field too many. */
  function OwnerAsks(id: Id, params: string, stamp: Stamp): Move {
    Serve(Key("owner", id), Malformed(RUN_GET, UNKNOWN_FIELD, params), None, Inputs(0, None), [stamp], 0)
  }

  /** A workload channel asks for an action it never dispatched. */
  function ChannelAsks(channel: Id, id: Id, actionId: Id, stamp: Stamp): Move {
    Serve(Key("ch:" + channel, id), ActionGet(actionId), Some(channel), Inputs(0, None), [stamp], 0)
  }

  /** One of these two requests, under the given stamp. */
  predicate IsAsk(st: Move, stamp: Stamp) {
    st.Serve? && match st.request
                 case Malformed(_, _, params) => st == OwnerAsks(st.key.id, params, stamp)
                 case ActionGet(id) => st.channel.Some? && st == ChannelAsks(st.channel.value, st.key.id, id, stamp)
                 case _ => false
  }

  function AskCode(st: Move): Code
    requires st.Serve?
  {
    if st.request.Malformed? then UNKNOWN_FIELD else NOT_FOUND
  }

  /** A run that was only asked such things since it started. */
  ghost predicate OnlyAsked(o: Origin, r: Run) {
    && r == FRESH.(core := STARTED, journal := r.journal, requests := r.requests) && r.journal != []
    && Numbered(o, r.journal)
  }

  /** A new request of this kind, under the next event id. */
  ghost predicate AsksNext(o: Origin, r: Run, st: Move) {
    OnlyAsked(o, r) && IsAsk(st, o.Nth(|r.journal| + 1)) && st.key !in r.requests
  }

  /** Each is a legal request, and the run goes on with one more denial in its journal. */
  lemma DeniedStep(su: Setup, o: Origin, r: Run, st: Move)
    requires o.Distinct() && AsksNext(o, r, st)
    ensures Legal(su, r, st)
    ensures var r' := NextRun(su, r, st);
            && OnlyAsked(o, r') && r'.requests.Keys == r.requests.Keys + {st.key}
            && OneMore(o, r.journal, r'.journal, RequestDenied(st.key.id, AskCode(st)))
  {
    var e := RequestDenied(st.key.id, AskCode(st));
    AskFacts(o, r, st);
    NextIsFresh(o, r.journal);
    OneEntry(su, o, r.journal, e);
    DeniedServed(su, o, r, st);
    LatchesOne(e);
    hide Legal, NextRun, Append, Latches, AskCode, AsksNext, Stamped, Numbered, IsAsk;
  }

  lemma DeniedServed(su: Setup, o: Origin, r: Run, st: Move)
    requires AsksNext(o, r, st) && o.Distinct()
    ensures Legal(su, r, st) && |st.stamps| == 1
    ensures NextRun(su, r, st)
         == ServedRun(su, r, st, STARTED, [RequestDenied(st.key.id, AskCode(st))], Reply(None, Some(AskCode(st))))
  {
    AskFacts(o, r, st);
    IsDenied(su, o, r, st);
    NextIsFresh(o, r.journal);
    hide Legal, NextRun, ReplyTo, RequestOp, AsksNext, Stamped, Numbered, DispatchedAs, SurfaceAllows, Raises,
         ServedRun, IsAsk;
    ServedIsLegal(su, r, st, STARTED, [RequestDenied(st.key.id, AskCode(st))], Reply(None, Some(AskCode(st))));
  }

  lemma AskOn(su: Setup, o: Origin, steps: seq<Move>, st: Move)
    requires o.Distinct() && History(su, steps) && AsksNext(o, Supervisor.After(su, steps), st)
    ensures History(su, steps + [st])
    ensures var r, r' := Supervisor.After(su, steps), Supervisor.After(su, steps + [st]);
            && OnlyAsked(o, r') && r'.requests.Keys == r.requests.Keys + {st.key}
            && OneMore(o, r.journal, r'.journal, RequestDenied(st.key.id, AskCode(st)))
  {
    hide *;
    DeniedStep(su, o, Supervisor.After(su, steps), st);
    Extend(su, steps, st);
  }

  /** What the two requests have in common. */
  lemma AskFacts(o: Origin, r: Run, st: Move)
    requires AsksNext(o, r, st)
    ensures OnlyAsked(o, r) && st.Serve? && st.at == 0 && st.stamps == [o.Nth(|r.journal| + 1)]
    ensures SurfaceAllows(st.request, st.channel) && st.key !in r.requests
  {
  }

  /** Each is refused by one operation that denies it. */
  lemma IsDenied(su: Setup, o: Origin, r: Run, st: Move)
    requires AsksNext(o, r, st)
    ensures var op := RequestOp(su, r.core, st.request, ChannelOf(st.channel), st.key.id, st.inputs);
            DispatchedAs(su, r.core, op, STARTED, [RequestDenied(st.key.id, AskCode(st))])
    ensures ReplyTo(su, r.core, st.request, ChannelOf(st.channel), st.key.id, st.inputs)
         == Reply(None, Some(AskCode(st)))
    ensures !Raises(r.core.phase, st.request)
  {
    hide Numbered;
  }

  // ---- the export limit ----

  ghost predicate DistinctIds(ids: seq<Id>) {
    forall i, j :: 0 <= i < j < |ids| ==> ids[i] != ids[j]
  }

  /** A started run in which one channel asks for one unknown action, once under each of the request ids. */
  function AskedRun(o: Origin, channel: Id, actionId: Id, ids: seq<Id>): seq<Move> {
    if ids == [] then Opening(o)
    else
      var n := |ids| - 1;
      AskedRun(o, channel, actionId, ids[..n]) + [ChannelAsks(channel, ids[n], actionId, o.Nth(n + 4))]
  }

  ghost predicate AskedFor(o: Origin, r: Run, ids: seq<Id>) {
    OnlyAsked(o, r) && |r.journal| == |ids| + 3 && forall key :: key in r.requests ==> key.id in ids
  }

  lemma {:induction false} AskedRuns(su: Setup, o: Origin, channel: Id, actionId: Id, ids: seq<Id>)
    requires o.Distinct() && DistinctIds(ids)
    ensures History(su, AskedRun(o, channel, actionId, ids))
    ensures AskedFor(o, Supervisor.After(su, AskedRun(o, channel, actionId, ids)), ids)
  {
    hide History, Supervisor.After, Legal, NextRun, Opening, Origin.Distinct, Numbered;
    if ids == [] {
      Opened(su, o);
    } else {
      var n := |ids| - 1;
      AskedRuns(su, o, channel, actionId, ids[..n]);
      var steps, st := AskedRun(o, channel, actionId, ids[..n]), ChannelAsks(channel, ids[n], actionId, o.Nth(n + 4));
      AskOn(su, o, steps, st);
    }
  }

  /** Beyond the export limit a rebuild can miss the stop, in every setup and whatever the host contributes: when a
      channel was denied just under a million requests, a stop is event 1,000,001, the rebuilt phase is RUNNING
      with no stop reason, and because the stored projection says STOPPING the rebuild of a genuine journal ends
      in a containment fault. */
  lemma RebuildFailsBeyondTheLimit(su: Setup, o: Origin, channel: Id, actionId: Id, ids: seq<Id>)
    returns (steps: seq<Move>)
    requires o.Distinct() && DistinctIds(ids) && |ids| == MAX_ENTRIES - 3
    ensures History(su, steps)
    ensures var r := Supervisor.After(su, steps);
            && r.core.phase == STOPPING && |r.journal| == MAX_ENTRIES + 1 && Numbered(o, r.journal)
            && Rebuilding(r.journal, Some(r.core.phase)) == Err(CONTAINMENT_FAULTED)
  {
    steps := StopAfterAsking(su, o, channel, actionId, ids);
    var r := Supervisor.After(su, steps);
    hide *;
    RunningExport(r.journal);
  }

  lemma StopAfterAsking(su: Setup, o: Origin, channel: Id, actionId: Id, ids: seq<Id>) returns (steps: seq<Move>)
    requires o.Distinct() && DistinctIds(ids)
    ensures History(su, steps)
    ensures var r := Supervisor.After(su, steps);
            && r.core.phase == STOPPING && |r.journal| == |ids| + 4 && Numbered(o, r.journal)
            && var bodies := Bodies(r.journal[..|ids| + 3]);
            && Accepted(bodies) && Replay.Run(Replay.START, bodies).value.phase == RUNNING
  {
    var before := AskedRun(o, channel, actionId, ids);
    var stopped := STARTED.(phase := STOPPING, stopReason := Some(SIGNAL));
    assert Emits(su, STARTED, Halt(SIGNAL), stopped, StopLatched(SIGNAL));
    hide AskedRun, History, Supervisor.After, RunInv, Replay.Run, Accepted, Origin.Distinct, Emits, Numbered, Legal,
         NextRun;
    AskedRuns(su, o, channel, actionId, ids);
    ReplayFollowsRun(su, before);
    var r, st := Supervisor.After(su, before), Exec(Halt(SIGNAL), [o.Nth(|ids| + 4)], 0);
    QuietStep(su, o, r, Halt(SIGNAL), stopped, StopLatched(SIGNAL));
    Extend(su, before, st);
    steps := before + [st];
  }

  lemma RunningExport(j: seq<Entry>)
    requires |j| > MAX_ENTRIES && Accepted(Bodies(j[..MAX_ENTRIES]))
    requires Replay.Run(Replay.START, Bodies(j[..MAX_ENTRIES])).value.phase == RUNNING
    ensures Rebuilding(j, Some(STOPPING)) == Err(CONTAINMENT_FAULTED)
  {
    hide Replay.Run;
  }

  // ---- the second checker refuses genuine bundles ----

  /** The run's own stream meets the Python checker and is refused by the TypeScript one. */
  ghost predicate OnlyPythonAccepts(j: seq<Entry>) {
    Accepted(Bodies(j)) && Replay.TsRun(Replay.TS_START, Bodies(j)) == None
  }

  /** The two checkers disagree on genuine bundles: whenever two principals, the owner and a channel or two
      channels, are denied under one request id, only the Python checker accepts the run's own stream. */
  lemma GenuineStreamRefused(su: Setup, o: Origin, one: Move, two: Move)
    requires o.Distinct() && IsAsk(one, o.Nth(4)) && IsAsk(two, o.Nth(5))
    requires one.key.id == two.key.id && one.key != two.key
    ensures var steps := Opening(o) + [one] + [two];
            && History(su, steps)
            && var j := Supervisor.After(su, steps).journal;
            && Numbered(o, j) && OnlyPythonAccepts(j)
  {
    TwoDenials(su, o, one, two);
    var steps := Opening(o) + [one] + [two];
    hide History, Supervisor.After, Opening, RunInv, Accepted, IsAsk, Origin.Distinct, Numbered,
         OnlyPythonAccepts;
    ReplayFollowsRun(su, steps);
    DeniedTwice(Supervisor.After(su, steps).journal, one.key.id);
  }

  lemma TwoDenials(su: Setup, o: Origin, one: Move, two: Move)
    requires o.Distinct() && IsAsk(one, o.Nth(4)) && IsAsk(two, o.Nth(5)) && one.key != two.key
    ensures var steps := Opening(o) + [one] + [two];
            && History(su, steps)
            && var j := Supervisor.After(su, steps).journal;
            && |j| == 5 && Numbered(o, j)
            && j[3].body.event == RequestDenied(one.key.id, AskCode(one))
            && j[4].body.event == RequestDenied(two.key.id, AskCode(two))
  {
    var first := Opening(o) + [one];
    OneDenial(su, o, one);
    hide History, Supervisor.After, Opening, IsAsk, AskCode, Origin.Distinct, Numbered, OneMore, OnlyAsked;
    AskOn(su, o, first, two);
    Grown(o, Supervisor.After(su, first).journal, Supervisor.After(su, first + [two]).journal,
          RequestDenied(two.key.id, AskCode(two)));
  }

  lemma OneDenial(su: Setup, o: Origin, st: Move)
    requires o.Distinct() && IsAsk(st, o.Nth(4))
    ensures History(su, Opening(o) + [st])
    ensures var r := Supervisor.After(su, Opening(o) + [st]);
            && OnlyAsked(o, r) && r.requests.Keys == {st.key} && |r.journal| == 4
            && r.journal[3].body.event == RequestDenied(st.key.id, AskCode(st))
  {
    hide History, Supervisor.After, Opening, IsAsk, AskCode, Origin.Distinct, Numbered, OneMore, Untouched, AsksNext;
    Opened(su, o);
    FirstAsk(o, Supervisor.After(su, Opening(o)), st);
    AskOn(su, o, Opening(o), st);
    Grown(o, Supervisor.After(su, Opening(o)).journal, Supervisor.After(su, Opening(o) + [st]).journal,
          RequestDenied(st.key.id, AskCode(st)));
  }

  lemma FirstAsk(o: Origin, r: Run, st: Move)
    requires Untouched(o, r, STARTED, 3) && IsAsk(st, o.Nth(4))
    ensures AsksNext(o, r, st) && st.Serve? && r.requests.Keys == {} && |r.journal| == 3
  {
  }

  /** Old entries keep their place in a journal that has one more. */
  lemma Grown(o: Origin, j: seq<Entry>, j': seq<Entry>, e: Event)
    requires OneMore(o, j, j', e)
    ensures |j'| == |j| + 1 && j'[|j|].body.event == e && Numbered(o, j')
    ensures forall i :: 0 <= i < |j| ==> j'[i] == j[i]
  {
    assert forall i :: 0 <= i < |j| ==> j'[i] == j'[..|j|][i];
  }

  lemma DeniedTwice(j: seq<Entry>, id: Id)
    requires Accepted(Bodies(j)) && |j| == 5
    requires j[3].body.event.RequestDenied? && j[3].body.event.requestId == id
    requires j[4].body.event.RequestDenied? && j[4].body.event.requestId == id
    ensures OnlyPythonAccepts(j)
  {
    var bodies := Bodies(j);
    assert bodies[3].event.requestId == bodies[4].event.requestId;
    CheckersAgreeIff(bodies);
    hide Accepted, Replay.TsRun;
  }

  /** In particular for the owner and any channel that use one request id. */
  lemma OwnerAndChannel(su: Setup, o: Origin, params: string, channel: Id, id: Id, actionId: Id)
    requires o.Distinct()
    ensures var steps := Opening(o) + [OwnerAsks(id, params, o.Nth(4))]
                         + [ChannelAsks(channel, id, actionId, o.Nth(5))];
            History(su, steps) && OnlyPythonAccepts(Supervisor.After(su, steps).journal)
  {
    var one, two := OwnerAsks(id, params, o.Nth(4)), ChannelAsks(channel, id, actionId, o.Nth(5));
    assert ("ch:" + channel)[0] == 'c' && "owner"[0] == 'o';
    hide History, Supervisor.After, Opening, Origin.Distinct, OnlyPythonAccepts, Numbered;
    GenuineStreamRefused(su, o, one, two);
  }

  /** For every run: the TypeScript checker follows it exactly when no request id was denied twice. */
  lemma TsFollowsRunIff(su: Setup, steps: seq<Move>)
    requires History(su, steps)
    ensures var r := Supervisor.After(su, steps);
            && (Replay.TsRun(Replay.TS_START, Bodies(r.journal)).Some? <==> DistinctDenials(Bodies(r.journal)))
            && (DistinctDenials(Bodies(r.journal)) ==>
                  Replay.TsPhase(Replay.TsRun(Replay.TS_START, Bodies(r.journal)).value) == r.core.phase)
  {
    hide History, Supervisor.After, Replay.TsRun, Replay.Run, RunInv, Accepted, DistinctDenials;
    ReplayFollowsRun(su, steps);
    CheckersAgreeIff(Bodies(Supervisor.After(su, steps).journal));
  }

  // ---- a start that fails after it was recorded ----

  /** Rejecting a run whose start is already in the journal is a legal step without any effect: the run stays
      RUNNING, and nothing is added to the journal. */
  lemma RejectionAfterStart(su: Setup, o: Origin, code: Code)
    requires o.Distinct()
    ensures var steps := Opening(o) + [Exec(Op.Reject(code), [], 0)];
            && History(su, Opening(o)) && History(su, steps)
            && Supervisor.After(su, steps) == Supervisor.After(su, Opening(o))
            && Supervisor.After(su, steps).core.phase == RUNNING
  {
    Opened(su, o);
    var r := Supervisor.After(su, Opening(o));
    hide History, Supervisor.After, Opening, Origin.Distinct;
    NoRejection(su, r, code);
    hide Legal, NextRun;
    Extend(su, Opening(o), Exec(Op.Reject(code), [], 0));
  }

  lemma NoRejection(su: Setup, r: Run, code: Code)
    requires r.core == STARTED && r.journal != [] && r.clock == 0
    ensures Legal(su, r, Exec(Op.Reject(code), [], 0)) && NextRun(su, r, Exec(Op.Reject(code), [], 0)) == r
  {
    hide Legal, NextRun, Append;
    ExecIsLegal(su, r, Op.Reject(code), [], 0);
    AppendNothing(su, r.journal);
  }

  // ---- energy that a rebuild loses ----

  /** Metering with room for a start: named apart, each domain with a margin, and the reserve below any cap. */
  ghost predicate Metered(su: Setup) {
    && su.rapl && 1 <= |su.domains| <= U_MAX && Metering.DistinctIds(su.domains)
    && (forall i :: 0 <= i < |su.domains| ==> 1 <= su.domains[i].marginUj <= U_MAX - 2)
    && (su.cfg.budgets.maxEnergyUj.Some? ==> su.Reserve() < su.cfg.budgets.maxEnergyUj.value)
  }

  function ReadingOf(d: Domain, counter: int): Reading {
    Reading(counter, d.marginUj + 2, 0)
  }

  /** Every domain shows the same counter. */
  function AllAt(domains: seq<Domain>, counter: int): seq<Option<Reading>> {
    seq(|domains|, i requires 0 <= i < |domains| => Some(ReadingOf(domains[i], counter)))
  }

  /** The first pass finds every counter at zero. */
  lemma {:induction false} FirstPass(domains: seq<Domain>, stale: nat, n: nat)
    requires Metering.DistinctIds(domains) && n <= |domains|
    requires forall i :: 0 <= i < |domains| ==> 1 <= domains[i].marginUj <= U_MAX - 2
    ensures var s := ReadUpTo(domains, stale, AllAt(domains, 0), n, map[], true);
            && s.ok && s.delta == 0 && !s.changed
            && (forall i :: 0 <= i < n ==> domains[i].id in s.prev && s.prev[domains[i].id] == ReadingOf(domains[i], 0))
            && (forall i :: n <= i < |domains| ==> domains[i].id !in s.prev)
  {
    if n > 0 {
      FirstPass(domains, stale, n - 1);
    }
  }

  /** The second pass finds every counter at one, at the same time. */
  lemma {:induction false} SecondPass(domains: seq<Domain>, stale: nat, prev: map<Id, Reading>, n: nat)
    requires Metering.DistinctIds(domains) && n <= |domains|
    requires forall i :: 0 <= i < |domains| ==> 1 <= domains[i].marginUj <= U_MAX - 2
    requires forall i :: 0 <= i < |domains| ==>
               domains[i].id in prev && prev[domains[i].id] == ReadingOf(domains[i], 0)
    ensures var s := ReadUpTo(domains, stale, AllAt(domains, 1), n, prev, false);
            && s.ok && s.delta == n
            && (forall i :: n <= i < |domains| ==>
                  domains[i].id in s.prev && s.prev[domains[i].id] == ReadingOf(domains[i], 0))
  {
    if n > 0 {
      SecondPass(domains, stale, prev, n - 1);
      OneUp(domains[n - 1].maxPowerUw, domains[n - 1].marginUj, stale);
      hide RaplDelta;
    }
  }

  lemma OneUp(power: nat, margin: nat, stale: nat)
    requires margin >= 1
    ensures RaplDelta(0, 1, margin + 2, 0, stale, power, margin) == Ok(1)
  {
    assert Ceiling(power, 0) == 0;
  }

  function Look(domains: seq<Domain>, counter: int): SampleInput {
    SampleInput(0, AllAt(domains, counter), Some(0))
  }

  /** A started run that has been sampled once. */
  ghost predicate SampledOnce(su: Setup, o: Origin, r: Run) {
    && r.core == STARTED && r.clock == 0 && |r.journal| == 4 && Numbered(o, r.journal)
    && r.meter.energyUj == 0 && r.meter.index == 1
    && forall i :: 0 <= i < |su.domains| ==>
         su.domains[i].id in r.meter.prev && r.meter.prev[su.domains[i].id] == ReadingOf(su.domains[i], 0)
  }

  lemma FirstTaken(su: Setup)
    requires Metered(su)
    ensures var (m, sample) := TakeSample(su.domains, su.staleUs, FRESH_METER, Look(su.domains, 0));
            && sample.Some? && m.energyUj == 0 && m.index == 1
            && forall i :: 0 <= i < |su.domains| ==>
                 su.domains[i].id in m.prev && m.prev[su.domains[i].id] == ReadingOf(su.domains[i], 0)
  {
    FirstPass(su.domains, su.staleUs, |su.domains|);
    hide ReadUpTo, Readings, Metering.DistinctIds;
  }

  lemma {:induction false} ReserveNotNegative(domains: seq<Domain>, staleUs: nat, killUs: nat)
    ensures ReserveUj(domains, staleUs, killUs) >= 0
  {
    if domains != [] {
      ReserveNotNegative(domains[..|domains| - 1], staleUs, killUs);
      assert Ceiling(domains[|domains| - 1].maxPowerUw, staleUs + killUs) >= 0;
    }
  }

  /** It is recorded, and the guard lets the run go on. */
  lemma FirstOps(su: Setup, r: Run) returns (sample: Sample)
    requires Metered(su) && r.core == STARTED && r.meter == FRESH_METER
    ensures ApplyAll(su.cfg, r.core, SampleOps(su, r, Look(su.domains, 0))) == (STARTED, [SampleRecorded(sample)])
  {
    FirstTaken(su);
    ReserveNotNegative(su.domains, su.staleUs, su.killUs);
    sample := TakeSample(su.domains, su.staleUs, FRESH_METER, Look(su.domains, 0)).1.value;
    ApplyOne(su.cfg, r.core, Record(sample));
    assert [Record(sample)] + [] == [Record(sample)];
    hide TakeSample, ApplyAll;
  }

  lemma FirstSample(su: Setup, o: Origin, r: Run)
    requires o.Distinct() && Metered(su) && Untouched(o, r, STARTED, 3) && RunInv(su, r)
    ensures var st := Sampling(Look(su.domains, 0), [o.Nth(4)], 0);
            Legal(su, r, st) && SampledOnce(su, o, NextRun(su, r, st))
  {
    var sample := FirstOps(su, r);
    FirstTaken(su);
    NextIsFresh(o, r.journal);
    OneEntry(su, o, r.journal, SampleRecorded(sample));
    LatchesOne(SampleRecorded(sample));
    hide TakeSample, ApplyAll, Append, Latches, Legal, NextRun, RunInv, Stamped, Numbered, SampleOps, Origin.Distinct;
    SamplingIsLegal(su, r, Look(su.domains, 0), [o.Nth(4)], 0);
  }

  lemma SecondTaken(su: Setup, o: Origin, r: Run)
    requires Metered(su) && SampledOnce(su, o, r)
    ensures TakeFinal(su.domains, su.staleUs, r.meter, Look(su.domains, 1)).1.Some?
    ensures Counted(su, r, FinalReading(Look(su.domains, 1), [], 0)) == |su.domains|
  {
    SecondPass(su.domains, su.staleUs, r.meter.prev, |su.domains|);
    hide ReadUpTo, Readings, Metering.DistinctIds, Numbered;
  }

  /** The final reading of such a run, once it is stopped, leaves no event. */
  lemma LastReading(su: Setup, o: Origin, was: Run, r: Run)
    requires Metered(su) && SampledOnce(su, o, was) && RunInv(su, r) && r.journal != []
    requires r.clock == 0 && r.core.phase == STOPPING && r.meter == was.meter
    ensures var st := FinalReading(Look(su.domains, 1), [], 0);
            Legal(su, r, st) && Counted(su, r, st) == |su.domains|
  {
    SecondTaken(su, o, was);
    ApplyNone(su.cfg, r.core);
    assert FinalOps(su, r, Look(su.domains, 1)) == [];
    hide TakeFinal, ApplyAll, Legal, NextRun, RunInv, FinalOps, SampledOnce, Metered, ReadUpTo;
    FinalIsLegal(su, r, Look(su.domains, 1), [], 0);
  }

  /** Started, sampled, stopped, and read a last time. */
  function SampledRun(su: Setup, o: Origin): seq<Move> {
    Opening(o) + [Sampling(Look(su.domains, 0), [o.Nth(4)], 0)]
  }

  function StoppedRun(su: Setup, o: Origin): seq<Move> {
    SampledRun(su, o) + [Exec(Halt(SIGNAL), [o.Nth(5)], 0)]
  }

  lemma Sampled(su: Setup, o: Origin)
    requires o.Distinct() && Metered(su)
    ensures History(su, SampledRun(su, o)) && SampledOnce(su, o, Supervisor.After(su, SampledRun(su, o)))
  {
    hide History, Supervisor.After, Opening, Legal, NextRun, RunInv, Metered, Untouched, SampledOnce, Origin.Distinct;
    Opened(su, o);
    Reachable(su, Opening(o));
    FirstSample(su, o, Supervisor.After(su, Opening(o)));
    Extend(su, Opening(o), Sampling(Look(su.domains, 0), [o.Nth(4)], 0));
  }

  lemma Stopped(su: Setup, o: Origin)
    requires o.Distinct() && Metered(su)
    ensures History(su, SampledRun(su, o)) && History(su, StoppedRun(su, o))
    ensures var was, r := Supervisor.After(su, SampledRun(su, o)), Supervisor.After(su, StoppedRun(su, o));
            && SampledOnce(su, o, was) && r.clock == 0 && r.core.phase == STOPPING && r.meter == was.meter
            && Numbered(o, r.journal) && |r.journal| == 5
  {
    var stopped := STARTED.(phase := STOPPING, stopReason := Some(SIGNAL));
    assert Emits(su, STARTED, Halt(SIGNAL), stopped, StopLatched(SIGNAL));
    hide History, Supervisor.After, Opening, SampledRun, Legal, NextRun, RunInv, Emits, Numbered, Origin.Distinct,
         Metered;
    Sampled(su, o);
    var was := Supervisor.After(su, SampledRun(su, o));
    QuietStep(su, o, was, Halt(SIGNAL), stopped, StopLatched(SIGNAL));
    Extend(su, SampledRun(su, o), Exec(Halt(SIGNAL), [o.Nth(5)], 0));
  }

  /** A rebuild can lose energy, in every metered setup and whatever the host contributes: a run is sampled once,
      stopped, and read a last time after every counter has moved by one. What the final reading counted is in
      the live total and missing from the rebuilt one. */
  lemma EnergyIsLost(su: Setup, o: Origin) returns (steps: seq<Move>)
    requires o.Distinct() && Metered(su)
    ensures History(su, steps)
    ensures var r := Supervisor.After(su, steps);
            && Rebuilding(r.journal, Some(r.core.phase)).Ok?
            && Rebuilding(r.journal, Some(r.core.phase)).value.2.energyUj < r.meter.energyUj
  {
    var st := FinalReading(Look(su.domains, 1), [], 0);
    steps := StoppedRun(su, o) + [st];
    LastIsLegal(su, o);
    hide History, Supervisor.After, StoppedRun, Legal, RunInv, Origin.Distinct, Mirrored, RecallAll, Counted,
         Rebuilding, Metered;
    FinalReadingIsLost(su, StoppedRun(su, o), st);
    ReplayFollowsRun(su, steps);
    FewEntries(su, StoppedRun(su, o), st);
    WholeExport(Supervisor.After(su, steps));
  }

  lemma LastIsLegal(su: Setup, o: Origin)
    requires o.Distinct() && Metered(su)
    ensures History(su, StoppedRun(su, o))
    ensures var r, st := Supervisor.After(su, StoppedRun(su, o)), FinalReading(Look(su.domains, 1), [], 0);
            Legal(su, r, st) && Counted(su, r, st) > 0 && |r.journal| == 5
  {
    Stopped(su, o);
    assert |su.domains| > 0;
    hide History, Supervisor.After, SampledRun, StoppedRun, Legal, NextRun, RunInv, Numbered, Origin.Distinct,
         SampledOnce, Counted, Metered;
    Reachable(su, StoppedRun(su, o));
    LastReading(su, o, Supervisor.After(su, SampledRun(su, o)), Supervisor.After(su, StoppedRun(su, o)));
  }

  lemma FewEntries(su: Setup, steps: seq<Move>, st: Move)
    requires History(su, steps) && st.FinalReading? && st.stamps == [] && Legal(su, Supervisor.After(su, steps), st)
    requires History(su, steps + [st])
    ensures |Supervisor.After(su, steps + [st]).journal| == |Supervisor.After(su, steps).journal|
  {
    Extend(su, steps, st);
    LegalCommit(su, Supervisor.After(su, steps), st);
    hide History, Supervisor.After, Legal, NextRun, OpsOf, ApplyAll, Append;
  }
}
