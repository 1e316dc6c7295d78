# LexWatt: a verified model of its ledger, receipts, meter and canonical JSON

LexWatt runs a workload under budgets for energy, arithmetic work, process launches and time, and leaves a
signed, hash-chained journal that anyone can verify offline. This project models the parts that have to be
right for that to mean anything, and proves what they promise.

How the modules fit together:

- `types`, `dicts`, `sequences`: the shared vocabulary, insertion-ordered dictionaries with sums over their values,
  and a few facts about sequences.
- `ledger`, `run_core`, `invariants`: the reducer as functions on a ledger value, the object that updates its
  fields in place (each method is proved to compute the function), and the invariant every operation keeps.
- `replay`, `streams`, `grammar`, `checkers`: the two offline replay checkers, Python and TypeScript, each as a
  function and as the loop it is; what acceptance means for a whole stream; exactly which streams are accepted, and
  exactly where the two agree.
- `audit`: the append loop of the journal, the bundle verifier, tamper evidence.
- `supervisor`: a run as a transition system. A step applies operations, reads the meter or answers a request,
  and commits the events. A history is any sequence of legal steps; the host, the clock and the clients are
  arbitrary within what `Legal` says.
- `simulation`, `runs`, `theorems`, `receipts`, `recall`, `requests`, `energy`: what holds over every history.
- `admission`, `answers`, `transitions`, `sensors`: what each request is answered, what each step does and which
  samples count, spelled out without the functions that compute it; and that no effect goes without admission.
- `host`, `steps`, `engine`: the supervisor as an object with a nondeterministic host. `Valid()` says that the
  object's state is the one its recorded history of legal steps leads to, so every result about histories is a
  result about it.
- `findings`: concrete runs that break a promise of the repository.
- `unicode`, `json`, `json_printer`, `json_parser`, `json_reader`, `json_roundtrip`, `canonical`, `spelling`,
  `hashing`: the canonical JSON printer and parser, and the framing of hashed and signed bytes.
- `meter`, `estimator`, `routing`, `topology`, `cpulist`: the arithmetic and the small algorithms.

SHA-256 and Ed25519 are uninterpreted functions. The only law assumed of them, and only where a lemma names it,
is that a signature made with a seed verifies under that seed's public key. Collision freedom is never assumed:
the tamper-evidence results exhibit the collision.

Where the code and what is said of it differ, the model follows the code:

- `ts/src/replay.ts` says that it mirrors the Python checker exactly. On consecutive, well-typed streams it differs
  in four ways, and `CheckersMeetIff` proves that these are all: it refuses a stream in which a request id is denied
  twice, which two principals can cause in a genuine run; and it accepts streams that do not begin with RunCreated,
  a FaultObserved before the stop, and an action id dispatched twice.
- `bundle` and `_rebuild` read at most the first 1,000,000 events, so a longer run is exported as a prefix and can
  become impossible to reopen. `RebuildAgreesIff`, `RebuildFaultsIff` and `ExportVerifies` give the exact conditions.
- `arm` leaves the run RUNNING without a root process exactly when the probes succeed, the root process cannot be
  spawned after RunStarted, and the control group is clean, although it asks for a rejection: a rejection is without
  effect there (`ArmRun`, `RejectionAfterStart`). The simulation holds all the same.
- The baseline reading of `arm` is not kept as a previous reading, so energy is metered from the first sample.
- The JSON parser is documented as a decoder of canonical text, but accepts more: white space, negative zero, escapes
  the printer would not write, and keys in any order. `CanonicalTextIff` proves that these are all the ways in which
  an accepted text can fail to be canonical.
- A rebuilt run's energy total leaves out the final reading, and any other that was counted without a SampleRecorded
  event. `EnergyIsLost` gives a run of every metered setup in which it does, `FinalReadingIsLost` says that every final
  reading that counts energy is lost, `RecalledEnergy` gives the exact difference, and `RecalledIff` exactly when there
  is none.
- `domain_cpus` of no CPUs is the empty text, which `cpulist_to_set` cannot read.

The energy results assume of the physical world that a domain's counter shows its true draw modulo the counter's
range and that over any interval a domain draws at most its rated power, rounded up, plus its margin; of the host
that a reading is taken within the step that reports it; and for the bound, that until the stop each step ends
within the stale interval of every domain's latest reading, and that after it readings are only taken up to the
kill deadline. The predicates `Physical`, `Honest` and `Timely` state this.

## Model

| member | source | states |
|---|---|---|
| Theorems.ReplayFollowsRun | src/lexwatt/replay.py:45-104 | Simulation: after every legal history the replay checker accepts the run's journal and ends in exactly the ledger's phase, with exactly the ledger's token, action and compute states under exactly its ids |
| Theorems.Reachable | src/lexwatt/core.py:88-507 | Every state a legal history leads to satisfies the ledger invariant, has a chained and replayable journal, ordered latch and kill times, and effects released at most once |
| Theorems.EventIdsDistinct | src/lexwatt/ledger.py:20 | In every reachable state no two events of the journal have the same id |
| Theorems.Conservation | src/lexwatt/core.py:161-186 | Conservation in every reachable state: charged work is the sum of the reservations' charges and within the budget; tokens, issue numbers and the issue count agree and stay within the spawn budget; inflight is the number of dispatched actions, at most 32; spent tokens and actions match one to one; a finished reservation observed no more than it was charged |
| Theorems.StopSafety | src/lexwatt/core.py:101-106 | In every reachable state a stop reason exists exactly from STOPPING on, it is the reason of the one StopLatched event of the journal, and nothing is admitted after that event; an ended run is FAILED exactly for the five fault reasons, COMPLETED exactly for ROOT_EXIT, and KILLED for every other |
| Theorems.NothingUndone | src/lexwatt/core.py:407-416 | Between any two moments of a run neither stop reason nor latch time changes, the phase rank does not fall, no stored reply is lost or altered, and the journal only grows at its end |
| Theorems.FinalizeSucceeds | src/lexwatt/core.py:455-489 | A FINALIZING run is drained and can always be finalised; it ends FAILED, COMPLETED or KILLED as its reason says, and its one event names that phase, that reason, charge and issue count, the root exit, and the time from latch to first kill |
| Transitions.FinalReport | src/lexwatt/core.py:455-489 | In every history a RunFinalized event is there exactly once the run has ended other than by a rejection, and it names the phase the run ended in, the reason that stopped it, what was charged and issued, and the time from the latch to the first kill |
| Admission.EffectsAdmitted | src/lexwatt/engine.py:855-942 | No effect without admission: for every effect a run ever released, an earlier step granted a token for an action inside the policy, less than a second before the step that dispatched the effect; there the token was signed by the run, of this run, and bound to the channel and the action hash it was presented for; if what was presented is what was granted, channel and action hash are those of the grant |
| Grammar.CheckerIff | src/lexwatt/replay.py:12-104 | The replay checker accepts exactly the lawful streams: on all consecutive streams with typed payloads it follows if and only if each event may come where it does, stated by what must and must not have come before it and without a checker state |
| Receipts.ExportVerifies | src/lexwatt/engine.py:1047-1052 | Verifier completeness: the bundle exported at any moment of any run passes steps 2 to 8 of the verifier under the run's key (of its schema step only the size limits and two payload value sets are modelled); it reports COMPLETE exactly when its events reach a terminal phase; that phase is the live one exactly when no event beyond the export limit names a phase |
| Receipts.RebuildAgreesIff | src/lexwatt/engine.py:1267-1301 | Rebuilding from the run's own journal gives the live phase, stop reason and counters if and only if no event after the millionth names a phase, issues a token or charges work |
| Receipts.RebuildFaultsIff | src/lexwatt/engine.py:1272-1279 | The rebuild from the run's own journal raises the containment fault if and only if some event after the millionth names a phase, and succeeds otherwise |
| Receipts.Rebuild | src/lexwatt/engine.py:1267-1301 | The loop over the exported bodies computes the replayed phase, the fold of the ledger's counters, and the fold of energy total, latch time and end flags; it raises the integrity fault when the stored phase differs from a phase that is not terminal |
| Recalls.RebuildRecalls | src/lexwatt/engine.py:1282-1301 | For every history whose journal fits the export: the rebuilt energy total is short of the live one by exactly what readings counted without a SampleRecorded since the last one, and equal to it if and only if every counting reading was followed by a recorded sample; the rebuilt latch time is there exactly when the run was stopped and is not later than the live one; the flags tell exactly whether containment was found empty and the run finalised |
| Recalls.RecalledEnergy | src/lexwatt/engine.py:1283-1289 | In every history, of any length, recalled total plus unrecorded energy is the live total |
| Recalls.RecalledIff | src/lexwatt/engine.py:1283-1289 | A rebuild recalls the live energy total if and only if every reading whose pass over the domains counted energy is, or is followed by, a recorded sample |
| Recalls.TotalGrows | src/lexwatt/engine.py:472-548 | Each step raises the energy total by exactly what its pass over the domains adds up, and by nothing when it makes no pass or a check raises |
| Recalls.FinalReadingIsLost | src/lexwatt/engine.py:619-630 | After every history: a final reading whose pass counts energy leaves the rebuilt total below the live one by at least that much |
| Findings.EnergyIsLost | src/lexwatt/engine.py:1283-1289 | In every metered setup with a margin per domain, whatever the host contributes: a run that is sampled, stopped and read a last time while all counters move by one is rebuilt with less energy than it metered |
| Recalls.RecalledLatch | src/lexwatt/engine.py:1290-1292 | In every history the stamp of the StopLatched event is there exactly when the live latch time is, and not later |
| Findings.RebuildFailsBeyondTheLimit | src/lexwatt/engine.py:1272-1279 | In every setup, whatever configuration hash, baseline sample and distinct event ids the host contributes, for any channel, unknown action and 999,997 distinct request ids: the run that denies these requests and is then stopped has a genuine journal that cannot be rebuilt, the stop being event 1,000,001 and the rebuild ending in the containment fault |
| Energy.EnergyBelowCap | src/lexwatt/engine.py:472-548 | Under the power assumption, true and timely readings, and the start gate, the metered energy stays strictly below the cap in every state including after the final sample, and MEASUREMENT_OVERRUN is never latched |
| Energy.MeterIsExact | src/lexwatt/engine.py:478-525 | Metered energy over any number of samples equals the summed true draw of all domains from their first sampled reading to their latest one if no sample raised, and never exceeds it otherwise |
| Energy.RunningTotalIsTrue | src/lexwatt/engine.py:542-548 | As long as no stop is latched, the total is exactly the true draw, and total plus reserve is below the cap |
| Energy.UnlatchedIsFaultless | src/lexwatt/engine.py:450-455 | A run whose stop is not latched has never had a sample that raised |
| Energy.StaysCapped | src/lexwatt/meter.py:54-68 | One step keeps the energy account of the current window: what was metered before it, plus the true draw inside it, plus the reserve below the cap |
| Energy.DrawnWithinReserve | src/lexwatt/meter.py:44-51 | What all domains draw within a stale interval plus the kill deadline is at most the reserve |
| Energy.OverrunNeedsTotal | src/lexwatt/meter.py:64-65 | Only a recorded sample of a capped run latches ENERGY_GUARD or MEASUREMENT_OVERRUN, the first only when the total with the reserve reaches the cap, the second only when the total alone does |
| Energy.GuardedSample | src/lexwatt/engine.py:541-548 | A recorded sample of a running capped run latches MEASUREMENT_OVERRUN exactly when the new total reaches the cap, ENERGY_GUARD exactly when only total and reserve together do, and nothing otherwise |
| Energy.EnergyStopJustified | src/lexwatt/engine.py:541-548 | In every history a run stopped for its energy has a cap, which its total reaches with the reserve, and alone if it was stopped for an overrun |
| Sensors.RaplIff | src/lexwatt/meter.py:22-41 | A difference is computed exactly when both counters are in range, the interval is not stale and the rated power cannot wrap the counter; it is the one amount within what can be drawn that leads from one counter to the other |
| Sensors.SampleIff | src/lexwatt/engine.py:472-539 | A regular sample counts energy exactly if every reading is plausible after the one before it, ranges are unchanged, CPU time has not gone back and the sensor is not stuck; it is recorded exactly if its numbers can also be written; and when the watch for a stuck sensor starts and ends |
| Sensors.FinalIff | src/lexwatt/engine.py:674-711 | The final reading counts energy exactly if every reading is plausible and CPU time is known, and moves nothing but readings and total |
| Sensors.PassAccepts | src/lexwatt/engine.py:478-507 | A pass over domains with distinct ids succeeds exactly if each reading is there and plausible after the one before the pass |
| Sensors.ReserveIsTight | src/lexwatt/meter.py:44-51 | The reserve is the least there can be: some host keeps to its rated power and draws exactly the reserve over a stale interval plus the kill deadline |
| Requests.AtMostOnce | src/lexwatt/engine.py:754-764 | After a request was committed, any later request under the same principal and id changes nothing but the time; it is answered with the first reply if method and parameters are the same, and with CONFLICT otherwise |
| Requests.BusyStaysFree | src/lexwatt/engine.py:762-763 | A request answered with BUSY is not stored and changes nothing |
| Requests.CommittedIsStored | src/lexwatt/engine.py:170-173 | A committed request leaves its digest and its reply under its key |
| Requests.TokenUsedOnce | src/lexwatt/core.py:214-243 | No two requests of a run, whoever sends them, dispatch the same token |
| Requests.IssuedTokenDispatches | src/lexwatt/engine.py:855-901 | The token a run answered with, presented on its channel for its action while still issued and not due, to a running run with room for the effect, is dispatched whatever happened in between; uses that the run's own signature verifies |
| Requests.HistoryKeepsTokens | src/lexwatt/core.py:186-200 | No later step alters the body, binding or expiry of a token, only its state |
| Requests.EffectsNeverOutnumberSpends | src/lexwatt/engine.py:875-942 | No effect is released twice, each released effect has a TokenSpent event of its own in the journal, and a run releases at most as many effects as it spends tokens, which is at most its spawn budget |
| Requests.ActionsAreSpends | src/lexwatt/replay.py:73-79 | In an accepted stream the checker's actions are exactly those a TokenSpent event names, and there are as many as TokenSpent events |
| Admission.TokenAsked | src/lexwatt/core.py:152-202 | A running run answers a new token request with ACTION_DENIED exactly when the action is outside the policy (program and directory equal to an approved root or below it, or a configured public address within its byte limit), denies and stops exactly when the spawn budget is used up, and otherwise grants a signed token bound to run, channel and action, numbered on and good for one second; nothing else changes |
| Admission.PolicyIff | src/lexwatt/core.py:116-150 | The policy on paths and destinations, spelled out: a path is approved exactly if it is a root, or a root without its trailing slashes, a slash, and more |
| Admission.TokenPresented | src/lexwatt/core.py:204-243 | What a running run answers to a presented token, in the order of the checks: of another run, not signed here, of another channel or action or unknown, used, expired, just due, no room, or dispatched; with the whole new ledger and the events of each case |
| Admission.DispatchesIff | src/lexwatt/engine.py:875-901 | A request dispatches an action if and only if it is new, on a channel, to a running run, with a token of this run, signed by it, bound to channel and action, issued and not due, and fewer than 32 actions are in flight |
| Admission.GrantMeans | src/lexwatt/core.py:152-202 | Whenever a token is granted, its action is inside the policy and its body is bound to the channel and the action that asked |
| Admission.TokenWasGranted | src/lexwatt/core.py:186-199 | Every token a run ever knows was granted by a step of its history, with the body and expiry it still has |
| Admission.EffectWasDispatched | src/lexwatt/engine.py:894-901 | Every released or pending effect was dispatched by a step of the history |
| Answers.ActionAsked | src/lexwatt/core.py:259-272 | A channel is told how its own action stands; any other is UNAUTHORIZED and an unknown one NOT_FOUND, without a change |
| Answers.ComputeAsked | src/lexwatt/core.py:325-359 | A running run prices a reservation by the last catalogue entry of its model; it is denied for work or a model outside the bounds and for an unknown model, denied with a stop exactly when the price exceeds what is left of the budget, and charged exactly the price otherwise |
| Answers.FinishAsked | src/lexwatt/core.py:361-405 | Only the reserving channel finishes a reservation, once and inside the envelope, at the exact cost of what was observed; the same report again is answered alike, more output than reserved is denied and stops a running run, and any other report is a conflict |
| Answers.StopAsked | src/lexwatt/core.py:407-416 | A stop request stops an armed or running run for OPERATOR and reports phase and first reason otherwise |
| Answers.StatusAsked | src/lexwatt/engine.py:787-793 | The owner is told phase, charge, issue count and reason, and nothing changes |
| Answers.ElsewhereAsked | src/lexwatt/engine.py:787-801 | A control request naming another run is NOT_FOUND, a malformed one is denied with the code of its check, and nothing else happens |
| Answers.AskedTooLate | src/lexwatt/core.py:152-158 | Outside RUNNING a request for a token, a dispatch or a reservation is answered STOPPED, without an event or a change |
| Answers.AskedAfterTheEnd | src/lexwatt/engine.py:775-786 | From FINALIZING on a run reports its status or its end, answers everything else STOPPED, changes nothing, and stores every reply but the error of a malformed events.read |
| Answers.WrongSurface | src/lexwatt/engine.py:741-749 | Control on a channel, or work on the owner's connection, is UNAUTHORIZED and changes nothing |
| Answers.NoIdentifier | src/lexwatt/engine.py:762-763 | Without an unused identifier the request is BUSY, changes nothing, and its key stays free |
| Invariants.ApplyKeepsInv | src/lexwatt/core.py:152-507 | Every operation of the reducer keeps the whole ledger invariant: dictionaries, sums, one-to-one matching, prices, limits and life cycle |
| Invariants.ActionsWithinBudget | src/lexwatt/core.py:228-243 | A run never dispatches more actions than it issued tokens, nor more than its spawn budget, nor more than 32 at once; inflight is 0 exactly when every action is resolved |
| Invariants.ObservedNeverFails | src/lexwatt/core.py:383-399 | Work finished inside its envelope always has an estimate, and it is at most the charge |
| Invariants.DispatchKeeps | src/lexwatt/core.py:204-243 | Dispatching keeps the one-to-one match of spent tokens and actions and the inflight count, on every branch |
| Invariants.ReserveKeeps | src/lexwatt/core.py:325-359 | Reserving keeps the charged total equal to the sum of the charges and within the budget, on every branch |
| Invariants.CompleteKeeps | src/lexwatt/core.py:361-405 | Finishing a reservation keeps the prices and the total, on every branch |
| Dicts.SumPut | src/lexwatt/core.py:341-351 | Writing one key of an insertion-ordered dictionary changes a sum over it by that key's contribution alone |
| Simulation.ApplyMirrors | src/lexwatt/replay.py:45-104 | The events of every single operation lead the checker, and the fold of the rebuild, from the ledger before to the ledger after |
| Simulation.DispatchMirrors | src/lexwatt/core.py:204-243 | The same for a dispatch, including the expiry found while dispatching |
| Simulation.ExpireMirrors | src/lexwatt/core.py:245-257 | The same for the sweep of all due tokens |
| Runs.StepKeeps | src/lexwatt/engine.py:127-179 | Every legal step of the supervisor keeps ledger invariant, chain, replay, fold, times and releases |
| Runs.CommitFaithful | src/lexwatt/engine.py:132-157 | A commit appends events that stay chained, replayable to the new ledger, and foldable to its counters |
| Runs.ApplyFrame | src/lexwatt/core.py:101-112 | No operation touches the latch time, only a kill its own time, and none replaces a stop reason or latches twice |
| RunCores.RunCore.constructor | src/lexwatt/core.py:64-86 | A new ledger has the initial value |
| RunCores.RunCore.Refusal | src/lexwatt/core.py:93-99 | A denial leaves a RequestDenied event in the live phases and none elsewhere |
| RunCores.RunCore.LatchStop | src/lexwatt/core.py:101-105 | The first stop source in ARMING or RUNNING moves the run to STOPPING; any other changes nothing |
| RunCores.RunCore.TokenIssue | src/lexwatt/core.py:152-202 | State and outcome are those of the issue transition: stopped, policy denial, spawn cap with its latch, or a numbered token |
| RunCores.RunCore.DispatchToken | src/lexwatt/core.py:204-243 | State and outcome are those of the dispatch transition: binding, used, expired (also while dispatching), BUSY, or one spend and one action |
| RunCores.RunCore.ExpireDue | src/lexwatt/core.py:245-257 | The sweep in issue order leaves every due token expired and the others alone, with one event per expired token |
| RunCores.RunCore.ShowAction | src/lexwatt/core.py:259-272 | The view of the channel's own action, or the denial |
| RunCores.RunCore.ActionFinish | src/lexwatt/core.py:274-294 | Resolves a dispatched action once, with its audit line, and only where the phase permits |
| RunCores.RunCore.ActionGiveUp | src/lexwatt/core.py:296-307 | Marks a dispatched action unknown once, and only where the phase permits |
| RunCores.RunCore.ComputeReserve | src/lexwatt/core.py:325-353 | The first failing check, the flops cap with its latch, or a priced reservation |
| RunCores.RunCore.ComputeFinish | src/lexwatt/core.py:361-405 | The first failing check, the idempotent repetition, the envelope latch, or the finished reservation |
| RunCores.RunCore.StopRun | src/lexwatt/core.py:407-416 | Latches once; repetitions report the phase and the first reason |
| RunCores.RunCore.KillWasIssued | src/lexwatt/core.py:418-432 | Records the first kill time and emits KillIssued while stopping |
| RunCores.RunCore.KillUnconfirmedAfter | src/lexwatt/core.py:434-439 | STOPPING becomes UNCONFIRMED |
| RunCores.RunCore.ContainmentEmptied | src/lexwatt/core.py:441-453 | STOPPING or UNCONFIRMED becomes FINALIZING, keeping the root exit |
| RunCores.RunCore.FinalizeRun | src/lexwatt/core.py:455-489 | FINALIZING becomes the terminal phase of the first reason, with the report as FinalizeSucceeds spells it out |
| RunCores.RunCore.RejectStart | src/lexwatt/core.py:491-498 | Only CREATED and ARMING can be rejected |
| RunCores.RunCore.InfrastructureFault | src/lexwatt/core.py:500-507 | A fault latches a live run and is only observed on a stopping one |
| Transitions.HaltMoves | src/lexwatt/core.py:101-105 | A stop source stops an armed or running run once, with one StopLatched event, and changes nothing otherwise |
| Transitions.FaultMoves | src/lexwatt/core.py:500-507 | A fault stops a live run, is recorded by a stopping one, and is nothing to an ended one |
| Transitions.KillMoves | src/lexwatt/core.py:418-432 | The first kill of a stopping run gives the kill time; every kill is recorded, and none outside stopping |
| Transitions.UnconfirmMoves | src/lexwatt/core.py:434-439 | STOPPING, and no other phase, becomes UNCONFIRMED with its event |
| Transitions.EmptiedMoves | src/lexwatt/core.py:441-453 | Only a drained, stopping run becomes FINALIZING; the event names the final sample and the last known root exit |
| Transitions.RejectMoves | src/lexwatt/core.py:491-498 | CREATED and ARMING become REJECTED, and no other phase does |
| Transitions.SweepMoves | src/lexwatt/core.py:245-257 | The sweep of a running run expires exactly the issued tokens whose time is over, with one event each in issue order, and changes nothing else |
| Transitions.FinishMoves | src/lexwatt/core.py:274-294 | A dispatched action is resolved once while its run can observe it: succeeded exactly with a result and no error; the audit line names exit, status and body hash only where its kind has them |
| Transitions.GiveUpMoves | src/lexwatt/core.py:296-307 | A dispatched action becomes unknown once, with its code |
| Ledger.SweepStep | src/lexwatt/core.py:245-257 | One step of the sweep touches one record and emits at most its expiry |
| Engine.LiveRun.constructor | src/lexwatt/engine.py:63-104 | A new supervisor is in the state of the empty history |
| Engine.LiveRun.CommitEvents | src/lexwatt/engine.py:130-157 | The events are appended numbered, chained, stamped in clock order; a StopLatched among them, and nothing else, records the latch time |
| Engine.LiveRun.CommitOp | src/lexwatt/engine.py:127-179 | Committing what an operation returned completes exactly one legal step that applies it |
| Engine.LiveRun.Created | src/lexwatt/engine.py:260-271 | The first commit is one RunCreated step |
| Engine.LiveRun.Arming | src/lexwatt/engine.py:273-276 | One arming step from CREATED |
| Engine.LiveRun.Reject | src/lexwatt/engine.py:283-286 | One rejection step, effective only before the start |
| Engine.LiveRun.ArmRun | src/lexwatt/engine.py:288-340 | A failed probe stops the run exactly when a control group was left unclean and rejects it otherwise; a successful one is followed first by the start with its baseline; the run is left RUNNING without a root process exactly when the probe succeeded, the root was not spawned and the control group is clean |
| Engine.LiveRun.StartRun | src/lexwatt/engine.py:308-328 | One start step with the baseline sample; the start time is a clock reading of this step, not later than the stamp of its event |
| Engine.LiveRun.ReleaseRoot | src/lexwatt/engine.py:329-340 | The root process exists exactly if it was spawned; if not, the run stays RUNNING exactly when the control group is clean and is STOPPING otherwise |
| Engine.LiveRun.ArmFailed | src/lexwatt/engine.py:332-340 | The run is stopped by a containment fault exactly when there is a control group that is not clean; otherwise the step taken is the rejection, which rejects an ARMING run and leaves a RUNNING one as it is |
| Engine.LiveRun.LatchStop | src/lexwatt/engine.py:564-571 | One halt step, followed by one kill step if the run is stopping |
| Engine.LiveRun.LatchRootExit | src/lexwatt/engine.py:564-571 | The root exit is noted, then the run is halted for it and killed, in exactly three steps |
| Engine.LiveRun.FaultSeen | src/lexwatt/engine.py:573-581 | One fault step, followed by one kill step if the run is stopping |
| Engine.LiveRun.IssueKill | src/lexwatt/engine.py:583-599 | One kill step, whatever came of the two attempts |
| Engine.LiveRun.ReadPass | src/lexwatt/engine.py:478-507 | The loop over the domains leaves exactly the readings, delta and verdict of the pass |
| Engine.LiveRun.UpdateMeter | src/lexwatt/engine.py:472-539 | Every field of the meter, and the sample, are those of the sampling function, also when a check raises half way |
| Engine.LiveRun.UpdateFinal | src/lexwatt/engine.py:674-711 | The same for the final reading |
| Engine.LiveRun.Guard | src/lexwatt/engine.py:541-548 | The verdict of the guard on the current total, only while running and capped |
| Engine.LiveRun.SampleNow | src/lexwatt/engine.py:472-548 | The next step of the run is the sample of this moment; it stops a running run only for SENSOR_FAULT, ENERGY_GUARD or MEASUREMENT_OVERRUN, and a stop is followed by a kill |
| Engine.LiveRun.SampleFault | src/lexwatt/engine.py:452-454 | A sample that raised is a legal step that leaves only the fault behind |
| Engine.LiveRun.SampleGood | src/lexwatt/engine.py:539-548 | The record and the guard's stop, in two commits, are one legal step |
| Engine.LiveRun.ResolveAction | src/lexwatt/engine.py:916-942 | One resolving step with the given result |
| Engine.LiveRun.ObserveChildren | src/lexwatt/engine.py:944-962 | Every child is looked at exactly once; exactly those seen to exit are forgotten, and exactly their actions are resolved, as succeeded only on exit code 0 |
| Engine.LiveRun.ChildExited | src/lexwatt/engine.py:953-962 | One exit removes exactly its child and resolves exactly its action, as succeeded only on exit code 0 |
| Engine.LiveRun.DrainOne | src/lexwatt/engine.py:650-664 | One dispatched action is resolved as failed with its exit, unknown, or failed without a result, by what was seen when its child was looked at |
| Engine.LiveRun.Drain | src/lexwatt/engine.py:642-672 | Every action is resolved by that rule, each that has a child by a look at it, those resolved before are untouched, in one legal step |
| Engine.LiveRun.CheckEmpty | src/lexwatt/engine.py:634-672 | Reports empty exactly if there is no control group or it is seen empty, and only after the drain; otherwise leaves the actions alone |
| Engine.LiveRun.FinalSample | src/lexwatt/engine.py:619-627 | The sample is that of the final reading, which is the one new step; neither phase nor actions change |
| Engine.LiveRun.ConfirmEmpty | src/lexwatt/engine.py:628-630 | Containment is only reported empty on a drained run |
| Engine.LiveRun.FinalizeNow | src/lexwatt/engine.py:713-717 | One finalising step: FAILED for the fault reasons, COMPLETED for ROOT_EXIT, KILLED otherwise |
| Engine.LiveRun.CheckDeadline | src/lexwatt/engine.py:606-611 | A stop past the kill deadline becomes unconfirmed |
| Engine.LiveRun.StopProgress | src/lexwatt/engine.py:601-632 | Drain before finalise: a stopping run whose control group is seen empty is drained and ended as its reason says; any other keeps its actions and is unconfirmed exactly past the kill deadline, counted from the latch |
| Engine.LiveRun.Tick | src/lexwatt/engine.py:418-468 | After a tick a run that was running is stopped for ROOT_EXIT exactly if its root was seen to exit, for WALL_CAP exactly if not and the budget of wall time is used up, and for a sensor or energy reason only by this tick's sample; a tick that leaves it running swept its tokens last, at its clock reading; a stopping run ends exactly if its control group is seen empty, drained and in the phase its reason decides, and becomes unconfirmed exactly past the kill deadline; a run that is being stopped has been killed |
| Engine.LiveRun.StopIfDue | src/lexwatt/engine.py:433-447 | The root process is looked at exactly if the run is running and has one. An exit stops a running run for ROOT_EXIT in three steps; otherwise the run is stopped for WALL_CAP and killed if and only if the wall time since the start has reached the budget; otherwise nothing changes |
| Engine.LiveRun.SweepTokens | src/lexwatt/engine.py:462-465 | One sweep step at the tick's time |
| Engine.LiveRun.Dispatch | src/lexwatt/engine.py:772-817 | The reply and the ledger are those of the operation the request amounts to |
| Engine.LiveRun.DispatchWork | src/lexwatt/engine.py:855-901 | The same for requests that need a fresh identifier: signature checks first, then the operation |
| Engine.LiveRun.Serve | src/lexwatt/engine.py:737-764 | The reply is the answer of the transition system and the history grows by exactly this request |
| Engine.LiveRun.Handle | src/lexwatt/engine.py:737-770 | The reply is that answer; afterwards no effect is pending, and a run that the request stopped has been killed |
| Engine.LiveRun.Execute | src/lexwatt/engine.py:903-942 | The committed effect is released exactly once, in its turn; afterwards its action is resolved, or its child was started and is being watched |
| Engine.LiveRun.ExportBundle | src/lexwatt/engine.py:1047-1052 | Whenever it is called, the exported bundle verifies under the run's key |
| Engine.Launch | src/lexwatt/engine.py:1158-1167 | The budget gate refuses exactly when an energy cap is set and does not exceed the reserve; otherwise the run is created and begun |
| Replay.ReplayEvents | src/lexwatt/replay.py:45-104 | The loop with three dictionaries returns the phase of the stream's run, or the error exactly when some step is illegal |
| Replay.TsReplayEvents | ts/src/replay.ts:47-98 | The same for the second implementation with its own table and set of denied requests |
| Replay.RejectedPrefix | src/lexwatt/replay.py:45-104 | Every prefix of an accepted stream is accepted |
| Replay.RunAppend | src/lexwatt/replay.py:45-104 | Replaying an extended journal is replaying the old part and then the new events |
| Streams.TokenSettledOnce | src/lexwatt/replay.py:69-76 | In every stream the checker accepts, whatever its numbering and payloads, a token is spent or expired at most once and never both, and never issued again |
| Streams.ActionResolvedOnce | src/lexwatt/replay.py:80-88 | An action resolves at most once and is never dispatched again |
| Streams.NothingAdmittedAfterStop | src/lexwatt/replay.py:12-32 | At most one StopLatched, and no token, spend or reservation event after it |
| Streams.NothingFollowsTheEnd | src/lexwatt/replay.py:99-104 | A terminal event is the last of its stream |
| Streams.CompleteIffTerminal | src/lexwatt/verify.py:79-80 | The last event ends the run exactly when the replayed phase is terminal |
| Streams.CreatedOnlyFirst | src/lexwatt/replay.py:55-60 | RunCreated is the first event and no other |
| Streams.AfterAdvances | src/lexwatt/replay.py:34-42 | Along an accepted stream the phase rank never falls and settled records never change |
| Checkers.CheckersMeetIff | ts/src/replay.ts:8-98 | For every stream of consecutive, well-typed bodies: the first checker accepts it and no request id is denied twice, if and only if the second checker accepts it, it begins with RunCreated, observes faults only after the stop, and dispatches no action id twice; the phases are then the same |
| Checkers.PythonAgreesIff | ts/src/replay.ts:57-73 | Of the streams the second checker accepts, the first accepts exactly those that meet the three conditions, with the same phase |
| Checkers.CheckersAgreeIff | ts/src/replay.ts:89-92 | Of the streams the first checker accepts, the second accepts exactly those that deny no request id twice, with the same phase |
| Checkers.TsTakesNoBeginning | ts/src/replay.ts:57-62 | Difference one: a stream that does not begin with RunCreated, accepted by the second checker and refused by the first |
| Checkers.TsTakesEarlyFault | ts/src/replay.ts:24 | Difference two: a fault observed before any stop, for every reason |
| Checkers.TsTakesRepeatedAction | ts/src/replay.ts:70-73 | Difference three: two tokens spent for one action id, for all tokens and ids |
| Findings.GenuineStreamRefused | ts/src/replay.ts:89-92 | For any two different principals, the owner and a channel or two channels, and any one request id under which both are denied, whatever the host contributes: a legal run with distinct event ids whose own journal the first checker accepts and the second refuses |
| Findings.OwnerAndChannel | ts/src/replay.ts:89-92 | The same for the owner and any one channel that use one request id |
| Findings.TsFollowsRunIff | ts/src/replay.ts:47-98 | For every run: the second checker follows it to the live phase exactly when no request id was denied twice |
| Findings.RejectionAfterStart | src/lexwatt/core.py:491-498 | Whatever the host contributes, a rejection after RunStarted is a legal step of every setup that changes nothing: the run stays RUNNING and its journal as it was |
| Audit.AppendEvents | src/lexwatt/engine.py:133-157 | The loop numbers, links, hashes and signs the events one after the other |
| Audit.AppendChained | src/lexwatt/engine.py:133-157 | Appending with a clock that does not run backwards keeps the journal chained and appends exactly the events |
| Audit.VerifyBundle | src/lexwatt/verify.py:18-90 | The successive loops return exactly the verdict: the first failing stage, or the report |
| Audit.AcceptedIff | src/lexwatt/verify.py:20-90 | Verifier soundness and completeness: a bundle is accepted if and only if it is within the limits, each entry's hash recomputes, the last pin with its key id verifies its signature, number, link, run, key and time are in order, its events replay, it ends in the expected head if there is one, and it is complete if it has to be; and the report says what last entry and replay say |
| Audit.RefusedAs | src/lexwatt/verify.py:20-84 | Each refusal has exactly its cause: limits, some hash, some unknown key, some signature, the chain or the expected head, the transitions, or completeness, the first that applies |
| Audit.KeyMapIsLast | src/lexwatt/verify.py:36 | The key of an id is that of the last pin with this id |
| Audit.CheckLinks | src/lexwatt/verify.py:46-64 | The loop accepts exactly the linked chains of one run and one key in time order |
| Audit.VerdictComplete | src/lexwatt/verify.py:79-90 | The report on any bundle that verifies, with payloads of the schema's value sets, is complete if and only if the phase it names is terminal |
| Audit.ChainedVerifies | src/lexwatt/verify.py:28-90 | Every chained journal whose events replay verifies under a pin of its key |
| Audit.SameHeadSameHistory | src/lexwatt/verify.py:69-76 | Tamper evidence: two bundles that verify with the same head carry the same bodies, or walking their links backwards exhibits two different bodies with one hash |
| Audit.WalkBack | src/lexwatt/verify.py:46-64 | The walk itself, over two linked and hashed chains of equal length |
| Audit.ExpectedHeadMet | src/lexwatt/verify.py:69-76 | A pinned head is only met by a bundle that ends in it and has its length |
| Metering.RaplExact | src/lexwatt/meter.py:21-41 | Under the power assumption a difference is computed exactly when the interval is not stale and too short to wrap, and then it is the true draw across any wraparound |
| Metering.SumReserve | src/lexwatt/meter.py:44-51 | The accumulating loop computes the reserve |
| Metering.PassAccounts | src/lexwatt/engine.py:478-507 | One pass over the domains counts exactly the true draw by which it moved their latest readings, also when it stops half way |
| Estimator.NeverOverflows | src/lexwatt/estimator.py:60-77 | An estimate exists exactly within the dimension checks, OVERFLOW is never raised, and the two formulas agree |
| Estimator.EstimateIsExact | src/lexwatt/estimator.py:25-90 | An estimate exists exactly within the numeric bounds, and the charge is the exact cost, two operations per parameter and token and four per layer, hidden unit and pair of tokens, times the safety factor, rounded up |
| Estimator.ChargeDependsOnTotal | src/lexwatt/estimator.py:49-57 | The charge depends on input and output only through their sum |
| Estimator.ChargeMonotone | src/lexwatt/estimator.py:49-57 | The charge is monotone in every parameter and at least base plus attention |
| Estimator.ObservedWithinCharge | src/lexwatt/estimator.py:80-104 | Fewer output tokens than reserved never cost more than the reservation |
| Canonical.WireRoundTrip | src/lexwatt/jcs.py:85-89 | loads(dumps(v)) is v, with sorted keys, exactly when v's integers are within 2147483647 and it nests at most 32 deep; otherwise it is rejected |
| Canonical.RoundTripIff | src/lexwatt/jcs.py:321-332 | The same for every limit on nesting and integers |
| Canonical.CanonicalIff | src/lexwatt/jcs.py:69-80 | Two printable values have the same bytes if and only if they are equal, whatever the insertion order of their dictionaries |
| Canonical.LoadsIdempotent | src/lexwatt/jcs.py:321-332 | For every accepted text, printing and reading again gives an equal value and the same bytes |
| Canonical.LoadedIsGood | src/lexwatt/jcs.py:270-318 | Whatever is accepted has unique keys, no surrogates, and is within the limits |
| Spelling.CanonicalTextIff | src/lexwatt/jcs.py:321-332 | Of the texts the parser accepts, under any limits, the printer gives back unchanged exactly those without white space and negative zero outside strings, without an escape the printer would not write, and with the keys of every object strictly increasing |
| Spelling.WireCanonicalIff | src/lexwatt/jcs.py:3-10 | The same of the texts of the wire |
| Spelling.AnyKeyOrderAccepted | src/lexwatt/jcs.py:276-301 | Every printable value within the limits is accepted with its keys in any order, and is canonical exactly if they are sorted |
| Spelling.SpaceAccepted | src/lexwatt/jcs.py:116-126 | Every such value is accepted after white space, which is never canonical |
| Spelling.NegativeZeroAccepted | src/lexwatt/jcs.py:158-178 | Negative zero is accepted and not canonical |
| Spelling.SlashEscapeAccepted | src/lexwatt/jcs.py:197-198 | An escaped slash is accepted and not canonical |
| Spelling.CodeEscapeAccepted | src/lexwatt/jcs.py:209-210 | A letter given by its code is accepted and not canonical |
| Spelling.ValueSpelled | src/lexwatt/jcs.py:128-151 | Tidy text that is read as a value is exactly that value's text followed by what was left |
| Spelling.PrintedKeeps | src/lexwatt/jcs.py:51-82 | What the printer writes is tidy |
| Spelling.SortedIsCanon | src/lexwatt/jcs.py:69-80 | A printable value is its own canonical form exactly if the keys of all its objects are sorted |
| JsonRoundTrip.PrintedReads | src/lexwatt/jcs.py:128-151 | A printed value followed by any text that cannot continue a number is parsed back and exactly that value's bytes are consumed |
| JsonRoundTrip.QuoteReads | src/lexwatt/jcs.py:180-221 | The same for quoted strings with all escapes, whatever follows |
| JsonRoundTrip.NumberReads | src/lexwatt/jcs.py:158-178 | The same for integers |
| JsonPrinter.Printer.EscapeString | src/lexwatt/jcs.py:24-48 | Appends the quoted string, or fails exactly on a surrogate |
| JsonPrinter.Printer.Write | src/lexwatt/jcs.py:51-82 | Appends the canonical text, or fails exactly when some string or key has a surrogate |
| JsonPrinter.DumpBytes | src/lexwatt/jcs.py:85-89 | The UTF-8 bytes of the canonical text, or the error |
| JsonPrinter.SortCanon | src/lexwatt/jcs.py:71-79 | Sorting the keys commutes with making the values canonical |
| JsonReader.Parser.ReadValue | src/lexwatt/jcs.py:128-151 | Returns and consumes exactly what the parsing function does on the rest of the data, at every depth |
| JsonReader.Parser.ReadMembers | src/lexwatt/jcs.py:276-301 | The same for the members loop with its duplicate check |
| JsonReader.Parser.ReadItems | src/lexwatt/jcs.py:303-318 | The same for the items loop |
| JsonReader.Parser.ReadString | src/lexwatt/jcs.py:180-221 | The same for strings |
| JsonReader.Parser.ReadUEscape | src/lexwatt/jcs.py:223-248 | The same for u escapes and surrogate pairs |
| JsonReader.Parser.ReadUtf8Char | src/lexwatt/jcs.py:250-268 | The same for one multi-byte character |
| JsonReader.Parser.ReadNumber | src/lexwatt/jcs.py:158-178 | The same for numbers |
| JsonReader.LoadBytes | src/lexwatt/jcs.py:321-332 | The parser object decides exactly the function `Loads` |
| Json.CanonEqualIff | src/lexwatt/jcs.py:69-80 | Canonical forms are equal exactly when the values are equal as Python dictionaries and lists |
| Json.SortKeeps | src/lexwatt/jcs.py:71 | Sorting loses and adds nothing |
| Json.SortSorts | src/lexwatt/jcs.py:71 | Distinct encodable keys come out strictly increasing |
| Json.SortedUnique | src/lexwatt/jcs.py:71 | A strictly sorted member list is determined by its members |
| Unicode.ByteOrderIsUnitOrder | src/lexwatt/jcs.py:20-21 | Comparing big-endian UTF-16 bytes is comparing UTF-16 code units, the order of section 3.2.3 of RFC 8785 |
| Unicode.DecodeEncodedOne | src/lexwatt/jcs.py:250-268 | Strict UTF-8 decoding undoes encoding for every scalar value, whatever follows |
| Hashing.SameDigest | src/lexwatt/hashing.py:24-25 | Equal values hash alike under a label; two values that hash alike under two labels are equal under one label, or their frames are an explicit collision |
| Hashing.FrameInjective | src/lexwatt/hashing.py:24-25 | A label free of zero bytes, a zero byte and a payload determine label and payload |
| Hashing.DomainsSeparate | src/lexwatt/hashing.py:12-17 | No bytes framed in one of the six domains are ever framed in another |
| Routing.ChooseRoute | src/lexwatt/core.py:510-537 | More than 32 models are an error; otherwise the result is an affordable model that no affordable model beats by cost and then by id, or none exactly when none is affordable |
| Routing.BestIsUnique | src/lexwatt/core.py:531-534 | The choice does not depend on the order of the catalogue |
| Topology.CheckTopology | src/lexwatt/meter.py:71-94 | Accepts exactly when the ids are distinct, no selected domain has a selected proper ancestor, and the CPU sets are disjoint |
| Topology.SelectedAbove | src/lexwatt/meter.py:76-85 | The climb ends on cyclic parent maps and finds a selected ancestor exactly when there is one at any distance |
| CpuLists.CpulistToSet | src/lexwatt/host/linux.py:65-73 | The loop returns the union of the parts' intervals, or fails exactly on an unreadable part |
| CpuLists.DomainCpus | src/lexwatt/engine.py:1055-1074 | If every list can be read, the result reads back as exactly the union of all lists and its ranges are maximal; no CPUs give the empty text |
| CpuLists.MaximalUnique | src/lexwatt/engine.py:1064-1074 | A set of CPUs has exactly one list of maximal ranges |
| CpuLists.RenderReads | src/lexwatt/host/linux.py:65-73 | A written list of ranges reads back as these ranges |
| CpuLists.EmptyIsUnreadable | src/lexwatt/host/linux.py:65-73 | The empty text, which stands for no CPUs, cannot itself be read |

## Left out

- SQLite, files, sockets, threads, processes, namespaces and control-group files: foreign calls. The journal is a sequence, the request table a map, and the host's answers are arbitrary inputs.
- Failed commits and reopened runs: the reducer is not rolled back with the transaction, so the results are about one supervisor lifetime in which commits succeed. A commit that fails because the charged total left the range of quantities ends the model (`Engine.LiveRun.Serve` says when). So does one that draws an event id, or hashes an event body to a value, already in the journal: the first is excluded by `Legal`, the second is a collision of the hash.
- The launch manifest, workspace lease and task user: written or taken by `arm` for other components; a failure to write the manifest after the root was released is not modelled.
- SHA-256, Ed25519 and base64: uninterpreted functions; the hash of an event body is a function of the body, not of its JSON text.
- The field-by-field validators of `schema.py` and `scalars.py`: a request that fails them is a `Malformed` request with its method, its parameters and the code they raise; the bundle schema is represented only by the value sets of two payload fields.
- Event payload fields no checker or fold reads: budgets, models and coverage of RunStarted, the energy, coverage and time fields of RunFinalized, and the gap field of samples.
- A well-formed `events.read` and the projection rows: reads of committed data. The stored phase used by the rebuild is a parameter.
- Receipts.Rebuild: the rebuilt start time and the coverage flags of energy are not modelled; the fold covers everything else `_rebuild` restores.
- RunCores.RunCore.FinalizeRun: the energy, coverage and time fields of the RunFinalized payload are not modelled, because no checker or fold reads them and the engine never writes the reducer's energy.
- Audit.VerifyBundle: of step 1, the schema check of the bundle, only the size limits and the value sets of two payload fields are modelled.
- Engine.Launch: of `run_start`, the refusals for an unsupported profile, catalogue digests and a conflict in the launch index are not modelled.
- seccomp filters, containment, sandbox, recovery, redaction, units, configuration, command line, SDKs and the TypeScript verifier: single decisions, input and output, or mirrors.
- Readings of a sample are listed in the order of the domains, which the engine opens in sorted order; sorting them again is not modelled.
- Engine.LiveRun.ReadPass: the host's answers to one pass are drawn before the loop over the domains; answers after a failed check go unused.
- Engine.LiveRun.ReleaseRoot: the code of a failed spawn is not modelled, because the rejection it is passed to has no effect after RunStarted.
- Engine.LiveRun.Tick: a clock beyond 2^63 seconds is not modelled, because the host's clock cannot show it; a token's expiry therefore never leaves the range of quantities.
- Engine.LiveRun.StopProgress: while a control group stays populated the source tries the kill again; these attempts leave no event and are not modelled.
- JsonReader.Parser.ReadUEscape: exactly four hexadecimal digits; Python's integer conversion also takes signs, white space and underscores in these four places.
- CpuLists.CpulistToSet: parts are decimal digits; other spellings of integers that Python accepts are refused by the host policy's own pattern.
- Printing of values that are no JSON values, and keys that are no strings: the value type has none.
- Any failure of the parser is one rejection; the index error it raises at the end of input is not told apart.
