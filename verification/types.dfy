/** Vocabulary shared by the ledger, the audit log and the verifier. */
module Types {

  datatype Option<+T> = None | Some(value: T)

  datatype Result<+T, +E> = Ok(value: T) | Err(error: E)

  type Id = string
  type Hash = string

  /** The `prev_hash` of the first event: 64 zero digits. */
  const ZERO_HASH: Hash := "0000000000000000000000000000000000000000000000000000000000000000"

  /** Largest resource quantity, 2^127 - 1. */
  const U_MAX: nat := 0x7FFF_FFFF_FFFF_FFFF_FFFF_FFFF_FFFF_FFFF

  /** Readings of the boot-time clock, in microseconds since the run's origin. The host clock counts
      signed 64-bit seconds, so adding a token's lifetime never leaves the range of a quantity. */
  const CLOCK_END: nat := 0x8000_0000_0000_0000 * 1_000_000
  type Time = t: nat | t < CLOCK_END

  datatype Code =
    | INVALID_INPUT | UNKNOWN_FIELD | UNSUPPORTED_MODEL | UNAUTHORIZED | NOT_FOUND | CONFLICT
    | FLOPS_CAP_REACHED | SPAWN_CAP_REACHED | ENVELOPE_EXCEEDED | SENSOR_FAULTED | OVERFLOW | STOPPED
    | TOKEN_EXPIRED | TOKEN_USED | TOKEN_BINDING | TOKEN_INVALID | ACTION_DENIED | ACTION_FAILED | BUSY
    | CONTAINMENT_FAULTED | INCOMPLETE | HASH_MISMATCH | SIGNATURE_INVALID | UNTRUSTED_KEY
    | CHAIN_INVALID | TRANSITION_INVALID | OTHER(name: string)

  datatype Reason =
    | ENERGY_GUARD | FLOPS_CAP | SPAWN_CAP | WALL_CAP | SENSOR_FAULT | AUDIT_FAULT | WATCHDOG_LOST
    | OPERATOR | SIGNAL | ROOT_EXIT | CONTAINMENT_FAULT | MEASUREMENT_OVERRUN | RESOURCE_LIMIT

  predicate IsFaultReason(r: Reason) {
    r in {SENSOR_FAULT, AUDIT_FAULT, WATCHDOG_LOST, CONTAINMENT_FAULT, RESOURCE_LIMIT}
  }

  datatype Phase =
    | CREATED | ARMING | RUNNING | STOPPING | UNCONFIRMED | FINALIZING
    | REJECTED | COMPLETED | KILLED | FAILED

  predicate Terminal(p: Phase) {
    p in {REJECTED, COMPLETED, KILLED, FAILED}
  }

  predicate Live(p: Phase) {
    p in {CREATED, ARMING, RUNNING, STOPPING, UNCONFIRMED}
  }

  /** The life cycle never goes back to a lower rank. */
  function Rank(p: Phase): nat {
    match p
    case CREATED => 0
    case ARMING => 1
    case RUNNING => 2
    case STOPPING => 3
    case UNCONFIRMED => 4
    case FINALIZING => 5
    case _ => 6
  }

  datatype TokenState = ISSUED | EXPIRED | SPENT
  datatype ActionState = DISPATCHED | SUCCEEDED | ACTION_HAS_FAILED | UNKNOWN
  datatype ComputeState = CHARGED | FINISHED

  datatype Exit = Exited(code: int) | Signalled(signal: int)

  datatype ActionKind = SPAWN | HTTP_GET

  /** A requested effect. `env` stands for the fields no decision looks at. */
  datatype Action =
    | Spawn(argv0: string, cwd: string, env: string)
    | HttpGet(origin: string, path: string, maxResponseBytes: int)
  {
    function Kind(): ActionKind {
      if Spawn? then SPAWN else HTTP_GET
    }
  }

  datatype ActionResult =
    | SpawnResult(exit: Exit)
    | HttpResult(status: int, bodyHash: Hash)

  /** The audit line of a resolved action: no argument, environment or body. */
  datatype Audit = Audit(actionId: Id, state: ActionState, kind: ActionKind, rootExit: Option<Exit>,
                         httpStatus: Option<int>, bodyHash: Option<Hash>, error: Option<Code>)

  datatype Work = Work(modelId: Id, inputTokens: int, maxOutputTokens: int, batch: int)

  datatype Reservation = Reservation(computeId: Id, work: Work, charged: nat, state: ComputeState,
                                     observedTokens: Option<nat>, observedFlops: Option<nat>)

  datatype Reading = Reading(counter: int, range: int, t: int)
  datatype Sample = Sample(index: nat, t: int, cpu: int, readings: seq<Reading>, delta: nat, total: nat)

  datatype TokenBody = TokenBody(keyId: Id, tokenId: Id, runId: Id, channelId: Id, actionHash: Hash,
                                 issuedUs: nat, expiresUs: nat, issueSeq: nat)
  datatype Token = Token(body: TokenBody, sig: string)

  datatype Event =
    | RunCreated(configHash: Hash)
    | RunArming
    | RunStarted(baseline: Sample)
    | RunRejected(code: Code)
    | SampleRecorded(sample: Sample)
    | ComputeReserved(reservation: Reservation)
    | ComputeFinished(reservation: Reservation)
    | TokenIssued(body: TokenBody, kind: ActionKind)
    | TokenExpired(tokenId: Id)
    | TokenSpent(tokenId: Id, actionId: Id)
    | ActionFinished(action: Audit)
    | ActionUnknown(actionId: Id, code: Code)
    | RequestDenied(requestId: Id, code: Code)
    | StopLatched(reason: Reason)
    | FaultObserved(reason: Reason)
    | KillIssued(cgroupAttempted: bool, groupAttempted: bool)
    | KillUnconfirmed(elapsedUs: int)
    | ContainmentEmpty(finalSample: Option<Sample>, rootExit: Option<Exit>)
    | RunFinalized(phase: Phase, charged: nat, spawnIssued: nat, rootExit: Option<Exit>,
                   stopReason: Reason, killLatencyUs: int)

  /** The value sets the bundle schema enforces on the two payloads that carry a state. */
  predicate WellTyped(e: Event) {
    match e
    case ActionFinished(a) => a.state in {SUCCEEDED, ACTION_HAS_FAILED}
    case RunFinalized(p, _, _, _, _, _) => p in {COMPLETED, KILLED, FAILED}
    case _ => true
  }

  datatype Body = Body(runId: Id, eventId: Id, keyId: Id, seqNo: int, prevHash: Hash, t: int, event: Event)
  datatype Entry = Entry(body: Body, hash: Hash, sig: string)

  type Seed = string
  type PublicKey = string

  /** SHA-256 and Ed25519 as uninterpreted functions. The only law ever used of them is `Sound`. */
  datatype Crypto = Crypto(actionHash: Action -> Hash, bodyHash: Body -> Hash, tokenMessage: TokenBody -> Hash,
                           publicKey: Seed -> PublicKey, sign: (Seed, Hash) -> string,
                           verify: (PublicKey, Hash, string) -> bool)
  {
    /** A signature made with a seed verifies under that seed's public key. */
    ghost predicate Sound() {
      forall seed: Seed, h: Hash :: verify(publicKey(seed), h, sign(seed, h))
    }
  }
}
