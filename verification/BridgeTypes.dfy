/** The data of the Proton Bridge controller (deploy/proton-worker/controller.py) and of the world it
    runs in. Operation, user, generation, lease and snapshot IDs are opaque: they are numbers here,
    ordered as their texts sort. */
module BridgeTypes {
  import opened Wrappers
  import opened Dicts

  type OpId = nat
  type UserId = nat
  type Generation = nat
  type LeaseId = nat
  type SnapshotId = nat
  type Email = string

  const REMOVAL_RETRY_SECONDS := 120
  const MAX_REMOVAL_RECOVERIES := 2
  const MAX_RECONCILE_FAILURES := 5
  const RECONCILE_BACKOFF_CAP := 60
  const RECOVERY_BACKOFF_CAP := 300
  const CANCELLED_LEASES_KEPT := 4096

  /** Lower case of an address; only ASCII letters have one here. */
  function Lower(e: Email): Email {
    seq(|e|, i requires 0 <= i < |e| => if 'A' <= e[i] <= 'Z' then e[i] - 'A' + 'a' else e[i])
  }

  predicate SafeEmail(e: Email) {
    '@' in e && |e| <= 320
  }

  function Min(a: nat, b: nat): nat {
    if a < b then a else b
  }

  function Pow2(k: nat): (r: nat)
    ensures r >= 1
  {
    if k == 0 then 1 else 2 * Pow2(k - 1)
  }

  datatype OpState =
    | Starting | Authenticating | Needs2fa | NeedsSecondPassword | Checking
    | Connected | Failed | Cancelled | Expired

  /** ACTIVE_STATES. */
  predicate Active(st: OpState) {
    st.Starting? || st.Authenticating? || st.Needs2fa? || st.NeedsSecondPassword? || st.Checking?
  }

  /** TERMINAL_STATES without connected. */
  predicate Ended(st: OpState) {
    st.Failed? || st.Cancelled? || st.Expired?
  }

  datatype ErrorCode =
    | InvalidCredentials | VerificationRequired | LoginFailed | InvalidChallenge | AddressMismatch
    | Unavailable | MaintenanceBusy | OperationConflict | LoginBusy | NotFound | NotConnected
    | GenerationMismatch | InvalidRequest | LeaseCancelled | SnapshotBusy

  datatype Operation = Operation(
    id: OpId, email: Email, state: OpState, userId: Option<UserId>, createdByAttempt: bool,
    errorCode: Option<ErrorCode>, createdAt: nat, endedAt: Option<nat>, committed: bool,
    preexisting: set<UserId>, reconcile: bool, splitRequested: bool)

  function NewOperation(id: OpId, email: Email, now: nat, preexisting: set<UserId>): Operation {
    Operation(id, email, Authenticating, None, false, None, now, None, false, preexisting, false, false)
  }

  datatype LinkKey = LinkKey(user: UserId, address: Email)
  datatype Link = Link(user: UserId, email: Email, generation: Generation)

  datatype Reason = Unlink | Attempt
  datatype Removal = Removal(reason: Reason, since: nat, recoveries: nat, stuck: bool)

  datatype Challenge = TwoFactor | SecondPassword

  /** What _persist writes: no times, no split request, of a removal only its reason. */
  datatype Journal = Journal(ops: Dict<OpId, Operation>, links: map<LinkKey, Link>, reasons: map<UserId, Reason>)

  /** Constructor arguments. */
  datatype Config = Config(recoverySeconds: nat, ttl: nat, snapshotWait: nat, snapshotTtl: nat)

  /** Send leases and the snapshot gate. sealed is history: a snapshot_begin drained this gate and stopped
      Bridge under it. */
  datatype Gate = Gate(leases: set<LeaseId>, cancelled: seq<LeaseId>, snapshot: Option<SnapshotId>,
                       expiresAt: nat, sealed: bool)

  /** Process flags and timers. restarted is the local variable ok of a running _recover. */
  datatype Proc = Proc(started: bool, nativeLost: bool, recovering: bool, restarted: Option<bool>, closed: bool,
                       nextStartAt: nat, reconcileFailures: nat, nextReconcileAt: nat, recoveryStreak: nat,
                       lastRecoveryAt: Option<nat>, nextRecoveryAt: nat)

  /** The sign-in Bridge is working on: none, one that has created no user (yet), one that has created a
      user and not reported it. */
  datatype Login = Idle | Running | Made(user: UserId)

  datatype UserInfo = UserInfo(id: UserId, addresses: seq<Email>, connected: bool, split: bool)

  /** Whether the worker lives through a native call: it may die before the call is made, or after it was
      made and before its answer is used. */
  datatype Crash = Survives | BeforeCall | InCall

  /** What Bridge does around one native call, and its answer: dt seconds pass, users asked to go may go,
      the running sign-in may create a user, the process may die, the call succeeds or fails, and the worker
      may die. A failed call may still have taken effect. */
  datatype Answer = Answer(ok: bool, dt: nat, gone: set<UserId>, born: Option<UserId>, dies: bool,
                           info: UserInfo, mismatch: bool, crash: Crash)

  /** History of the native calls that matter, each with what held when it was made. */
  datatype Call =
    | CalledLogin(op: OpId, journaled: bool, busy: bool)
    | CalledRemove(user: UserId, linked: bool, held: bool, newly: bool)

  /** The world: the clock, Bridge (process, users, users created by sign-ins, users ever asked to go, the
      running sign-in), the answers it will give, whether the worker has died, and history: calls made,
      failed restarts and listings, whether a user was ever lost sight of, the last tick. */
  datatype Env = Env(clock: nat, running: bool, users: set<UserId>, made: set<UserId>, asked: set<UserId>,
                     login: Login, tape: seq<Answer>, dead: bool, calls: seq<Call>, fails: nat, slipped: bool,
                     lastTick: nat)

  datatype State = State(cfg: Config, ops: Dict<OpId, Operation>, links: map<LinkKey, Link>,
                         pending: Dict<UserId, Removal>, slot: Option<OpId>,
                         gate: Gate, proc: Proc, disk: Journal, env: Env)

  datatype LoginErrorCode = TfaError | TwoPasswordsError | BadPassword | Verification | OtherError

  datatype Event =
    | NeedsTwoFactorEvent | NeedsSecondPasswordEvent | LoginErrorEvent(code: LoginErrorCode)
    | HumanVerificationEvent | FinishedEvent(user: Option<UserId>) | AlreadyLoggedInEvent(user: Option<UserId>)
    | UserChangedEvent(changed: UserId) | StreamEndedEvent | NoKeychainEvent

  /** Answers of the worker's RPCs. */
  datatype Reply =
    | Accepted | Unlinked | Removing | Removed | Released(held: bool) | EndedGate(ended: bool)
    | Draining | Refused(error: ErrorCode)
}
