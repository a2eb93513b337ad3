/** The controller and its world as a state machine: the critical sections as steps, in any order, with
    whatever Bridge answers. */
module BridgeMachine {
  import opened Wrappers
  import opened Dicts
  import opened BridgeTypes
  import opened BridgeSpec

  datatype Step =
    | World(turn: Answer)
    | DoBoot
    | DoStart(id: OpId, email: Email, password: string)
    | DoContinue(id: OpId, challenge: Challenge, secret: string)
    | DoCancel(id: OpId)
    | DoCommit(id: OpId, user: UserId, generation: Generation, previous: Option<Generation>)
    | DoCredentials(user: UserId, attempt: Option<OpId>, current: Option<Generation>, email: Email)
    | DoRemove(user: UserId, generation: Generation, email: Email)
    | DoAcquire(lease: LeaseId)
    | DoRelease(lease: LeaseId)
    | DoBegin(snapshot: SnapshotId)
    | DoDrainRound(snapshot: SnapshotId, deadline: nat)
    | DoEnd(snapshot: SnapshotId)
    | DoRenew(snapshot: SnapshotId)
    | DoTick
    | DoRecoverNative
    | DoRecoverFinish
    | Deliver(event: Event)
    | DoShutdown
    | Reload

  /** Events Bridge can send now. One sign-in sends nothing after its terminal event, reports the user it
      created, and reports an existing user only while that user exists. */
  predicate CanSend(e: Env, ev: Event) {
    match ev
    case NeedsTwoFactorEvent => e.login.Running?
    case NeedsSecondPasswordEvent => e.login.Running?
    case LoginErrorEvent(_) => e.login.Running?
    case HumanVerificationEvent => e.login.Running?
    case FinishedEvent(user) =>
      if user.None? then !e.login.Idle? else e.login == Made(user.value) || (e.login.Running? && user.value in e.users)
    case AlreadyLoggedInEvent(user) => e.login.Running? && (user.Some? ==> user.value in e.users)
    case UserChangedEvent(_) => true
    case StreamEndedEvent => true
    case NoKeychainEvent => true
  }

  /** After its terminal event the sign-in is over in Bridge. */
  predicate Terminal(ev: Event) {
    match ev
    case LoginErrorEvent(code) => !code.TfaError? && !code.TwoPasswordsError?
    case FinishedEvent(_) => true
    case AlreadyLoggedInEvent(_) => true
    case _ => false
  }

  function Delivered(s: State, ev: Event): State {
    if !CanSend(s.env, ev) then s
    else OnEvent(if Terminal(ev) then s.(env := s.env.(login := Idle)) else s, ev)
  }

  /** The worker dies, if it has not died yet, Bridge with it, and a new worker reads the journal. */
  function Reloaded(s: State): State {
    Noted(Loaded(s.cfg, s.disk, s.env.(running := false, login := Idle, dead := false)))
  }

  /** A dead worker does nothing until the next one takes over. */
  function Apply(s: State, step: Step): State {
    if s.env.dead && !step.Reload? then s else
    match step
    case World(turn) => Turn(s, turn)
    case DoBoot => Boot(s).0
    case DoStart(id, email, password) => StartConnection(s, id, email, password).0
    case DoContinue(id, challenge, secret) => ContinueConnection(s, id, challenge, secret).0
    case DoCancel(id) => CancelConnection(s, id).0
    case DoCommit(id, user, generation, previous) => CommitConnection(s, id, user, generation, previous).0
    case DoCredentials(user, attempt, current, email) => Credentials(s, user, attempt, current, email).0
    case DoRemove(user, generation, email) => RemoveUser(s, user, generation, email).0
    case DoAcquire(lease) => AcquireLease(s, lease).0
    case DoRelease(lease) => ReleaseLease(s, lease).0
    case DoBegin(snapshot) => SnapshotBegin(s, snapshot).0
    case DoDrainRound(snapshot, deadline) => DrainRound(s, snapshot, deadline).0
    case DoEnd(snapshot) => SnapshotEnd(s, snapshot).0
    case DoRenew(snapshot) => SnapshotRenew(s, snapshot).0
    case DoTick => Tick(s)
    case DoRecoverNative => RecoverNative(s)
    case DoRecoverFinish => RecoverFinish(s)
    case Deliver(event) => Delivered(s, event)
    case DoShutdown => Shutdown(s)
    case Reload => Reloaded(s)
  }

  /** One step with the answers Bridge gives to its native calls. */
  datatype Move = Move(step: Step, tape: seq<Answer>)

  function Do(s: State, m: Move): State {
    Apply(s.(env := s.env.(tape := m.tape)), m.step)
  }

  function Run(s: State, moves: seq<Move>): State
    decreases |moves|
  {
    if moves == [] then s else Do(Run(s, moves[..|moves| - 1]), moves[|moves| - 1])
  }

  const EMPTY_JOURNAL := Journal(Dict([], map[]), map[], map[])

  /** A worker without a journal, at any time, over a Bridge with any users. */
  function Init(cfg: Config, clock: nat, users: set<UserId>): State {
    Loaded(cfg, EMPTY_JOURNAL, Env(clock, false, users, {}, {}, Idle, [], false, [], 0, false, clock))
  }
}
