/** The controller as functions on its state: what every critical section of BridgeController computes.
    The class in BridgeController.dfy is proved to compute exactly these; the properties are proved here. */
module BridgeSpec {
  import opened Wrappers
  import opened Dicts
  import opened BridgeTypes

  // ---- what is read off a state -------------------------------------------------------------------

  predicate HasLink(links: map<LinkKey, Link>, u: UserId) {
    exists k | k in links :: k.user == u
  }

  predicate Linked(s: State, u: UserId) {
    HasLink(s.links, u)
  }

  predicate AnyFlagged(ops: map<OpId, Operation>) {
    exists id | id in ops :: ops[id].reconcile
  }

  predicate ReconcilePending(s: State) {
    AnyFlagged(s.ops.at)
  }

  predicate NeedsBridge(s: State) {
    s.links != map[] || s.pending.at != map[] || ReconcilePending(s)
  }

  predicate Alive(s: State) {
    s.proc.started && !s.proc.nativeLost && s.env.running
  }

  predicate LiveAttemptRemoval(s: State) {
    exists u | u in s.pending.at :: s.pending.at[u].reason.Attempt? && !s.pending.at[u].stuck
  }

  /** What besides the slot keeps a sign-in from starting. */
  predicate BusyElsewhere(s: State) {
    s.proc.recovering || s.gate.snapshot.Some? || ReconcilePending(s) || LiveAttemptRemoval(s)
  }

  predicate Busy(s: State) {
    s.slot.Some? || BusyElsewhere(s)
  }

  function Holder(s: State): (h: Option<Operation>) {
    if s.slot.Some? && s.slot.value in s.ops.at then Some(s.ops.at[s.slot.value]) else None
  }

  predicate Finalizing(s: State, op: Operation) {
    op.state.Connected? && !op.committed && s.env.clock < op.createdAt + s.cfg.ttl
  }

  predicate HolderLive(s: State) {
    s.slot.Some? && (Holder(s).None? ||
      (Active(Holder(s).value.state) && s.env.clock < Holder(s).value.createdAt + s.cfg.ttl))
  }

  predicate LoginActive(s: State) {
    HolderLive(s) || s.proc.recovering ||
    (exists id | id in s.ops.at :: Finalizing(s, s.ops.at[id])) || LiveAttemptRemoval(s)
  }

  predicate Admitted(s: State, op: Option<Operation>) {
    s.gate.snapshot.None? || (op.Some? && Finalizing(s, op.value))
  }

  predicate Owns(info: UserInfo, u: UserId, email: Email) {
    info.id == u && exists a | a in info.addresses :: Lower(a) == Lower(email)
  }

  /** Uncommitted checking or connected attempt of user u. */
  predicate Holds(op: Operation, u: UserId) {
    op.userId == Some(u) && !op.committed && (op.state.Checking? || op.state.Connected?)
  }

  predicate HeldIn(ops: map<OpId, Operation>, u: UserId) {
    exists id | id in ops :: Holds(ops[id], u)
  }

  predicate Held(s: State, u: UserId) {
    HeldIn(s.ops.at, u)
  }

  // ---- the accounts of created users --------------------------------------------------------------

  /** Live uncommitted attempt that uses u. */
  predicate Heir(op: Operation, u: UserId) {
    op.userId == Some(u) && !op.committed && (Active(op.state) || op.state.Connected?)
  }

  /** A live uncommitted attempt must clean u up when it ends. */
  predicate OwnedIn(ops: map<OpId, Operation>, u: UserId) {
    exists id | id in ops :: Heir(ops[id], u) && ops[id].createdByAttempt
  }

  predicate Covered(ops: map<OpId, Operation>, links: map<LinkKey, Link>, pending: map<UserId, Removal>, u: UserId) {
    HasLink(links, u) || u in pending || OwnedIn(ops, u)
  }

  /** An attempt marked for reconciliation started before u was there. */
  predicate MarkedIn(ops: map<OpId, Operation>, u: UserId) {
    exists id | id in ops :: ops[id].reconcile && u !in ops[id].preexisting
  }

  /** The holder h of the slot started before u was there. */
  predicate SlotCovers(ops: map<OpId, Operation>, h: Option<OpId>, u: UserId) {
    h.Some? && h.value in ops && u !in ops[h.value].preexisting
  }

  predicate Counted(ops: map<OpId, Operation>, links: map<LinkKey, Link>, pending: map<UserId, Removal>,
                    h: Option<OpId>, u: UserId) {
    Covered(ops, links, pending, u) || MarkedIn(ops, u) || SlotCovers(ops, h, u)
  }

  /** Something in the controller accounts for user u. */
  predicate Accountable(s: State, u: UserId) {
    Counted(s.ops.at, s.links, s.pending.at, s.slot, u)
  }

  predicate Loses(s: State) {
    exists u | u in s.env.made :: !Accountable(s, u)
  }

  /** History: a user that a sign-in created and nothing accounts for any more is lost. */
  function Noted(s: State): State {
    if s.env.dead then s else s.(env := s.env.(slipped := s.env.slipped || Loses(s)))
  }

  // ---- the world ----------------------------------------------------------------------------------

  predicate Born(s: State, a: Answer) {
    a.born.Some? && s.env.running && s.env.login.Running? && a.born.value !in s.env.users - (a.gone * s.env.asked)
  }

  /** Bridge goes on by itself: time passes, users asked to go may go, the running sign-in may create a
      user, the process may die. */
  function Went(s: State, a: Answer): State {
    var e := s.env;
    var left := e.users - (a.gone * e.asked);
    var born := if Born(s, a) then {a.born.value} else {};
    s.(env := e.(clock := e.clock + a.dt,
                 running := e.running && !a.dies,
                 users := left + born,
                 made := e.made * left + born,
                 login := if a.dies then Idle else if Born(s, a) then Made(a.born.value) else e.login,
                 slipped := e.slipped || (Born(s, a) && !Accountable(s, a.born.value))))
  }

  /** The worker dies, Bridge with it; what is left of the section runs out without effect. */
  function Died(s: State): State {
    s.(env := s.env.(running := false, login := Idle, dead := true))
  }

  /** Bridge goes on, unless the worker dies first; it may die afterwards. */
  function Turn(s: State, a: Answer): State {
    if s.env.dead then s
    else if a.crash.BeforeCall? then Died(s)
    else if a.crash.InCall? then Died(Went(s, a))
    else Went(s, a)
  }

  const SILENT := Answer(false, 0, {}, None, false, UserInfo(0, [], false, false), false, Survives)

  function Next(s: State): Answer {
    if s.env.tape == [] then SILENT else s.env.tape[0]
  }

  function Popped(s: State): State {
    if s.env.tape == [] then s else s.(env := s.env.(tape := s.env.tape[1..]))
  }

  /** One native call of the running process: Bridge goes on, then answers if it still runs. */
  function NativeCall(s: State): (State, bool) {
    var t := Turn(Popped(s), Next(s));
    (t, Next(s).ok && t.env.running)
  }

  function Failing(s: State, ok: bool): State {
    if ok then s else s.(env := s.env.(fails := s.env.fails + 1))
  }

  function ListUsers(s: State): (State, Option<set<UserId>>) {
    var (t, ok) := NativeCall(s);
    (Failing(t, ok), if ok then Some(t.env.users) else None)
  }

  function GetUser(s: State): (State, Option<UserInfo>) {
    var (t, ok) := NativeCall(s);
    (t, if ok then Some(Next(s).info) else None)
  }

  /** The worker lives long enough to make its next native call. */
  predicate Reaches(s: State) {
    !s.env.dead && !Next(s).crash.BeforeCall?
  }

  /** native.remove_user is on record when it is reached, and from then on u may go. */
  function RemoveLogged(s: State, u: UserId, newly: bool): State {
    if !Reaches(s) then s
    else s.(env := s.env.(calls := s.env.calls + [CalledRemove(u, Linked(s, u), Held(s, u), newly)],
                          asked := s.env.asked + {u}))
  }

  /** native.remove_user: even a failed call may have reached Bridge. */
  function CallRemove(s: State, u: UserId, newly: bool): State {
    NativeCall(RemoveLogged(s, u, newly)).0
  }

  /** native.login is on record when it is reached, with what the journal says and what else is going on. */
  function LoginLogged(s: State, id: OpId): State {
    if !Reaches(s) then s
    else
      var journaled := id in s.disk.ops.at && Active(s.disk.ops.at[id].state);
      s.(env := s.env.(calls := s.env.calls + [CalledLogin(id, journaled, BusyElsewhere(s) || s.slot != Some(id))]))
  }

  /** native.login: even a failed call may have reached a running Bridge. */
  function CallLogin(s: State, id: OpId): (State, bool) {
    var (t, ok) := NativeCall(LoginLogged(s, id));
    (if t.env.running then t.(env := t.env.(login := Running)) else t, ok)
  }

  /** native.start: a live process is kept; otherwise one is launched, or killed again on a failure. */
  function CallStart(s: State): (State, bool) {
    if s.env.running then (s, true) else CallRecover(s)
  }

  /** native.recover: the old process goes, its sign-in and its event stream with it, whatever the outcome. */
  function CallRecover(s: State): (State, bool) {
    var t := Turn(Popped(s), Next(s));
    var ok := Next(s).ok && !t.env.dead;
    (Failing(t.(env := t.env.(running := ok, login := Idle)), ok), ok)
  }

  /** native.shutdown: a failure leaves the process as it is. */
  function CallShutdown(s: State): (State, bool) {
    var t := Turn(Popped(s), Next(s));
    var ok := Next(s).ok && !t.env.dead;
    (if ok then t.(env := t.env.(running := false, login := Idle)) else t, ok)
  }

  // ---- journal ------------------------------------------------------------------------------------

  /** What the journal keeps of an attempt. */
  function Written(op: Operation): Operation {
    op.(createdAt := 0, endedAt := None, splitRequested := false)
  }

  function Save(s: State): Journal {
    Journal(Dict(s.ops.order, Mapped(s.ops.at, (id: OpId, op: Operation) => Written(op))),
            s.links,
            Mapped(s.pending.at, (u: UserId, item: Removal) => item.reason))
  }

  /** The journal is replaced as a whole; a dead worker writes nothing. */
  function Persist(s: State): State {
    if s.env.dead then s else s.(disk := Save(s))
  }

  /** One journaled attempt as the next worker reads it. */
  function Restored(op: Operation, now: nat): Operation {
    var read := op.(createdAt := now, endedAt := None, splitRequested := false);
    var settled := if Active(op.state)
                   then read.(state := Failed, errorCode := Some(Unavailable), reconcile := true) else read;
    settled.(endedAt := Some(now))
  }

  const FRESH_GATE := Gate({}, [], None, 0, false)
  const FRESH_PROC := Proc(false, false, false, None, false, 0, 0, 0, 0, None, 0)

  /** __init__ with _load on the journal j. */
  function Loaded(cfg: Config, j: Journal, env: Env): State {
    var now := env.clock;
    State(cfg,
          Dict(j.ops.order, Mapped(j.ops.at, (id: OpId, op: Operation) => Restored(op, now))),
          j.links,
          Dict(Sorted(j.reasons.Keys), Mapped(j.reasons, (u: UserId, reason: Reason) => Removal(reason, now, 0, false))),
          None, FRESH_GATE, FRESH_PROC, j, env)
  }

  // ---- helpers ------------------------------------------------------------------------------------

  function SetOp(s: State, id: OpId, op: Operation): State {
    s.(ops := s.ops.(at := s.ops.at[id := op]))
  }

  function End(s: State, id: OpId, state: OpState, code: Option<ErrorCode>): State
    requires id in s.ops.at
  {
    SetOp(s, id, s.ops.at[id].(state := state, errorCode := code, endedAt := Some(s.env.clock)))
  }

  function Release(s: State, id: OpId): State {
    if s.slot == Some(id) then s.(slot := None) else s
  }

  function BeginRemoval(s: State, u: UserId, reason: Reason): State {
    var item := if u in s.pending.at
                then s.pending.at[u].(since := s.env.clock,
                                      reason := if reason.Unlink? then Unlink else s.pending.at[u].reason)
                else Removal(reason, s.env.clock, 0, false);
    CallRemove(s.(pending := s.pending.Put(u, item)), u, u !in s.pending.at)
  }

  function BeginRemovals(s: State, us: seq<UserId>): (t: State)
    ensures t.ops == s.ops
    decreases us
  {
    if us == [] then s else BeginRemovals(BeginRemoval(s, us[0], Attempt), us[1..])
  }

  function DropPending(s: State, u: UserId): State {
    s.(pending := s.pending.Drop(u))
  }

  function RetryRemoval(s: State, u: UserId): State {
    if u !in s.pending.at then s
    else
      var (t, users) := ListUsers(s);
      if users.None? then t
      else if u !in users.value then DropPending(t, u)
      else BeginRemoval(t, u, t.pending.at[u].reason)
  }

  function RetryRemovals(s: State, us: seq<UserId>): State
    decreases us
  {
    if us == [] then s else RetryRemovals(RetryRemoval(s, us[0]), us[1..])
  }

  predicate HasHeir(s: State, u: UserId, ended: Option<OpId>) {
    exists id | id in s.ops.at :: Some(id) != ended && Heir(s.ops.at[id], u)
  }

  function Handed(ops: map<OpId, Operation>, u: UserId, ended: Option<OpId>): (r: map<OpId, Operation>)
    ensures r.Keys == ops.Keys
    ensures forall id :: id in ops ==>
      r[id] == if Some(id) != ended && Heir(ops[id], u) then ops[id].(createdByAttempt := true) else ops[id]
  {
    Mapped(ops, (id: OpId, op: Operation) => if Some(id) != ended && Heir(op, u) then op.(createdByAttempt := true) else op)
  }

  /** _hand_over: every heir inherits the clean-up of u. */
  function HandOver(s: State, u: UserId, ended: Option<OpId>): State {
    s.(ops := s.ops.(at := Handed(s.ops.at, u, ended)))
  }

  function DropAttemptUser(s: State, id: OpId): State
    requires id in s.ops.at
  {
    var op := s.ops.at[id];
    if !op.createdByAttempt || op.userId.None? || Linked(s, op.userId.value) then s
    else if HasHeir(s, op.userId.value, Some(id)) then HandOver(s, op.userId.value, Some(id))
    else BeginRemoval(s, op.userId.value, Attempt)
  }

  /** _stop_attempt: the slot stays until a terminal event or a recovery, unless the login had finished. */
  function StopAttempt(s: State, id: OpId, state: OpState, code: Option<ErrorCode>): (t: State)
    requires id in s.ops.at
    ensures id in t.ops.at
  {
    var ended := End(s, id, state, code);
    if s.ops.at[id].state.Checking? then Release(DropAttemptUser(ended, id), id)
    else NativeCall(ended).0
  }

  // ---- reconciliation -----------------------------------------------------------------------------

  /** Users that reconciling attempt id leaves alone. */
  predicate Known(s: State, id: OpId, u: UserId)
    requires id in s.ops.at
  {
    u in s.ops.at[id].preexisting || Linked(s, u) || u in s.pending.at ||
    (exists o | o in s.ops.at :: o != id && s.ops.at[o].userId == Some(u) &&
                                 (s.ops.at[o].state.Checking? || s.ops.at[o].state.Connected?))
  }

  function ReconcileOrphans(s: State, id: OpId): (State, bool)
    requires id in s.ops.at
  {
    var (t, users) := ListUsers(s);
    if users.None? then (t, false)
    else
      var orphans := set u | u in users.value && !Known(t, id, u);
      var r := BeginRemovals(t, Sorted(orphans));
      (Noted(SetOp(r, id, r.ops.at[id].(reconcile := false))), true)
  }

  /** The loop of _reconcile_all over the attempts. */
  function ReconcileFlagged(s: State, ids: seq<OpId>): (State, bool)
    decreases ids
  {
    if ids == [] then (s, true)
    else if ids[0] in s.ops.at && s.ops.at[ids[0]].reconcile then
      var (t, ok) := ReconcileOrphans(s, ids[0]);
      var (r, rest) := ReconcileFlagged(t, ids[1..]);
      (r, ok && rest)
    else ReconcileFlagged(s, ids[1..])
  }

  /** _reconcile_all after its loop: the slot of an ended holder is freed, or a retry is scheduled. */
  function Reconciled(s: State, ok: bool): State {
    var t := if ok && (Holder(s).None? || !Active(Holder(s).value.state)) then Noted(s.(slot := None))
             else if Holder(s).Some? then SetOp(s, s.slot.value, Holder(s).value.(endedAt := Some(s.env.clock)))
             else s;
    if ok then t.(proc := t.proc.(reconcileFailures := 0))
    else t.(proc := t.proc.(reconcileFailures := t.proc.reconcileFailures + 1,
                            nextReconcileAt := t.env.clock + Min(Pow2(t.proc.reconcileFailures + 1), RECONCILE_BACKOFF_CAP)))
  }

  function ReconcileAll(s: State): (State, bool) {
    var (t, ok) := ReconcileFlagged(s, s.ops.order);
    (Reconciled(t, ok), ok)
  }

  function AfterRestart(s: State): State {
    RetryRemovals(ReconcileAll(s.(proc := s.proc.(reconcileFailures := 0, nextReconcileAt := 0))).0, s.pending.order)
  }

  /** _ensure_started; the error it raises, if any. */
  function EnsureStarted(s: State): (State, Option<ErrorCode>) {
    if Alive(s) then (s, None)
    else if s.gate.snapshot.Some? then (s, Some(MaintenanceBusy))
    else
      var (t, ok) := if s.proc.started then CallRecover(s) else CallStart(s);
      if !ok then (t.(proc := t.proc.(started := false)), Some(Unavailable))
      else (AfterRestart(t.(proc := t.proc.(started := true, nativeLost := false))), None)
  }

  // ---- RPCs ---------------------------------------------------------------------------------------

  function Boot(s: State): (State, Reply) {
    if !NeedsBridge(s) then (s, Accepted)
    else
      var (t, error) := EnsureStarted(s);
      if error.Some? then (t, Refused(error.value)) else (Persist(t), Accepted)
  }

  function Shutdown(s: State): State {
    if s.proc.closed then s
    else s.(proc := s.proc.(closed := true, started := false),
            env := if s.proc.started then s.env.(running := false, login := Idle) else s.env)
  }

  function StartConnection(s: State, id: OpId, email: Email, password: string): (State, Reply) {
    if !SafeEmail(email) || password == "" then (s, Refused(InvalidRequest))
    else if s.proc.closed then (s, Refused(Unavailable))
    else if id in s.ops.at then
      (s, if Lower(s.ops.at[id].email) != Lower(email) then Refused(OperationConflict) else Accepted)
    else if Busy(s) then (s, Refused(LoginBusy))
    else
      var (t, error) := EnsureStarted(s);
      if error.Some? then (t, Refused(error.value))
      else if Busy(t) then (t, Refused(LoginBusy))
      else
        var (l, users) := ListUsers(t);
        if users.None? then (l, Refused(Unavailable))
        else (SignIn(l, id, email, users.value), Accepted)
  }

  /** The attempt takes the slot, is journaled and only then reaches Bridge. */
  function SignIn(s: State, id: OpId, email: Email, preexisting: set<UserId>): State {
    var op := NewOperation(id, email, s.env.clock, preexisting);
    var t := Persist(s.(ops := s.ops.Put(id, op), slot := Some(id)));
    var (r, ok) := CallLogin(t, id);
    if ok then r else Persist(End(r, id, Failed, Some(Unavailable)))
  }

  predicate Awaits(st: OpState, ch: Challenge) {
    match ch case TwoFactor => st.Needs2fa? case SecondPassword => st.NeedsSecondPassword?
  }

  function ContinueConnection(s: State, id: OpId, ch: Challenge, secret: string): (State, Reply) {
    if id !in s.ops.at then (s, Refused(NotFound))
    else if !Awaits(s.ops.at[id].state, ch) || s.slot != Some(id) || secret == "" then (s, Refused(InvalidChallenge))
    else
      var t := Persist(SetOp(s, id, s.ops.at[id].(state := Authenticating, errorCode := None)));
      var (r, ok) := NativeCall(t);
      (Persist(if ok then r else End(r, id, Failed, Some(Unavailable))), Accepted)
  }

  function CancelConnection(s: State, id: OpId): (State, Reply) {
    if id !in s.ops.at then (s, Refused(NotFound))
    else
      var op := s.ops.at[id];
      (Persist(if op.state.Connected? && !op.committed then DropAttemptUser(End(s, id, Cancelled, None), id)
               else if Active(op.state) then StopAttempt(s, id, Cancelled, None)
               else s),
       Accepted)
  }

  function CommitConnection(s: State, id: OpId, u: UserId, generation: Generation, previous: Option<Generation>): (State, Reply) {
    if id !in s.ops.at then (s, Refused(NotFound))
    else
      var op := s.ops.at[id];
      var key := LinkKey(u, Lower(op.email));
      if !Admitted(s, Some(op)) then (s, Refused(MaintenanceBusy))
      else if !op.state.Connected? || op.userId != Some(u) then (s, Refused(NotConnected))
      else if u in s.pending.at then (s, Refused(OperationConflict))
      else if key in s.links && s.links[key].generation != generation && previous != Some(s.links[key].generation)
        then (s, Refused(GenerationMismatch))
      else
        var t := s.(links := s.links[key := Link(u, op.email, generation)]);
        (Persist(if op.committed then t else SetOp(t, id, op.(committed := true, endedAt := Some(t.env.clock)))), Accepted)
  }

  /** The address whose credentials are asked for, by the sign-in or by the committed link. */
  function CredentialsOf(s: State, u: UserId, id: Option<OpId>, generation: Option<Generation>, email: Email): (Email, Option<ErrorCode>) {
    if id.None? == generation.None? then ("", Some(InvalidRequest))
    else if id.Some? then
      if id.value !in s.ops.at then ("", Some(NotFound))
      else
        var op := s.ops.at[id.value];
        if !Admitted(s, Some(op)) then ("", Some(MaintenanceBusy))
        else if !op.state.Connected? || op.userId != Some(u) then ("", Some(NotConnected))
        else (op.email, None)
    else if !Admitted(s, None) then ("", Some(MaintenanceBusy))
    else if !SafeEmail(email) then ("", Some(InvalidRequest))
    else
      var key := LinkKey(u, Lower(email));
      if key !in s.links then ("", Some(NotFound))
      else if Some(s.links[key].generation) != generation then ("", Some(GenerationMismatch))
      else (s.links[key].email, None)
  }

  function Credentials(s: State, u: UserId, id: Option<OpId>, generation: Option<Generation>, email: Email): (State, Reply) {
    var (address, refused) := CredentialsOf(s, u, id, generation, email);
    if refused.Some? then (s, Refused(refused.value))
    else if u in s.pending.at then (s, Refused(NotConnected))
    else
      var (t, error) := EnsureStarted(s);
      if error.Some? then (t, Refused(error.value))
      else
        var (g, info) := GetUser(t);
        if info.None? then (g, Refused(Unavailable))
        else if !Owns(info.value, u, address) then (g, Refused(AddressMismatch))
        else if !info.value.connected || !info.value.split then (g, Refused(NotConnected))
        else
          var (c, ok) := NativeCall(g);
          (c, if Next(g).mismatch then Refused(AddressMismatch) else if ok then Accepted else Refused(Unavailable))
  }

  function RemoveUser(s: State, u: UserId, generation: Generation, email: Email): (State, Reply) {
    var key := LinkKey(u, Lower(email));
    if !SafeEmail(email) then (s, Refused(InvalidRequest))
    else if !Admitted(s, None) then (s, Refused(MaintenanceBusy))
    else if key !in s.links then (s, if u in s.pending.at then Removing else Removed)
    else if s.links[key].generation != generation then (s, Refused(GenerationMismatch))
    else
      var others := exists k | k in s.links :: k.user == u && k != key;
      var (t, error) := if others then (s, None) else EnsureStarted(s);
      if error.Some? then (t, Refused(error.value))
      else
        var cut := t.(links := t.links - {key});
        if others then (Persist(cut), Unlinked)
        else if HasHeir(cut, u, None) then (Persist(HandOver(cut, u, None)), Unlinked)
        else
          var r := if u in cut.pending.at then cut else BeginRemoval(cut, u, Unlink);
          (Persist(r), if u in r.pending.at then Removing else Removed)
  }

  // ---- send leases and the snapshot gate ----------------------------------------------------------

  function AcquireLease(s: State, l: LeaseId): (State, Reply) {
    var g := s.gate;
    if l in g.cancelled then (s.(gate := g.(cancelled := Without(g.cancelled, l))), Refused(LeaseCancelled))
    else if l in g.leases then (s, Accepted)
    else if s.proc.closed then (s, Refused(Unavailable))
    else if !Admitted(s, None) then (s, Refused(MaintenanceBusy))
    else (s.(gate := g.(leases := g.leases + {l})), Accepted)
  }

  /** The newest n of the cancelled leases. */
  function Newest(ls: seq<LeaseId>, n: nat): seq<LeaseId> {
    if |ls| > n then ls[|ls| - n..] else ls
  }

  function ReleaseLease(s: State, l: LeaseId): (State, Reply) {
    var g := s.gate;
    var held := l in g.leases;
    (s.(gate := g.(leases := g.leases - {l},
                   cancelled := if held then g.cancelled
                                else Newest(if l in g.cancelled then g.cancelled else g.cancelled + [l], CANCELLED_LEASES_KEPT))),
     Released(held))
  }

  /** The first critical section of snapshot_begin, up to its wait. */
  function SnapshotBegin(s: State, id: SnapshotId): (State, Reply) {
    var g := s.gate;
    var until := s.env.clock + s.cfg.snapshotTtl;
    if g.snapshot.Some? then
      if g.snapshot.value == id then (s, Accepted)
      else if s.env.clock < g.expiresAt then (s, Refused(OperationConflict))
      else (s.(gate := g.(snapshot := Some(id), expiresAt := until)), Accepted)
    else if s.proc.closed then (s, Refused(Unavailable))
    else (s.(gate := g.(snapshot := Some(id), expiresAt := until, sealed := false)), Draining)
  }

  function Unlocked(s: State): State {
    s.(gate := s.gate.(snapshot := None, expiresAt := 0, sealed := false))
  }

  function SettleHolder(s: State): State {
    if Holder(s).None? then s
    else
      var id := s.slot.value;
      var t := if Active(Holder(s).value.state) then StopAttempt(s, id, Expired, None) else s;
      if Active(t.ops.at[id].state) then t else SetOp(t, id, t.ops.at[id].(reconcile := true))
  }

  /** When the wait of a snapshot_begin that begins now ends. */
  function DrainDeadline(s: State): nat {
    s.env.clock + s.cfg.snapshotWait
  }

  /** The rest of snapshot_begin after its wait: Bridge stops, or the gate opens again. */
  function Drained(s: State): (State, Reply) {
    var t := SettleHolder(s);
    var (r, ok) := if t.proc.started then CallShutdown(t.(proc := t.proc.(started := false))) else (t, true);
    if ok then (Persist(r.(gate := r.gate.(sealed := true))), Accepted)
    else (Unlocked(r.(proc := r.proc.(started := true, nativeLost := true))), Refused(Unavailable))
  }

  /** One wake-up of _wait_drained and, when the wait is over, the rest of snapshot_begin. */
  function DrainRound(s: State, id: SnapshotId, deadline: nat): (State, Reply) {
    if s.gate.snapshot != Some(id) then (s, Refused(OperationConflict))
    else if s.gate.leases == {} && !LoginActive(s) then Drained(s)
    else if deadline <= s.env.clock then (Unlocked(s), Refused(SnapshotBusy))
    else (s, Draining)
  }

  function OpenGate(s: State): State {
    var t := Unlocked(s);
    if !NeedsBridge(t) then Persist(t)
    else
      var (r, error) := EnsureStarted(t);
      Persist(if error.Some? then r.(proc := r.proc.(nextStartAt := r.env.clock + r.cfg.recoverySeconds)) else r)
  }

  function SnapshotEnd(s: State, id: SnapshotId): (State, Reply) {
    if s.gate.snapshot.None? then (s, EndedGate(false))
    else if s.gate.snapshot.value != id then (s, Refused(OperationConflict))
    else (OpenGate(s), EndedGate(true))
  }

  function SnapshotRenew(s: State, id: SnapshotId): (State, Reply) {
    if s.gate.snapshot != Some(id) then (s, Refused(OperationConflict))
    else (s.(gate := s.gate.(expiresAt := s.env.clock + s.cfg.snapshotTtl)), Accepted)
  }

  // ---- timers -------------------------------------------------------------------------------------

  function ExpireOne(s: State, id: OpId, now: nat): State {
    if id !in s.ops.at || now < s.ops.at[id].createdAt + s.cfg.ttl then s
    else if Active(s.ops.at[id].state) then StopAttempt(s, id, Expired, None)
    else if s.ops.at[id].state.Connected? && !s.ops.at[id].committed then DropAttemptUser(End(s, id, Expired, None), id)
    else s
  }

  function Expire(s: State, ids: seq<OpId>, now: nat): State
    decreases ids
  {
    if ids == [] then s else Expire(ExpireOne(s, ids[0], now), ids[1..], now)
  }

  /** One removal in _removal_timers; whether it asks for a recovery. */
  function RemovalTimer(s: State, u: UserId, now: nat, canRecover: bool): (State, bool) {
    if u !in s.pending.at || now < s.pending.at[u].since + REMOVAL_RETRY_SECONDS then (s, false)
    else
      var item := s.pending.at[u];
      if item.reason.Attempt? && !item.stuck then
        if item.recoveries < MAX_REMOVAL_RECOVERIES then
          if !canRecover then (s, false)
          else (s.(pending := s.pending.Put(u, item.(recoveries := item.recoveries + 1, since := now))), true)
        else (RetryRemoval(s.(pending := s.pending.Put(u, item.(stuck := true))), u), false)
      else (RetryRemoval(s, u), false)
  }

  function RemovalTimers(s: State, us: seq<UserId>, now: nat, canRecover: bool): (State, bool)
    decreases us
  {
    if us == [] then (s, false)
    else
      var (t, first) := RemovalTimer(s, us[0], now, canRecover);
      var (r, rest) := RemovalTimers(t, us[1..], now, canRecover);
      (r, first || rest)
  }

  /** tick's test of an ended slot holder. */
  predicate HolderDue(s: State, now: nat) {
    Holder(s).Some? && !Active(Holder(s).value.state) && Holder(s).value.endedAt.Some? &&
    now >= Holder(s).value.endedAt.value + s.cfg.recoverySeconds &&
    (Holder(s).value.userId.None? || Holder(s).value.userId.value !in s.pending.at)
  }

  function MarkHolder(s: State): State
    requires Holder(s).Some?
  {
    SetOp(s, s.slot.value, Holder(s).value.(reconcile := true))
  }

  /** tick, between removal timers and the retry of a failed reconciliation: dead or stopped processes. */
  function TickProcess(s: State, now: nat): (State, bool) {
    if s.proc.started && !Alive(s) then
      if NeedsBridge(s) || s.slot.Some? then (s, true)
      else (s.(proc := s.proc.(started := false, nativeLost := false)), false)
    else if !s.proc.started && NeedsBridge(s) && now >= s.proc.nextStartAt then
      var (t, error) := EnsureStarted(s);
      (if error.Some? then t.(proc := t.proc.(nextStartAt := now + t.cfg.recoverySeconds)) else t, false)
    else (s, false)
  }

  /** The part of tick that no running recovery sees: the state and whether Bridge is to be recovered. */
  function TickRecovery(s: State, now: nat): (State, bool) {
    var canRecover := now >= s.proc.nextRecoveryAt;
    var (a, removals) := RemovalTimers(s, s.pending.order, now, canRecover);
    var due := HolderDue(a, now);
    var b := if due then MarkHolder(a) else a;
    var (c, process) := TickProcess(b, now);
    var wanted := removals || due || process;
    var retry := !wanted && Alive(c) && ReconcilePending(c) && now >= c.proc.nextReconcileAt;
    var (d, ok) := if retry then ReconcileAll(c) else (c, true);
    (d, canRecover && (wanted || (!ok && d.proc.reconcileFailures >= MAX_RECONCILE_FAILURES)))
  }

  predicate Prunable(s: State, id: OpId, now: nat)
    requires id in s.ops.at
  {
    var op := s.ops.at[id];
    !Active(op.state) && op.endedAt.Some? && now >= op.endedAt.value + s.cfg.ttl && s.slot != Some(id) && !op.reconcile
  }

  function Prune(s: State, ids: seq<OpId>, now: nat): State
    decreases ids
  {
    if ids == [] then s
    else if ids[0] in s.ops.at && Prunable(s, ids[0], now) then Prune(s.(ops := s.ops.Drop(ids[0])), ids[1..], now)
    else Prune(s, ids[1..], now)
  }

  /** tick with the gate open. */
  function TickOpen(s: State): State {
    var now := s.env.clock;
    var a := Expire(s, s.ops.order, now);
    var (b, recover) := if a.proc.recovering then (a, false) else TickRecovery(a, now);
    var c := Prune(b, b.ops.order, now);
    Persist(if recover then c.(proc := c.proc.(recovering := true)) else c)
  }

  function Tick(s: State): State {
    var t := s.(env := s.env.(lastTick := s.env.clock));
    if t.proc.closed then t
    else if t.gate.snapshot.None? then TickOpen(t)
    else if t.env.clock < t.gate.expiresAt then t
    else TickOpen(OpenGate(t))
  }

  /** The backoff of recoveries: recovery_seconds, doubled per streak. */
  function Stamped(s: State): State {
    var now := s.env.clock;
    var again := s.proc.lastRecoveryAt.Some? && now < s.proc.lastRecoveryAt.value + RECOVERY_BACKOFF_CAP;
    var streak := if again then s.proc.recoveryStreak + 1 else 0;
    s.(proc := s.proc.(recoveryStreak := streak, lastRecoveryAt := Some(now),
                       nextRecoveryAt := now + Min(s.cfg.recoverySeconds * Pow2(streak), RECOVERY_BACKOFF_CAP)))
  }

  /** _recover outside the lock: the backoff is stamped and Bridge restarted. */
  function RecoverNative(s: State): State {
    if !s.proc.recovering || s.proc.restarted.Some? then s
    else
      var (t, ok) := CallRecover(Stamped(s));
      t.(proc := t.proc.(restarted := Some(ok)))
  }

  /** _recover under the lock again. */
  function RecoverFinish(s: State): State {
    if s.proc.restarted.None? then s
    else
      var started := s.proc.restarted.value && !s.proc.closed;
      var t := s.(proc := s.proc.(recovering := false, restarted := None, started := started, nativeLost := false));
      Persist(if started then AfterRestart(t)
              else if Holder(t).Some? then SetOp(t, t.slot.value, Holder(t).value.(endedAt := Some(t.env.clock)))
              else t)
  }

  // ---- events -------------------------------------------------------------------------------------

  /** _reconcile: address membership, connected state and confirmed split mode. */
  function Check(s: State, id: OpId): State
    requires id in s.ops.at
  {
    var op := s.ops.at[id];
    var (t, info) := GetUser(s);
    if info.None? || op.userId.None? then t
    else if !Owns(info.value, op.userId.value, op.email) then
      Release(DropAttemptUser(End(t, id, Failed, Some(AddressMismatch)), id), id)
    else if !info.value.connected then t
    else if info.value.split then Release(SetOp(t, id, t.ops.at[id].(state := Connected, errorCode := None)), id)
    else if op.splitRequested then t
    else NativeCall(SetOp(t, id, t.ops.at[id].(splitRequested := true))).0
  }

  function LoginErrorResult(code: LoginErrorCode): ErrorCode {
    match code
    case BadPassword => InvalidCredentials
    case Verification => VerificationRequired
    case _ => LoginFailed
  }

  function OnLoginError(s: State, code: LoginErrorCode): State {
    if Holder(s).None? then s
    else
      var id := s.slot.value;
      var op := s.ops.at[id];
      if code.TfaError? || code.TwoPasswordsError? then
        if Active(op.state)
        then SetOp(s, id, op.(state := if code.TfaError? then Needs2fa else NeedsSecondPassword, errorCode := Some(InvalidChallenge)))
        else s
      else Release(if Active(op.state) then End(s, id, Failed, Some(LoginErrorResult(code))) else s, id)
  }

  function OnLoginFinished(s: State, finished: bool, user: Option<UserId>): State {
    if Holder(s).None? || user.None? then s
    else
      var id := s.slot.value;
      var op := s.ops.at[id].(userId := user, createdByAttempt := finished && user.value !in s.ops.at[id].preexisting);
      if Active(op.state) then Check(SetOp(s, id, op.(state := Checking)), id)
      else Release(DropAttemptUser(SetOp(s, id, op), id), id)
  }

  function CheckAll(s: State, ids: seq<OpId>, u: UserId): State
    decreases ids
  {
    if ids == [] then s
    else if ids[0] in s.ops.at && s.ops.at[ids[0]].state.Checking? && s.ops.at[ids[0]].userId == Some(u)
    then CheckAll(Check(s, ids[0]), ids[1..], u)
    else CheckAll(s, ids[1..], u)
  }

  function OnUserChanged(s: State, u: UserId): State {
    var t := if u !in s.pending.at then s
             else
               var (l, users) := ListUsers(s);
               if users.Some? && u !in users.value then DropPending(l, u) else l;
    CheckAll(t, t.ops.order, u)
  }

  function OnEvent(s: State, ev: Event): State {
    Persist(
      match ev
      case NeedsTwoFactorEvent =>
        if Holder(s).Some? && Active(Holder(s).value.state) then SetOp(s, s.slot.value, Holder(s).value.(state := Needs2fa)) else s
      case NeedsSecondPasswordEvent =>
        if Holder(s).Some? && Active(Holder(s).value.state) then SetOp(s, s.slot.value, Holder(s).value.(state := NeedsSecondPassword)) else s
      case LoginErrorEvent(code) => OnLoginError(s, code)
      case HumanVerificationEvent =>
        if Holder(s).Some? && Active(Holder(s).value.state) then StopAttempt(s, s.slot.value, Failed, Some(VerificationRequired)) else s
      case FinishedEvent(user) => OnLoginFinished(s, true, user)
      case AlreadyLoggedInEvent(user) => OnLoginFinished(s, false, user)
      case UserChangedEvent(u) => OnUserChanged(s, u)
      case StreamEndedEvent => s.(proc := s.proc.(nativeLost := true))
      case NoKeychainEvent => s)
  }
}
