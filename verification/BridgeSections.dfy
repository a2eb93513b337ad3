/** Every critical section keeps the invariant. */
module BridgeSections {
  import opened Wrappers
  import opened Dicts
  import opened BridgeTypes
  import opened BridgeSpec
  import opened BridgeMachine
  import opened BridgeShape
  import opened BridgeInvariant

  /** A gate that stays closed stays sealed, and Bridge is not launched under it; an open gate stays open. */
  ghost predicate GateMoves(s: State, t: State) {
    && (s.gate.snapshot.None? ==> t.gate.snapshot.None?)
    && (s.gate.snapshot.Some? && t.gate.snapshot.Some? ==>
          (t.env.running ==> s.env.running) && (s.gate.sealed ==> t.gate.sealed))
  }

  /** What a critical section does to attempts, slot, removals and recovery timers when it neither starts nor
      forgets an attempt, commits, or recovers. */
  ghost predicate Drifts(s: State, t: State) {
    && t.cfg == s.cfg && t.links == s.links && t.gate.leases == s.gate.leases && t.gate.cancelled == s.gate.cancelled && GateMoves(s, t)
    && OpsFlow(s.ops, t.ops, s.env.clock, t.env.clock, s.env.fails < t.env.fails) && EnvMoves(s.env, t.env)
    && (t.slot == s.slot || t.slot.None?)
    && t.proc == s.proc.(started := t.proc.started, nativeLost := t.proc.nativeLost, nextStartAt := t.proc.nextStartAt,
                         reconcileFailures := t.proc.reconcileFailures, nextReconcileAt := t.proc.nextReconcileAt)
    && (t.env.dead || RemovalsKept(s.pending.at, t.pending.at, s.env.calls, t.env.calls))
  }

  /** And when it unlinks nothing either: no linked user is handed to native.remove_user, and the journal
      keeps links and commits. */
  ghost predicate Moves(s: State, t: State) {
    Drifts(s, t) && CallsSpare(s.links, s.env.calls, t.env.calls) && JournalMoves(s.disk, s.links, s.ops.at, t.disk)
  }

  lemma MovesReflexive(s: State)
    ensures Moves(s, s)
  {
  }

  lemma CoreLater(s: State, at: nat, later: nat)
    requires CoreAt(s, at) && at <= later
    ensures CoreAt(s, later)
  {
    hide Base, SlotOk, ProcOk, LeasesOk, SealOk, JournalOk;
  }

  lemma KeepsInv(s: State, t: State)
    requires Inv(s) && CoreAt(t, s.env.clock) && Flow(s, t)
    ensures Inv(t) && Moves(s, t)
  {
    hide CoreAt, OpsFlow, DiskOk, CallsSpare, RemovalsKept, Logins;
    CoreLater(t, s.env.clock, t.env.clock);
    if !t.env.dead {
      FlowDisk(s.disk, s.links, s.ops, t.ops, s.env.clock, t.env.clock, s.env.fails < t.env.fails);
    }
  }

  lemma KeepsPersisted(s: State, t: State)
    requires CoreAt(t, s.env.clock) && Flow(s, t)
    ensures Inv(Persist(t)) && Moves(s, Persist(t))
  {
    hide CoreAt, OpsFlow, DiskOk, Persist, Moves;
    CoreLater(t, s.env.clock, t.env.clock);
    PersistKeeps(t);
    FlowMoves(s, t);
    PersistMoves(s, t);
  }

  lemma FlowMoves(s: State, t: State)
    requires Flow(s, t)
    ensures Moves(s, t)
  {
    hide OpsFlow, CallsSpare, RemovalsKept, Logins;
  }

  lemma PersistMoves(s: State, t: State)
    requires Moves(s, t)
    ensures Moves(s, Persist(t))
  {
    hide OpsFlow, Save, CallsSpare, RemovalsKept, Logins;
    SavedMoves(s, t, s.env.clock, t.env.clock, s.env.fails < t.env.fails);
  }

  lemma SavedMoves(s: State, t: State, c: nat, d: nat, late: bool)
    requires OpsFlow(s.ops, t.ops, c, d, late)
    ensures t.links == s.links ==> JournalMoves(s.disk, s.links, s.ops.at, Save(t))
  {
    forall id | id in Save(t).ops.at && id in s.ops.at
      ensures Save(t).ops.at[id].committed == s.ops.at[id].committed
    {
      assert Save(t).ops.at[id] == Written(t.ops.at[id]);
      assert OpFlow(s.ops.at[id], t.ops.at[id], c, d, late);
    }
  }

  lemma PersistOnlyDisk(s: State)
    ensures Persist(s) == s.(disk := Persist(s).disk)
  {
  }

  lemma HousekeepingInv(s: State, t: State)
    requires Inv(s) && Housekeeping(s, t) && Base(t)
    ensures Inv(t) && Moves(s, t)
  {
    hide CoreAt, Base, Housekeeping, Flow, Moves, DiskOk;
    HousekeepingKeeps(s, t, s.env.clock);
    HousekeepingFlows(s, t);
    KeepsInv(s, t);
  }

  // ---- RPCs ---------------------------------------------------------------------------------------

  lemma WorldKeeps(s: State, a: Answer)
    requires Inv(s)
    ensures var t := Turn(s, a); Inv(t) && Moves(s, t)
  {
    hide DiskOk, Turn, Housekeeping, Base, Moves;
    CoreHasBase(s, s.env.clock);
    TurnKeeps(s, a);
    HousekeepingInv(s, Turn(s, a));
  }

  lemma BootKeeps(s: State)
    requires Inv(s)
    ensures var t := Boot(s).0; Inv(t) && Moves(s, t)
  {
    hide EnsureStarted, CoreAt, DiskOk, Flow, Moves, Persist, NeedsBridge;
    MovesReflexive(s);
    if NeedsBridge(s) {
      EnsureStartedKeeps(s, s.env.clock);
      KeepsInv(s, EnsureStarted(s).0);
      KeepsPersisted(s, EnsureStarted(s).0);
    }
  }

  lemma CredentialsKeeps(s: State, u: UserId, id: Option<OpId>, generation: Option<Generation>, email: Email)
    requires Inv(s)
    ensures var t := Credentials(s, u, id, generation, email).0; Inv(t) && Moves(s, t)
  {
    hide EnsureStarted, CoreAt, DiskOk, Flow, Moves, CredentialsOf, GetUser, NativeCall, Owns, Housekeeping;
    MovesReflexive(s);
    FlowReflexive(s);
    EnsureStartedKeeps(s, s.env.clock);
    var t := EnsureStarted(s).0;
    KeepsInv(s, t);
    CoreHasBase(t, s.env.clock);
    GetUserKeeps(t);
    var g := GetUser(t).0;
    HousekeepingKeeps(t, g, s.env.clock);
    HousekeepingFlows(t, g);
    FlowTransitive(s, t, g);
    KeepsInv(s, g);
    CoreHasBase(g, s.env.clock);
    NativeCallKeeps(g);
    var c := NativeCall(g).0;
    HousekeepingKeeps(g, c, s.env.clock);
    HousekeepingFlows(g, c);
    FlowTransitive(s, g, c);
    KeepsInv(s, c);
  }

  lemma CancelKeeps(s: State, id: OpId)
    requires Inv(s)
    ensures var t := CancelConnection(s, id).0; Inv(t) && Moves(s, t)
  {
    hide StopAttempt, CoreAt, DiskOk, Flow, Moves, Persist, DropAttemptUser;
    MovesReflexive(s);
    FlowReflexive(s);
    if id in s.ops.at {
      if s.ops.at[id].state.Connected? && !s.ops.at[id].committed {
        GiveUpKeeps(s, id, Cancelled, s.env.clock);
        KeepsPersisted(s, DropAttemptUser(End(s, id, Cancelled, None), id));
      } else if Active(s.ops.at[id].state) {
        StopAttemptKeeps(s, id, Cancelled, None, s.env.clock);
        KeepsPersisted(s, StopAttempt(s, id, Cancelled, None));
      } else {
        KeepsPersisted(s, s);
      }
    }
  }

  /** A signed-in attempt ends without a commit, with its clean-up. */
  lemma GiveUpKeeps(s: State, id: OpId, state: OpState, at: nat)
    requires CoreAt(s, at) && id in s.ops.at && s.ops.at[id].state.Connected? && !s.ops.at[id].committed && Ended(state)
    ensures var t := DropAttemptUser(End(s, id, state, None), id); CoreAt(t, at) && Flow(s, t) && t.ops.at[id].state == state && t.proc == s.proc
  {
    hide DropAttemptUser, OpsOk, OpsFlow, LinksOk, PendingOk, CallsOk, LeasesOk, OpsKept;
    NotHolder(s.ops.at, s.slot, id);
    OpsOkAt(s.ops, s.env.clock, id);
    EndKeeps(s, id, state, None);
    var e := End(s, id, state, None);
    OtherSlotKept(s.ops.at, s.slot, id, e.ops.at[id]);
    assert CoreAt(e, at);
    DropAttemptUserKeeps(e, id);
    var d := DropAttemptUser(e, id);
    KeptAt(e.ops, d.ops, id);
    HousekeepingKeeps(e, d, at);
    HousekeepingFlows(e, d);
    FlowTransitive(s, e, d);
  }

  lemma NotHolder(ops: map<OpId, Operation>, slot: Option<OpId>, id: OpId)
    requires SlotOk(ops, slot) && id in ops && ops[id].state.Connected?
    ensures slot != Some(id)
  {
  }

  lemma ContinueKeeps(s: State, id: OpId, ch: Challenge, secret: string)
    requires Inv(s)
    ensures var t := ContinueConnection(s, id, ch, secret).0; Inv(t) && Moves(s, t)
  {
    hide CoreAt, DiskOk, Flow, OpsFlow, NativeCall, End, Persist, Base, Drifts, Moves;
    MovesReflexive(s);
    if id in s.ops.at && Awaits(s.ops.at[id].state, ch) && s.slot == Some(id) && secret != "" {
      var a := SetOp(s, id, s.ops.at[id].(state := Authenticating, errorCode := None));
      StillActiveKeeps(s, id, a.ops.at[id], s.env.clock);
      var b := Persist(a);
      PersistOnlyDisk(a);
      assert CoreAt(b, s.env.clock) by { PersistCore(a, s.env.clock); }
      CoreHasBase(b, s.env.clock);
      NativeCallKeeps(b);
      var c := NativeCall(b).0;
      HousekeepingKeeps(b, c, s.env.clock);
      HousekeepingFlows(b, c);
      PersistedFlow(s, a, c);
      EndHolderKeeps(c, id, Failed, Some(Unavailable), s.env.clock);
      var e := End(c, id, Failed, Some(Unavailable));
      MovesThenFlow(s, c, e);
      PersistMoves(s, c);
      PersistMoves(s, e);
      assert Inv(Persist(c)) && Inv(Persist(e)) by {
        MovesClock(s, c);
        CoreLater(c, s.env.clock, c.env.clock);
        PersistKeeps(c);
        FlowClock(c, e);
        CoreLater(e, s.env.clock, e.env.clock);
        PersistKeeps(e);
      }
    }
  }

  lemma FlowClock(s: State, t: State)
    requires Flow(s, t)
    ensures s.env.clock <= t.env.clock
  {
  }

  lemma PersistCore(s: State, at: nat)
    requires CoreAt(s, at)
    ensures CoreAt(Persist(s), at)
  {
    hide Save, OpsOk, SlotOk, LoginOk, ProcOk, SealOk, LeasesOk, LinksOk, PendingOk, CallsOk, JournalOk, DiskOk;
    SavedOk(s);
  }

  /** Flow, a journal write, flow. */
  lemma PersistedFlow(s: State, a: State, c: State)
    requires Flow(s, a) && Flow(Persist(a), c)
    ensures Moves(s, c)
  {
    hide OpsFlow, Save, CallsSpare, RemovalsKept, Logins, RemovalsMove;
    SavedMoves(s, a, s.env.clock, a.env.clock, s.env.fails < a.env.fails);
    SameRemovals(a, Persist(a));
    RemovalsMoveTransitive(s, a, Persist(a));
    RemovalsMoveTransitive(s, Persist(a), c);
    RemovalsMoveParts(s, c);
    OpsFlowTransitive(s.ops, a.ops, c.ops, s.env.clock, a.env.clock, c.env.clock, s.env.fails < a.env.fails, a.env.fails < c.env.fails);
  }

  lemma RemovalsMoveParts(s: State, t: State)
    requires RemovalsMove(s, t)
    ensures CallsSpare(s.links, s.env.calls, t.env.calls) && (t.env.dead || RemovalsKept(s.pending.at, t.pending.at, s.env.calls, t.env.calls))
  {
  }

  lemma MovesThenFlow(s: State, a: State, c: State)
    requires Moves(s, a) && Flow(a, c)
    ensures Moves(s, c)
  {
    hide OpsFlow, CallsSpare, RemovalsKept, Logins;
    RemovalsMoveTransitive(s, a, c);
    OpsFlowTransitive(s.ops, a.ops, c.ops, s.env.clock, a.env.clock, c.env.clock, s.env.fails < a.env.fails, a.env.fails < c.env.fails);
  }

  lemma MovesTransitive(s: State, a: State, c: State)
    requires Moves(s, a) && Moves(a, c)
    ensures Moves(s, c)
  {
    hide OpsFlow, CallsSpare, RemovalsKept, Logins;
    RemovalsMoveTransitive(s, a, c);
    SameCommits(s.ops, a.ops, s.env.clock, a.env.clock, s.env.fails < a.env.fails);
    OpsFlowTransitive(s.ops, a.ops, c.ops, s.env.clock, a.env.clock, c.env.clock, s.env.fails < a.env.fails, a.env.fails < c.env.fails);
  }

  lemma SameCommits(o: Dict<OpId, Operation>, p: Dict<OpId, Operation>, c: nat, d: nat, late: bool)
    requires OpsFlow(o, p, c, d, late)
    ensures p.at.Keys == o.at.Keys && forall id :: id in o.at ==> p.at[id].committed == o.at[id].committed
  {
    assert forall id :: id in o.at ==> OpFlow(o.at[id], p.at[id], c, d, late);
  }

  /** The holder changes its challenge state. */
  lemma StillActiveKeeps(s: State, id: OpId, op: Operation, at: nat)
    requires CoreAt(s, at) && id in s.ops.at && Active(s.ops.at[id].state) && !s.ops.at[id].state.Checking?
    requires op == s.ops.at[id].(state := op.state, errorCode := op.errorCode) && Active(op.state) && !op.state.Checking?
    ensures var t := SetOp(s, id, op); CoreAt(t, at) && Flow(s, t)
  {
    hide OpsOk, OpsFlow, LinksOk, PendingOk, CallsOk, AllQuiet, LeasesOk;
    ActiveHoldsSlot(s, id, at);
    OpsOkAt(s.ops, s.env.clock, id);
    WithOk(s.ops, id, op, s.env.clock);
    WithFlow(s.ops, id, op, s.env.clock, s.env.clock, false);
    ActiveSlotKept(s.ops.at, s.slot, op);
  }

  // ---- starting a sign-in -------------------------------------------------------------------------

  lemma StartKeeps(s: State, id: OpId, email: Email, password: string)
    requires Inv(s)
    ensures Inv(StartConnection(s, id, email, password).0)
  {
    hide EnsureStarted, ListUsers, SignIn, CoreAt, DiskOk, Flow, Moves, Housekeeping;
    if id !in s.ops.at && !Busy(s) {
      EnsureStartedKeeps(s, s.env.clock);
      var (t, error) := EnsureStarted(s);
      KeepsInv(s, t);
      if error.None? && !Busy(t) {
        CoreHasBase(t, s.env.clock);
        ListUsersKeeps(t);
        var (l, users) := ListUsers(t);
        HousekeepingInv(t, l);
        if users.Some? {
          FlowKeys(s, t);
          assert !Busy(l);
          StartedStays(s, t, error);
          SignInKeeps(l, id, email, users.value);
        }
      }
    }
  }

  lemma FlowKeys(s: State, t: State)
    requires Flow(s, t)
    ensures t.ops.at.Keys == s.ops.at.Keys
  {
  }

  lemma StartedStays(s: State, t: State, error: Option<ErrorCode>)
    requires CoreAt(s, s.env.clock) && (t, error) == EnsureStarted(s) && error.None?
    ensures t.proc.started
  {
    hide AfterRestart, CallRecover, CallStart, CoreAt, Flow;
    EnsureStartedKeeps(s, s.env.clock);
  }

  /** A new attempt takes the free slot and is journaled before Bridge hears of it. */
  lemma EnterKeeps(s: State, id: OpId, email: Email, preexisting: set<UserId>)
    requires Inv(s) && !Busy(s) && id !in s.ops.at && s.proc.started && !s.env.dead
    ensures var t := Persist(s.(ops := s.ops.Put(id, NewOperation(id, email, s.env.clock, preexisting)), slot := Some(id)));
      Inv(t) && t.env.login.Idle? && t.slot == Some(id) && id in t.ops.at && t.ops.at[id].state.Authenticating? &&
      !t.ops.at[id].reconcile && id in t.disk.ops.at && Active(t.disk.ops.at[id].state) && !BusyElsewhere(t)
  {
    hide LinksOk, PendingOk, CallsOk, LeasesOk, ProcOk, DiskOk, JournalOk;
    var op := NewOperation(id, email, s.env.clock, preexisting);
    PutWf(s.ops, id, op);
    var t := s.(ops := s.ops.Put(id, op), slot := Some(id));
    EnterOps(s.ops, s.slot, id, op, s.env.clock);
    assert CoreAt(t, t.env.clock);
    PersistKeeps(t);
  }

  lemma EnterOps(ops: Dict<OpId, Operation>, slot: Option<OpId>, id: OpId, op: Operation, clock: nat)
    requires OpsOk(ops, clock) && SlotOk(ops.at, slot) && slot.None? && !AnyFlagged(ops.at) && id !in ops.at
    requires op.id == id && OpOk(op, clock) && op.state.Authenticating? && op.userId.None? && !op.reconcile
    ensures OpsOk(ops.Put(id, op), clock) && SlotOk(ops.Put(id, op).at, Some(id)) && !AnyFlagged(ops.Put(id, op).at)
  {
    PutWf(ops, id, op);
  }

  lemma LoggedLogins(s: State, id: OpId)
    ensures Logins(LoginLogged(s, id).env.calls) == Logins(s.env.calls) + if Reaches(s) then [id] else []
  {
    hide BusyElsewhere;
    if Reaches(s) {
      var calls := LoginLogged(s, id).env.calls;
      assert calls[..|calls| - 1] == s.env.calls;
    }
  }

  lemma LoggedClock(s: State, id: OpId)
    ensures var t := LoginLogged(s, id); t == s.(env := s.env.(calls := t.env.calls))
    ensures var t := LoginLogged(s, id); s.env.calls <= t.env.calls && forall i :: |s.env.calls| <= i < |t.env.calls| ==> t.env.calls[i].CalledLogin?
  {
  }

  lemma LoggedKeeps(s: State, id: OpId)
    requires Inv(s) && s.slot == Some(id)
    requires id in s.disk.ops.at && Active(s.disk.ops.at[id].state) && !BusyElsewhere(s)
    ensures Inv(LoginLogged(s, id))
  {
    hide OpsOk, SlotOk, LoginOk, ProcOk, LinksOk, PendingOk, LeasesOk, AllQuiet, DiskOk, BusyElsewhere, JournalOk;
  }

  lemma CallLoginKeeps(s: State, id: OpId, at: nat)
    requires CoreAt(s, at) && s.slot == Some(id) && id in s.ops.at && s.env.login.Idle? && s.proc.started
    requires Active(s.ops.at[id].state) && !s.ops.at[id].state.Checking? && s.proc.restarted.None?
    requires id in s.disk.ops.at && Active(s.disk.ops.at[id].state) && !BusyElsewhere(s)
    ensures var t := CallLogin(s, id).0; CoreAt(t, at) && Flow(LoginLogged(s, id), t) && t == s.(env := t.env)
  {
    hide NativeCall, OpsFlow, LinksOk, PendingOk, LeasesOk, ProcOk, OpsKept, AllQuiet, BusyElsewhere, Logins, JournalOk, CallsSpare, RemovalsKept;
    var logged := LoginLogged(s, id);
    assert CoreAt(logged, at);
    OpsOkAt(s.ops, s.env.clock, id);
    NativeCallKeeps(logged);
    var t := NativeCall(logged).0;
    HousekeepingKeeps(logged, t, at);
    HousekeepingFlows(logged, t);
  }

  /** The new attempt reaches native.login once, unless the worker dies before, and is the only one that
      does. */
  lemma SignInKeeps(s: State, id: OpId, email: Email, preexisting: set<UserId>)
    requires Inv(s) && !Busy(s) && id !in s.ops.at && s.proc.started && !s.env.dead
    ensures var t := SignIn(s, id, email, preexisting);
      && Inv(t) && t.ops.at.Keys == s.ops.at.Keys + {id} && t.links == s.links
      && Logins(t.env.calls) == Logins(s.env.calls) + if Reaches(s) then [id] else []
  {
    hide CoreAt, DiskOk, CallLogin, Flow, Moves, End, BusyElsewhere, LoginLogged, Logins;
    EnterKeeps(s, id, email, preexisting);
    var t := Persist(s.(ops := s.ops.Put(id, NewOperation(id, email, s.env.clock, preexisting)), slot := Some(id)));
    NotRestarting(s);
    CallLoginKeeps(t, id, s.env.clock);
    LoggedLogins(t, id);
    LoggedKeeps(t, id);
    assert LoginLogged(t, id).env.clock == t.env.clock by { LoggedClock(t, id); }
    var (r, ok) := CallLogin(t, id);
    KeepsInv(LoginLogged(t, id), r);
    FlowClock(LoginLogged(t, id), r);
    EndHolderKeeps(r, id, Failed, Some(Unavailable), s.env.clock);
    var e := End(r, id, Failed, Some(Unavailable));
    KeepsPersistedLater(r, e, s.env.clock);
    FlowNoLogin(LoginLogged(t, id), r);
    FlowNoLogin(r, e);
  }

  lemma FlowNoLogin(s: State, t: State)
    requires Flow(s, t)
    ensures Logins(t.env.calls) == Logins(s.env.calls) && t.ops.at.Keys == s.ops.at.Keys && t.links == s.links
  {
    hide Logins;
  }

  lemma NotRestarting(s: State)
    requires Inv(s) && !BusyElsewhere(s)
    ensures s.proc.restarted.None?
  {
  }

  lemma KeepsPersistedLater(s: State, t: State, at: nat)
    requires CoreAt(t, at) && Flow(s, t) && at <= s.env.clock
    ensures Inv(Persist(t)) && Moves(s, Persist(t))
  {
    hide CoreAt, OpsFlow, DiskOk, Persist, Moves;
    CoreLater(t, at, t.env.clock);
    PersistKeeps(t);
    FlowMoves(s, t);
    PersistMoves(s, t);
  }

  // ---- commit and unlink --------------------------------------------------------------------------

  lemma CommitKeeps(s: State, id: OpId, u: UserId, generation: Generation, previous: Option<Generation>)
    requires Inv(s)
    ensures Inv(CommitConnection(s, id, u, generation, previous).0)
  {
    hide DiskOk, CallsOk, LeasesOk, ProcOk, LoginOk, Save;
    var (r, reply) := CommitConnection(s, id, u, generation, previous);
    if reply == Accepted {
      var op := s.ops.at[id];
      var linked := s.(links := s.links[LinkKey(u, Lower(op.email)) := Link(u, op.email, generation)]);
      LinkKeepsPending(s.pending.at, s.links, LinkKey(u, Lower(op.email)), Link(u, op.email, generation));
      assert CoreAt(linked, s.env.clock);
      if op.committed {
        PersistKeeps(linked);
      } else {
        CommitOp(s.ops, s.slot, id, s.env.clock, s.gate.sealed, s.cfg.ttl);
        NotHolder(s.ops.at, s.slot, id);
        var t := SetOp(linked, id, op.(committed := true, endedAt := Some(s.env.clock)));
        CommitLogin(s, t, id);
        PersistKeeps(t);
      }
    }
  }

  lemma LinkKeepsPending(pending: map<UserId, Removal>, links: map<LinkKey, Link>, key: LinkKey, link: Link)
    requires PendingOk(pending, links) && LinksOk(links) && key.user !in pending && key == LinkKey(link.user, Lower(link.email))
    ensures PendingOk(pending, links[key := link]) && LinksOk(links[key := link])
  {
    forall u | u in pending
      ensures !HasLink(links[key := link], u)
    {
      assert !HasLink(links, u);
    }
  }

  lemma CommitOp(ops: Dict<OpId, Operation>, slot: Option<OpId>, id: OpId, clock: nat, sealed: bool, ttl: nat)
    requires OpsOk(ops, clock) && SlotOk(ops.at, slot) && id in ops.at && ops.at[id].state.Connected? && ops.at[id].userId.Some?
    requires sealed ==> AllQuiet(ops.at, clock, ttl)
    ensures var t := With(ops, id, ops.at[id].(committed := true, endedAt := Some(clock)));
      OpsOk(t, clock) && SlotOk(t.at, slot) && (sealed ==> AllQuiet(t.at, clock, ttl))
  {
  }

  lemma CommitLogin(s: State, t: State, id: OpId)
    requires CoreAt(s, s.env.clock) && id in s.ops.at && s.slot != Some(id)
    requires t.env == s.env && t.proc == s.proc && t.slot == s.slot && t.cfg == s.cfg
    requires id in t.ops.at && t.ops.at == s.ops.at[id := t.ops.at[id]]
    ensures LoginOk(t.env.login, t.proc, t.ops.at, t.slot, t.cfg.recoverySeconds, t.env.clock)
  {
    hide Base, ProcOk, SealOk, LeasesOk, SlotOk;
  }

  lemma CutKeeps(s: State, key: LinkKey, at: nat)
    requires CoreAt(s, at)
    ensures CoreAt(s.(links := s.links - {key}), at)
  {
    hide OpsOk, SlotOk, LoginOk, ProcOk, SealOk, LeasesOk, CallsOk;
    forall u | u in s.pending.at
      ensures !HasLink(s.links - {key}, u)
    {
      assert !HasLink(s.links, u);
    }
  }

  lemma RemoveKeeps(s: State, u: UserId, generation: Generation, email: Email)
    requires Inv(s)
    ensures var t := RemoveUser(s, u, generation, email).0; Inv(t) && Drifts(s, t.(links := s.links)) && (t.env.dead ==> t.disk == s.disk)
  {
    hide EnsureStarted, CoreAt, DiskOk, Flow, Moves, Drifts, Housekeeping, Base, Save, BeginRemoval, HandOver, HasLink, HasHeir, HeldIn;
    MovesReflexive(s);
    MovesAside(s, s);
    MovesAside(s, EnsureStarted(s).0);
    FlowReflexive(s);
    var key := LinkKey(u, Lower(email));
    if SafeEmail(email) && Admitted(s, None) && key in s.links && s.links[key].generation == generation {
      var others := exists k | k in s.links :: k.user == u && k != key;
      EnsureStartedKeeps(s, s.env.clock);
      var (t, error) := if others then (s, None) else EnsureStarted(s);
      KeepsInv(s, t);
      FlowFrame(s, t);
      if error.None? {
        var cut := t.(links := t.links - {key});
        CutKeeps(t, key, s.env.clock);
        FlowClock(s, t);
        CoreHasBase(cut, s.env.clock);
        if others {
          CutPersisted(s, t, cut, cut, s.env.clock);
        } else if HasHeir(cut, u, None) {
          HandOverKeeps(cut, u, None);
          CutPersisted(s, t, cut, HandOver(cut, u, None), s.env.clock);
        } else if u in cut.pending.at {
          CutPersisted(s, t, cut, cut, s.env.clock);
        } else {
          FlowLinks(s, t);
          CutFree(cut, key, u);
          BeginRemovalKeeps(cut, u, Unlink);
          CutPersisted(s, t, cut, BeginRemoval(cut, u, Unlink), s.env.clock);
        }
      }
    }
  }

  lemma MovesAside(s: State, t: State)
    ensures Moves(s, t) ==> Drifts(s, t.(links := s.links))
  {
    hide OpsFlow, Logins, CallsSpare, RemovalsKept;
  }

  lemma FlowLinks(s: State, t: State)
    requires Flow(s, t)
    ensures t.links == s.links
  {
  }

  /** After the last link of u is cut and no attempt inherits it, nothing holds u. */
  lemma CutFree(cut: State, key: LinkKey, u: UserId)
    requires !HasHeir(cut, u, None)
    requires forall k :: k in cut.links ==> k.user != u
    ensures !HasLink(cut.links, u) && !HeldIn(cut.ops.at, u)
  {
    assert forall o :: o in cut.ops.at && Holds(cut.ops.at[o], u) ==> Heir(cut.ops.at[o], u);
  }

  lemma CutPersisted(s: State, t: State, cut: State, r: State, at: nat)
    requires Flow(s, t) && cut == t.(links := cut.links) && CoreAt(cut, at) && at <= s.env.clock
    requires r == cut || (Housekeeping(cut, r) && Base(r))
    ensures Inv(Persist(r)) && Drifts(s, Persist(r).(links := s.links)) && r.disk == s.disk
  {
    hide CoreAt, OpsFlow, DiskOk, Save, Base, OpsKept, LoginMoves, Logins, CallsSpare, RemovalsKept;
    if r != cut {
      HousekeepingKeeps(cut, r, at);
      HousekeepingFlows(cut, r);
    } else {
      FlowReflexive(cut);
    }
    FlowClock(cut, r);
    CoreLater(r, at, r.env.clock);
    PersistKeeps(r);
    if !r.env.dead {
      RemovalsKeptTransitive(s.pending.at, t.pending.at, r.pending.at, s.env.calls, t.env.calls, r.env.calls);
    }
    OpsFlowTransitive(s.ops, t.ops, r.ops, s.env.clock, t.env.clock, r.env.clock, s.env.fails < t.env.fails, t.env.fails < r.env.fails);
  }

  // ---- leases and the gate ------------------------------------------------------------------------

  lemma OnlyGate(s: State, t: State)
    requires Inv(s) && t == s.(gate := t.gate) && LeasesOk(t.gate)
    requires t.gate.sealed ==> s.gate.sealed && t.gate.snapshot.Some? && t.gate.leases == {}
    ensures Inv(t)
    ensures t.gate.leases == s.gate.leases && t.gate.cancelled == s.gate.cancelled && GateMoves(s, t) ==> Moves(s, t)
  {
    hide OpsOk, SlotOk, LoginOk, ProcOk, LinksOk, PendingOk, CallsOk, DiskOk, AllQuiet, Logins;
  }

  lemma AcquireKeeps(s: State, l: LeaseId)
    requires Inv(s)
    ensures Inv(AcquireLease(s, l).0)
  {
    hide Base, SlotOk, LoginOk, ProcOk, DiskOk, AllQuiet, Moves;
    WithoutDistinct(s.gate.cancelled, l);
    OnlyGate(s, AcquireLease(s, l).0);
  }

  lemma ReleaseKeeps(s: State, l: LeaseId)
    requires Inv(s)
    ensures Inv(ReleaseLease(s, l).0)
  {
    hide Base, SlotOk, LoginOk, ProcOk, DiskOk, AllQuiet, Moves;
    OnlyGate(s, ReleaseLease(s, l).0);
  }

  lemma BeginKeeps(s: State, id: SnapshotId)
    requires Inv(s)
    ensures Inv(SnapshotBegin(s, id).0)
  {
    hide Base, SlotOk, LoginOk, ProcOk, DiskOk, AllQuiet, Moves;
    OnlyGate(s, SnapshotBegin(s, id).0);
  }

  lemma RenewKeeps(s: State, id: SnapshotId)
    requires Inv(s)
    ensures var t := SnapshotRenew(s, id).0; Inv(t) && Moves(s, t)
  {
    hide Base, SlotOk, LoginOk, ProcOk, DiskOk, AllQuiet, Moves;
    OnlyGate(s, SnapshotRenew(s, id).0);
  }

  lemma UnlockKeeps(s: State, at: nat)
    requires CoreAt(s, at)
    ensures CoreAt(Unlocked(s), at)
  {
    hide OpsOk, SlotOk, LoginOk, ProcOk, LinksOk, PendingOk, CallsOk, AllQuiet;
  }

  lemma OpenGateKeeps(s: State)
    requires Inv(s)
    ensures var t := OpenGate(s); Inv(t) && Moves(s, t) && t.gate.snapshot.None?
  {
    hide EnsureStarted, CoreAt, DiskOk, Flow, Moves, NeedsBridge, Persist;
    UnlockKeeps(s, s.env.clock);
    var t := Unlocked(s);
    FlowReflexive(t);
    EnsureStartedKeeps(t, s.env.clock);
    var (r, error) := EnsureStarted(t);
    FlowClock(t, r);
    var r' := r.(proc := r.proc.(nextStartAt := r.env.clock + r.cfg.recoverySeconds));
    NextStartKeeps(r, s.env.clock);
    var q := if !NeedsBridge(t) then t else if error.Some? then r' else r;
    UnlockedMoves(s, t);
    UnlockedMoves(s, r);
    PersistMoves(s, q);
    CoreLater(q, s.env.clock, q.env.clock);
    PersistKeeps(q);
    PersistGate(q);
  }

  lemma UnlockedMoves(s: State, r: State)
    requires Flow(Unlocked(s), r)
    ensures Moves(s, r) && r.gate.snapshot.None?
    ensures forall n :: Moves(s, r.(proc := r.proc.(nextStartAt := n)))
  {
    hide OpsFlow, CallsSpare, RemovalsKept, Logins;
  }

  lemma PersistGate(s: State)
    ensures Persist(s).gate == s.gate
  {
  }

  lemma NextStartKeeps(s: State, at: nat)
    requires CoreAt(s, at)
    ensures forall n :: CoreAt(s.(proc := s.proc.(nextStartAt := n)), at)
  {
    hide Base, SlotOk, AllQuiet, LeasesOk;
    forall n
      ensures CoreAt(s.(proc := s.proc.(nextStartAt := n)), at)
    {
      assert Base(s.(proc := s.proc.(nextStartAt := n))) by { BaseAnyProc(s, s.proc.(nextStartAt := n)); }
    }
  }

  lemma EndGateKeeps(s: State, id: SnapshotId)
    requires Inv(s)
    ensures var t := SnapshotEnd(s, id).0; Inv(t) && Moves(s, t)
  {
    hide OpenGate, Core, DiskOk, Moves;
    MovesReflexive(s);
    OpenGateKeeps(s);
  }

  lemma NoneActive(o: Dict<OpId, Operation>, p: Dict<OpId, Operation>, slot: Option<OpId>, c: nat, d: nat, ttl: nat, late: bool)
    requires SlotOk(o.at, slot) && OpsFlow(o, p, c, d, late) && c <= d
    requires forall id :: id in o.at && o.at[id].state.Connected? && !o.at[id].committed ==> o.at[id].createdAt + ttl <= c
    requires slot.Some? ==> slot.value in p.at && Ended(p.at[slot.value].state)
    ensures AllQuiet(p.at, d, ttl)
  {
    forall id | id in p.at
      ensures Quiet(p.at[id], d, ttl)
    {
      assert OpFlow(o.at[id], p.at[id], c, d, late);
    }
  }

  lemma MarkOp(ops: Dict<OpId, Operation>, slot: Option<OpId>, id: OpId, clock: nat)
    requires OpsOk(ops, clock) && SlotOk(ops.at, slot) && id in ops.at && Ended(ops.at[id].state)
    requires slot == Some(id) || slot.None?
    ensures var t := With(ops, id, ops.at[id].(reconcile := true));
      OpsOk(t, clock) && SlotOk(t.at, slot) && forall c, ttl :: AllQuiet(ops.at, c, ttl) ==> AllQuiet(t.at, c, ttl)
  {
  }

  lemma MarkKeeps(s: State, id: OpId, at: nat)
    requires CoreAt(s, at) && id in s.ops.at && Ended(s.ops.at[id].state)
    requires s.slot == Some(id) || s.slot.None?
    ensures var t := SetOp(s, id, s.ops.at[id].(reconcile := true)); CoreAt(t.(proc := t.proc.(nativeLost := true)), at)
  {
    hide OpsOk, SlotOk, LinksOk, PendingOk, CallsOk, LeasesOk, AllQuiet;
    MarkOp(s.ops, s.slot, id, s.env.clock);
  }

  /** Before Bridge stops, its sign-in counts as lost: the holder has ended and is marked. */
  lemma SettleKeeps(s: State, at: nat)
    requires CoreAt(s, at) && !(exists id :: id in s.ops.at && Finalizing(s, s.ops.at[id]))
    ensures var t := SettleHolder(s);
      && CoreAt(t.(proc := t.proc.(nativeLost := true)), at) && Flow(s, t)
      && AllQuiet(t.ops.at, t.env.clock, s.cfg.ttl)
      && t.proc == s.proc
  {
    hide StopAttempt, OpsFlow, OpsOk, SlotOk, LinksOk, PendingOk, CallsOk, LeasesOk, AllQuiet, EnvMoves;
    FlowReflexive(s);
    HolderExists(s.ops.at, s.slot);
    if Holder(s).None? {
      assert forall id :: id in s.ops.at && s.ops.at[id].state.Connected? && !s.ops.at[id].committed ==> !Finalizing(s, s.ops.at[id]);
      NoneActive(s.ops, s.ops, s.slot, s.env.clock, s.env.clock, s.cfg.ttl, false);
    } else {
      if Active(Holder(s).value.state) {
        StopAttemptKeeps(s, s.slot.value, Expired, None, at);
        MarkedQuiet(s, StopAttempt(s, s.slot.value, Expired, None), s.slot.value, at);
      } else {
        MarkedQuiet(s, s, s.slot.value, at);
      }
    }
  }

  lemma MarkedQuiet(s: State, t: State, id: OpId, at: nat)
    requires CoreAt(s, at) && !(exists o :: o in s.ops.at && Finalizing(s, s.ops.at[o])) && s.slot == Some(id)
    requires CoreAt(t, at) && Flow(s, t) && id in t.ops.at && Ended(t.ops.at[id].state)
    ensures var r := SetOp(t, id, t.ops.at[id].(reconcile := true));
      && CoreAt(r.(proc := r.proc.(nativeLost := true)), at) && Flow(s, r) && AllQuiet(r.ops.at, r.env.clock, s.cfg.ttl)
  {
    hide OpsFlow, OpsOk, SlotOk, LoginOk, ProcOk, SealOk, LinksOk, PendingOk, CallsOk, LeasesOk, AllQuiet;
    MarkKeeps(t, id, at);
    var r := SetOp(t, id, t.ops.at[id].(reconcile := true));
    WithFlow(t.ops, id, r.ops.at[id], t.env.clock, t.env.clock, false);
    FlowTransitive(s, t, r);
    assert forall o :: o in s.ops.at && s.ops.at[o].state.Connected? && !s.ops.at[o].committed ==> !Finalizing(s, s.ops.at[o]);
    NoneActive(s.ops, r.ops, s.slot, s.env.clock, r.env.clock, s.cfg.ttl, s.env.fails < r.env.fails);
  }

  lemma TurnIgnoresProc(s: State, proc: Proc, a: Answer)
    ensures Turn(s.(proc := proc), a) == Turn(s, a).(proc := proc)
  {
    hide Went;
    WentIgnoresProc(s, proc, a);
  }

  lemma WentIgnoresProc(s: State, proc: Proc, a: Answer)
    ensures var t := Went(s, a); Went(s.(proc := proc), a) == t.(proc := proc) && t == s.(env := t.env)
  {
    hide Counted;
    assert Accountable(s.(proc := proc), if a.born.Some? then a.born.value else 0) == Accountable(s, if a.born.Some? then a.born.value else 0);
  }

  /** Bridge is shut down under a settled holder. */
  lemma ShutdownKeeps(s: State, at: nat)
    requires var lost := s.(proc := s.proc.(nativeLost := true)); CoreAt(lost, at)
    requires s.proc.started
    ensures var (r, ok) := CallShutdown(s.(proc := s.proc.(started := false)));
      r.proc == s.proc.(started := false) &&
      if ok then r.env.login.Idle? && CoreAt(r, at) && Housekeeping(s, r.(proc := s.proc))
      else CoreAt(r.(proc := s.proc.(nativeLost := true)), at) && Housekeeping(s, r.(proc := s.proc))
  {
    hide Turn, OpsOk, SlotOk, OpsKept, OpsFlow, AllQuiet, LinksOk, PendingOk, CallsOk, LeasesOk;
    var lost := s.(proc := s.proc.(nativeLost := true));
    var stopped := s.(proc := s.proc.(started := false));
    TurnIgnoresProc(Popped(lost), stopped.proc, Next(s));
    TurnKeeps(Popped(lost), Next(s));
    var u := Turn(Popped(lost), Next(s));
    HousekeepingKeeps(Popped(lost), u, at);
  }

  lemma SealedCore(s: State, at: nat)
    requires CoreAt(s, at) && s.gate.snapshot.Some? && s.gate.leases == {} && !s.proc.started && !s.proc.recovering
    requires AllQuiet(s.ops.at, s.env.clock, s.cfg.ttl)
    ensures Inv(Persist(s.(gate := s.gate.(sealed := true))))
  {
    hide OpsOk, SlotOk, LoginOk, ProcOk, LinksOk, PendingOk, CallsOk, AllQuiet, DiskOk, Save;
    var t := s.(gate := s.gate.(sealed := true));
    assert CoreAt(t, at);
    assert Core(t) by { if at <= s.env.clock { CoreLater(t, at, t.env.clock); } else { LoginIdleAnyTime(t, at); } }
    PersistKeeps(t);
  }

  lemma LoginIdleAnyTime(s: State, at: nat)
    requires CoreAt(s, at) && !s.proc.started
    ensures Core(s)
  {
  }

  /** The end of a drain: the gate is sealed, or opens again because Bridge would not stop. */
  lemma SealKeeps(s: State)
    requires Inv(s) && s.gate.snapshot.Some? && s.gate.leases == {} && !LoginActive(s)
    ensures var t := SettleHolder(s);
      var (r, ok) := if t.proc.started then CallShutdown(t.(proc := t.proc.(started := false))) else (t, true);
      var q := if ok then Persist(r.(gate := r.gate.(sealed := true)))
               else Unlocked(r.(proc := r.proc.(started := true, nativeLost := true)));
      Inv(q) && Moves(s, q)
  {
    hide SettleHolder, OpsFlow, Base, SlotOk, LoginOk, ProcOk, SealOk, LeasesOk, AllQuiet, DiskOk, Persist, OpsKept, CallShutdown,
         LoginMoves, CoreAt, Moves, Drifts, RemovalsMove, Logins;
    var t := SettleHolder(s);
    SettleKeeps(s, s.env.clock);
    if t.proc.started {
      ShutdownKeeps(t, s.env.clock);
      var (r, ok) := CallShutdown(t.(proc := t.proc.(started := false)));
      HousekeepingFlows(t, r.(proc := t.proc));
      FlowTransitive(s, t, r.(proc := t.proc));
      OpsKeptQuiet(t.ops, r.ops, t.env.clock, r.env.clock, s.cfg.ttl);
      if ok {
        SealedCore(r, s.env.clock);
        StopMoves(s, r, r.(gate := r.gate.(sealed := true)));
        PersistMoves(s, r.(gate := r.gate.(sealed := true)));
      } else {
        StopMoves(s, r, Unlocked(r.(proc := r.proc.(started := true, nativeLost := true))));
        var p := r.(proc := t.proc.(nativeLost := true));
        CoreLater(p, s.env.clock, p.env.clock);
        UnlockKeeps(p, p.env.clock);
        if !p.env.dead {
          FlowDisk(s.disk, s.links, s.ops, p.ops, s.env.clock, p.env.clock, s.env.fails < p.env.fails);
        }
      }
    } else {
      StoppedCore(t, s.env.clock);
      SealedCore(t, s.env.clock);
      StopMoves(s, t, t.(gate := t.gate.(sealed := true)));
      PersistMoves(s, t.(gate := t.gate.(sealed := true)));
    }
  }

  /** Stopping Bridge, with the gate sealed or opened, is a move. */
  lemma StopMoves(s: State, r: State, q: State)
    requires Flow(s, r.(proc := s.proc)) && q == r.(proc := q.proc, gate := q.gate)
    requires q.proc == s.proc.(started := q.proc.started, nativeLost := q.proc.nativeLost)
    requires s.gate.snapshot.Some? && q.gate.leases == s.gate.leases && q.gate.cancelled == s.gate.cancelled
    requires q.gate.snapshot.Some? ==> q.gate.sealed
    ensures Moves(s, q)
  {
    hide OpsFlow, CallsSpare, RemovalsKept, Logins;
  }

  lemma StoppedCore(s: State, at: nat)
    requires CoreAt(s.(proc := s.proc.(nativeLost := true)), at) && !s.proc.started
    ensures CoreAt(s, at)
  {
    hide OpsOk, SlotOk, LinksOk, PendingOk, CallsOk, LeasesOk, AllQuiet;
  }

  lemma DrainKeeps(s: State, id: SnapshotId, deadline: nat)
    requires Inv(s)
    ensures var t := DrainRound(s, id, deadline).0; Inv(t) && Moves(s, t)
  {
    hide SettleHolder, CallShutdown, CoreAt, DiskOk, Moves, LoginActive, Save;
    MovesReflexive(s);
    if s.gate.snapshot == Some(id) {
      if s.gate.leases == {} && !LoginActive(s) {
        SealKeeps(s);
      } else {
        UnlockKeeps(s, s.env.clock);
        OnlyUnlocked(s);
      }
    }
  }

  lemma OnlyUnlocked(s: State)
    requires Inv(s)
    ensures Inv(Unlocked(s)) && Moves(s, Unlocked(s))
  {
    hide OpsOk, SlotOk, LoginOk, ProcOk, LinksOk, PendingOk, CallsOk, AllQuiet;
  }

  // ---- timers -------------------------------------------------------------------------------------

  lemma ExpireOneKeeps(s: State, id: OpId, now: nat, at: nat)
    requires CoreAt(s, at)
    ensures var t := ExpireOne(s, id, now); CoreAt(t, at) && Flow(s, t) && t.proc == s.proc
    ensures var t := ExpireOne(s, id, now);
      id in t.ops.at && t.ops.at[id].createdAt + s.cfg.ttl <= now ==>
        !Active(t.ops.at[id].state) && (t.ops.at[id].state.Connected? ==> t.ops.at[id].committed)
  {
    hide CoreAt, Flow, StopAttempt, DropAttemptUser, End;
    FlowReflexive(s);
    if id in s.ops.at && s.ops.at[id].createdAt + s.cfg.ttl <= now {
      if Active(s.ops.at[id].state) {
        StopAttemptKeeps(s, id, Expired, None, at);
      } else if s.ops.at[id].state.Connected? && !s.ops.at[id].committed {
        GiveUpKeeps(s, id, Expired, at);
      }
    }
  }

  lemma {:induction false} ExpireKeeps(s: State, ids: seq<OpId>, now: nat, at: nat)
    requires CoreAt(s, at)
    ensures var t := Expire(s, ids, now); CoreAt(t, at) && Flow(s, t) && t.proc == s.proc
    decreases ids
  {
    hide CoreAt, Flow, ExpireOne;
    FlowReflexive(s);
    if ids != [] {
      ExpireOneKeeps(s, ids[0], now, at);
      var t := ExpireOne(s, ids[0], now);
      ExpireKeeps(t, ids[1..], now, at);
      FlowTransitive(s, t, Expire(s, ids, now));
    }
  }

  /** Attempts past their lifetime have ended or are committed. */
  ghost predicate Settled(ops: map<OpId, Operation>, ids: seq<OpId>, now: nat, ttl: nat) {
    forall id :: id in ids && id in ops && ops[id].createdAt + ttl <= now ==> Ended(ops[id].state) || ops[id].committed
  }

  lemma FlowSettled(o: Dict<OpId, Operation>, p: Dict<OpId, Operation>, c: nat, d: nat, late: bool, ids: seq<OpId>, now: nat, ttl: nat)
    requires OpsFlow(o, p, c, d, late) && Settled(o.at, ids, now, ttl)
    ensures Settled(p.at, ids, now, ttl)
  {
    forall id | id in ids && id in p.at && p.at[id].createdAt + ttl <= now
      ensures Ended(p.at[id].state) || p.at[id].committed
    {
      assert OpFlow(o.at[id], p.at[id], c, d, late);
    }
  }

  lemma {:induction false} ExpireSettles(s: State, ids: seq<OpId>, now: nat, at: nat)
    requires CoreAt(s, at)
    ensures Settled(Expire(s, ids, now).ops.at, ids, now, s.cfg.ttl)
    decreases ids
  {
    hide CoreAt, ExpireOne, OpsFlow;
    if ids != [] {
      ExpireOneKeeps(s, ids[0], now, at);
      var t := ExpireOne(s, ids[0], now);
      assert Settled(t.ops.at, [ids[0]], now, s.cfg.ttl) by { OneSettled(s, t, ids[0], now); }
      ExpireKeeps(t, ids[1..], now, at);
      var r := Expire(t, ids[1..], now);
      FlowSettled(t.ops, r.ops, t.env.clock, r.env.clock, t.env.fails < r.env.fails, [ids[0]], now, s.cfg.ttl);
      ExpireSettles(t, ids[1..], now, at);
      assert ids == [ids[0]] + ids[1..];
    }
  }

  lemma OneSettled(s: State, t: State, id: OpId, now: nat)
    requires id in t.ops.at && t.ops.at[id].createdAt + s.cfg.ttl <= now ==>
        !Active(t.ops.at[id].state) && (t.ops.at[id].state.Connected? ==> t.ops.at[id].committed)
    ensures Settled(t.ops.at, [id], now, s.cfg.ttl)
  {
  }

  lemma RemovalTimerKeeps(s: State, u: UserId, now: nat, canRecover: bool)
    requires Base(s)
    ensures var t := RemovalTimer(s, u, now, canRecover).0; Base(t) && Housekeeping(s, t)
  {
    hide RetryRemoval, OpsOk, OpsKept, LinksOk, CallsOk, LoginMoves;
    HousekeepingReflexive(s);
    if u in s.pending.at {
      var item := s.pending.at[u];
      var stuck := s.(pending := s.pending.Put(u, item.(stuck := true)));
      RetryRemovalKeeps(stuck, u);
      HousekeepingTransitive(s, stuck, RetryRemoval(stuck, u));
      RetryRemovalKeeps(s, u);
    }
  }

  lemma {:induction false} RemovalTimersKeep(s: State, us: seq<UserId>, now: nat, canRecover: bool)
    requires Base(s)
    ensures var t := RemovalTimers(s, us, now, canRecover).0; Base(t) && Housekeeping(s, t)
    decreases us
  {
    hide Base, Housekeeping, RemovalTimer;
    HousekeepingReflexive(s);
    if us != [] {
      RemovalTimerKeeps(s, us[0], now, canRecover);
      var t := RemovalTimer(s, us[0], now, canRecover).0;
      RemovalTimersKeep(t, us[1..], now, canRecover);
      HousekeepingTransitive(s, t, RemovalTimers(s, us, now, canRecover).0);
    }
  }

  lemma MarkHolderKeeps(s: State, now: nat)
    requires CoreAt(s, now) && HolderDue(s, now)
    ensures CoreAt(MarkHolder(s), now) && Flow(s, MarkHolder(s)) && HolderDue(MarkHolder(s), now)
  {
    hide OpsOk, SlotOk, LinksOk, PendingOk, CallsOk, LeasesOk, AllQuiet, OpsFlow;
    HolderExists(s.ops.at, s.slot);
    MarkOp(s.ops, s.slot, s.slot.value, s.env.clock);
    WithFlow(s.ops, s.slot.value, Holder(s).value.(reconcile := true), s.env.clock, s.env.clock, false);
  }

  /** tick with the process: flow, and only nextStartAt besides. */
  lemma TickProcessKeeps(s: State, now: nat)
    requires CoreAt(s, now) && s.gate.snapshot.None? && now <= s.env.clock
    ensures var (t, recover) := TickProcess(s, now);
      CoreAt(t, now) && Moves(s, t) && t.disk == s.disk && t.links == s.links && t.gate == s.gate &&
      (!recover && !t.env.login.Idle? ==> t == s)
  {
    hide EnsureStarted, OpsOk, SlotOk, LinksOk, PendingOk, CallsOk, LeasesOk, AllQuiet, OpsFlow, NeedsBridge, ProcOk;
    MovesReflexive(s);
    if s.proc.started && !Alive(s) {
      if !NeedsBridge(s) && s.slot.None? {
        ForgetKeeps(s, now);
      }
    } else if !s.proc.started && NeedsBridge(s) && now >= s.proc.nextStartAt {
      EnsureStartedKeeps(s, now);
      NextStartKeeps(EnsureStarted(s).0, now);
    }
  }

  lemma ForgetKeeps(s: State, now: nat)
    requires CoreAt(s, now) && s.slot.None?
    ensures var t := s.(proc := s.proc.(started := false, nativeLost := false)); CoreAt(t, now) && Moves(s, t) && t.env.login.Idle?
  {
    hide OpsOk, SlotOk, LinksOk, PendingOk, CallsOk, LeasesOk, AllQuiet;
  }

  /** A retry of a failed reconciliation finds no sign-in of an ended holder: tick would recover Bridge. */
  lemma RetryIsSafe(s: State, now: nat)
    requires CoreAt(s, now) && !HolderDue(s, now) && Alive(s) && ReconcilePending(s)
    ensures s.env.login.Idle? || Active(Holder(s).value.state)
  {
  }

  lemma TickRecoveryKeeps(s: State, now: nat)
    requires CoreAt(s, now) && s.gate.snapshot.None? && now <= s.env.clock
    ensures var t := TickRecovery(s, now).0;
      CoreAt(t, now) && Moves(s, t) && t.disk == s.disk && t.links == s.links && t.gate == s.gate
    ensures TickRecovery(s, now).1 ==> s.proc.nextRecoveryAt <= now
  {
    hide CoreAt, Base, Flow, Housekeeping, RemovalTimers, HolderDue, MarkHolder, TickProcess, ReconcileAll, Alive,
         ReconcilePending, OpsFlow, EnvMoves;
    var canRecover := now >= s.proc.nextRecoveryAt;
    CoreHasBase(s, now);
    RemovalTimersKeep(s, s.pending.order, now, canRecover);
    var (a, removals) := RemovalTimers(s, s.pending.order, now, canRecover);
    HousekeepingKeeps(s, a, now);
    HousekeepingFlows(s, a);
    var due := HolderDue(a, now);
    if due {
      HolderDueHasHolder(a, now);
    }
    var b := if due then MarkHolder(a) else a;
    if due {
      MarkHolderKeeps(a, now);
      FlowTransitive(s, a, b);
    }
    FlowIsMoves(s, b);
    TickProcessKeeps(b, now);
    var (c, process) := TickProcess(b, now);
    MovesTransitive(s, b, c);
    var wanted := removals || due || process;
    if !wanted && Alive(c) && ReconcilePending(c) && now >= c.proc.nextReconcileAt {
      if !c.env.login.Idle? {
        RetryIsSafe(c, now);
      }
      ReconcileAllKeeps(c, now);
      MovesThenFlow(s, c, ReconcileAll(c).0);
      FlowFrame(c, ReconcileAll(c).0);
    }
  }

  lemma HolderDueHasHolder(s: State, now: nat)
    requires HolderDue(s, now)
    ensures Holder(s).Some?
  {
  }

  lemma FlowFrame(s: State, t: State)
    requires Flow(s, t)
    ensures t.disk == s.disk && t.links == s.links && t.gate == s.gate
  {
  }

  lemma FlowIsMoves(s: State, t: State)
    requires Flow(s, t)
    ensures Moves(s, t) && t.disk == s.disk && t.links == s.links && t.gate == s.gate && s.env.clock <= t.env.clock
  {
  }

  // ---- forgetting attempts ------------------------------------------------------------------------

  /** Attempts are only forgotten, and only ended ones that hold nothing. */
  ghost predicate Forgets(o: Dict<OpId, Operation>, p: Dict<OpId, Operation>, slot: Option<OpId>, clock: nat, ttl: nat) {
    && (forall id :: id in p.at ==> id in o.at && p.at[id] == o.at[id])
    && (forall id :: id in o.at && id !in p.at ==>
          !Active(o.at[id].state) && slot != Some(id) && !o.at[id].reconcile &&
          o.at[id].endedAt.Some? && o.at[id].endedAt.value + ttl <= clock)
  }

  lemma {:induction false} PruneForgets(s: State, ids: seq<OpId>, now: nat)
    requires s.ops.Wf()
    ensures var t := Prune(s, ids, now); t == s.(ops := t.ops) && t.ops.Wf() && Forgets(s.ops, t.ops, s.slot, now, s.cfg.ttl)
    decreases ids
  {
    if ids != [] {
      if ids[0] in s.ops.at && Prunable(s, ids[0], now) {
        DropWf(s.ops, ids[0]);
        PruneForgets(s.(ops := s.ops.Drop(ids[0])), ids[1..], now);
      } else {
        PruneForgets(s, ids[1..], now);
      }
    }
  }

  lemma ForgetsOk(o: Dict<OpId, Operation>, p: Dict<OpId, Operation>, slot: Option<OpId>, now: nat, ttl: nat, clock: nat)
    requires Forgets(o, p, slot, now, ttl) && OpsOk(o, clock) && SlotOk(o.at, slot) && p.Wf()
    ensures OpsOk(p, clock) && SlotOk(p.at, slot)
    ensures slot.Some? ==> slot.value in p.at && slot.value in o.at && p.at[slot.value] == o.at[slot.value]
    ensures forall c, l :: AllQuiet(o.at, c, l) ==> AllQuiet(p.at, c, l)
  {
  }

  lemma PruneKeeps(s: State, now: nat, at: nat)
    requires CoreAt(s, at)
    ensures CoreAt(Prune(s, s.ops.order, now), at)
  {
    hide Prune, OpsOk, SlotOk, LinksOk, PendingOk, CallsOk, LeasesOk, AllQuiet, Forgets;
    assert s.ops.Wf() by { OpsOkWf(s.ops, s.env.clock); }
    PruneForgets(s, s.ops.order, now);
    ForgetsOk(s.ops, Prune(s, s.ops.order, now).ops, s.slot, now, s.cfg.ttl, s.env.clock);
  }

  lemma InvIsWf(s: State)
    requires Inv(s)
    ensures s.ops.Wf()
  {
    hide SlotOk, LoginOk, ProcOk, SealOk, LeasesOk, LinksOk, PendingOk, CallsOk, JournalOk, DiskOk;
  }

  lemma OpsOkWf(ops: Dict<OpId, Operation>, clock: nat)
    requires OpsOk(ops, clock)
    ensures ops.Wf()
  {
  }

  /** tick before it forgets attempts: whether it will recover, and from what state. */
  function TickWork(s: State): (State, bool) {
    var now := s.env.clock;
    var a := Expire(s, s.ops.order, now);
    if a.proc.recovering then (a, false) else TickRecovery(a, now)
  }

  lemma TickWorkKeeps(s: State)
    requires Core(s) && s.gate.snapshot.None?
    ensures var (t, recover) := TickWork(s);
      CoreAt(t, s.env.clock) && Moves(s, t) && t.disk == s.disk && t.links == s.links && t.gate == s.gate &&
      (recover ==> !t.proc.recovering && t.proc.restarted.None? && t.proc.nextRecoveryAt <= s.env.clock)
  {
    hide CoreAt, Expire, TickRecovery, Flow, OpsFlow, EnvMoves;
    var now := s.env.clock;
    ExpireKeeps(s, s.ops.order, now, now);
    var a := Expire(s, s.ops.order, now);
    FlowIsMoves(s, a);
    if !a.proc.recovering {
      TickRecoveryKeeps(a, now);
      var (b, recover) := TickRecovery(a, now);
      MovesTransitive(s, a, b);
      CoreProc(b, now);
    }
  }

  /** What tick is about to forget has ended, or was committed: an attempt old enough was expired first. */
  lemma WorkSettles(s: State)
    requires Core(s) && s.gate.snapshot.None?
    ensures Settled(TickWork(s).0.ops.at, s.ops.order, s.env.clock, s.cfg.ttl)
  {
    hide CoreAt, Expire, TickRecovery, Flow, OpsFlow, EnvMoves, Settled;
    var now := s.env.clock;
    ExpireKeeps(s, s.ops.order, now, now);
    ExpireSettles(s, s.ops.order, now, now);
    var a := Expire(s, s.ops.order, now);
    FlowIsMoves(s, a);
    if !a.proc.recovering {
      TickRecoveryKeeps(a, now);
      var b := TickRecovery(a, now).0;
      FlowSettled(a.ops, b.ops, a.env.clock, b.env.clock, a.env.fails < b.env.fails, s.ops.order, now, s.cfg.ttl);
    }
  }

  lemma CoreProc(s: State, at: nat)
    requires CoreAt(s, at)
    ensures !s.proc.recovering ==> s.proc.restarted.None?
  {
  }

  lemma StartRecoveryKeeps(s: State, now: nat)
    requires CoreAt(s, now) && !s.gate.sealed && s.proc.restarted.None? && s.proc.nextRecoveryAt <= now <= s.env.clock
    ensures CoreAt(s.(proc := s.proc.(recovering := true)), now)
  {
    hide OpsOk, SlotOk, LinksOk, PendingOk, CallsOk, LeasesOk, AllQuiet;
  }

  lemma TickOpenKeeps(s: State)
    requires Core(s) && s.gate.snapshot.None?
    ensures Inv(TickOpen(s))
  {
    hide CoreAt, Expire, TickRecovery, Moves, Prune, Save, DiskOk;
    var now := s.env.clock;
    TickWorkKeeps(s);
    var (b, recover) := TickWork(s);
    PruneKeeps(b, now, now);
    var c := Prune(b, b.ops.order, now);
    PruneFrame(b, now);
    MovesClock(s, b);
    if recover {
      UnsealedCore(c, now);
      StartRecoveryKeeps(c, now);
    }
    var d := if recover then c.(proc := c.proc.(recovering := true)) else c;
    CoreLater(d, now, d.env.clock);
    PersistKeeps(d);
  }

  lemma MovesClock(s: State, t: State)
    requires Moves(s, t)
    ensures s.env.clock <= t.env.clock
  {
  }

  lemma PruneFrame(s: State, now: nat)
    requires CoreAt(s, now)
    ensures var t := Prune(s, s.ops.order, now); t == s.(ops := t.ops)
  {
    hide SlotOk, LinksOk, PendingOk, CallsOk, LeasesOk, AllQuiet, Prune;
    PruneForgets(s, s.ops.order, now);
  }

  lemma UnsealedCore(s: State, at: nat)
    requires CoreAt(s, at) && s.gate.snapshot.None?
    ensures !s.gate.sealed
  {
  }

  lemma TickKeeps(s: State)
    requires Inv(s)
    ensures Inv(Tick(s))
  {
    hide CoreAt, TickOpen, OpenGate, DiskOk;
    var t := s.(env := s.env.(lastTick := s.env.clock));
    StampKeeps(s);
    if !t.proc.closed {
      if t.gate.snapshot.None? {
        TickOpenKeeps(t);
      } else if t.gate.expiresAt <= t.env.clock {
        OpenGateKeeps(t);
        TickOpenKeeps(OpenGate(t));
      }
    }
  }

  lemma StampKeeps(s: State)
    requires Inv(s)
    ensures Inv(s.(env := s.env.(lastTick := s.env.clock)))
  {
    hide OpsOk, SlotOk, LinksOk, PendingOk, CallsOk, LeasesOk, AllQuiet, DiskOk;
  }

  // ---- recovery, restarts of the worker -----------------------------------------------------------

  lemma BackoffAtLeast(r: nat, k: nat)
    ensures Min(r, RECOVERY_BACKOFF_CAP) <= Min(r * Pow2(k), RECOVERY_BACKOFF_CAP) <= RECOVERY_BACKOFF_CAP
  {
    assert r * Pow2(k) >= r * 1;
  }

  lemma StampedProc(s: State)
    ensures var t := Stamped(s);
      && t == s.(proc := t.proc)
      && t.proc == s.proc.(recoveryStreak := t.proc.recoveryStreak, lastRecoveryAt := Some(s.env.clock), nextRecoveryAt := t.proc.nextRecoveryAt)
      && s.env.clock + Min(s.cfg.recoverySeconds, RECOVERY_BACKOFF_CAP) <= t.proc.nextRecoveryAt <= s.env.clock + RECOVERY_BACKOFF_CAP
  {
    var again := s.proc.lastRecoveryAt.Some? && s.env.clock < s.proc.lastRecoveryAt.value + RECOVERY_BACKOFF_CAP;
    BackoffAtLeast(s.cfg.recoverySeconds, if again then s.proc.recoveryStreak + 1 else 0);
  }

  lemma RecoverNativeKeeps(s: State)
    requires Inv(s)
    ensures Inv(RecoverNative(s))
  {
    hide Turn, OpsOk, SlotOk, OpsKept, OpsFlow, AllQuiet, LinksOk, PendingOk, CallsOk, LeasesOk, DiskOk, Min, Stamped;
    if s.proc.recovering && s.proc.restarted.None? {
      StampedProc(s);
      TurnKeeps(Popped(s), Next(s));
      var u := Turn(Popped(s), Next(s));
      HousekeepingKeeps(Popped(s), u, s.env.clock);
      OpsKeptFlow(s.ops, u.ops, s.env.clock, u.env.clock, true);
      if !u.env.dead {
        FlowDisk(s.disk, s.links, s.ops, u.ops, s.env.clock, u.env.clock, true);
      }
      TurnIgnoresProc(Popped(s), Stamped(s).proc, Next(s));
    }
  }

  lemma RecoverFinishKeeps(s: State)
    requires Inv(s)
    ensures Inv(RecoverFinish(s))
  {
    hide AfterRestart, OpsOk, SlotOk, OpsKept, OpsFlow, AllQuiet, LinksOk, PendingOk, CallsOk, LeasesOk, DiskOk, Save;
    if s.proc.restarted.Some? {
      var started := s.proc.restarted.value && !s.proc.closed;
      var t := s.(proc := s.proc.(recovering := false, restarted := None, started := started, nativeLost := false));
      assert CoreAt(t, s.env.clock) && t.env.login.Idle?;
      if started {
        AfterRestartKeeps(t, s.env.clock);
        CoreLater(AfterRestart(t), s.env.clock, AfterRestart(t).env.clock);
        PersistKeeps(AfterRestart(t));
      } else {
        HolderExists(t.ops.at, t.slot);
        if Holder(t).Some? {
          HolderPutOff(t.ops, t.slot, t.env.clock, false, t.gate.sealed, t.cfg.ttl);
          PersistKeeps(SetOp(t, t.slot.value, Holder(t).value.(endedAt := Some(t.env.clock))));
        } else {
          PersistKeeps(t);
        }
      }
    }
  }

  lemma ShutdownStepKeeps(s: State)
    requires Inv(s)
    ensures Inv(Shutdown(s))
  {
    hide OpsOk, SlotOk, LinksOk, PendingOk, CallsOk, LeasesOk, DiskOk, AllQuiet;
  }

  /** An attempt of the journal as the next worker starts with it. */
  ghost predicate RestartedOp(o: Operation, p: Operation) {
    && !Active(p.state) && p.email == o.email && p.preexisting == o.preexisting && p.committed == o.committed
    && p.reconcile == (o.reconcile || Active(o.state))
  }

  lemma RestoredOk(o: Operation, now: nat)
    requires JournaledOk(o)
    ensures OpOk(Restored(o, now), now) && Restored(o, now).id == o.id && RestartedOp(o, Restored(o, now))
  {
  }

  lemma LoadedOps(cfg: Config, j: Journal, env: Env)
    requires JournalOk(j)
    ensures var s := Loaded(cfg, j, env);
      && OpsOk(s.ops, env.clock) && s.ops.order == j.ops.order && s.ops.at.Keys == j.ops.at.Keys && s.links == j.links
      && forall id :: id in s.ops.at ==> RestartedOp(j.ops.at[id], s.ops.at[id])
  {
    hide LinksOk, HasLink, JournaledOk, Restored, OpOk, RestartedOp;
    var s := Loaded(cfg, j, env);
    forall id | id in s.ops.at
      ensures s.ops.at[id].id == id && OpOk(s.ops.at[id], env.clock) && RestartedOp(j.ops.at[id], s.ops.at[id])
    {
      assert JournaledOk(j.ops.at[id]);
      RestoredOk(j.ops.at[id], env.clock);
    }
  }

  lemma RestartedSlot(j: Journal, links: map<LinkKey, Link>, ops: Dict<OpId, Operation>)
    requires JournalOk(j) && links == j.links && ops.order == j.ops.order && ops.at.Keys == j.ops.at.Keys
    requires forall id :: id in ops.at ==> RestartedOp(j.ops.at[id], ops.at[id])
    ensures SlotOk(ops.at, None) && DiskOk(j, links, ops)
  {
    hide JournalOk;
  }

  lemma LoadedRemovals(cfg: Config, j: Journal, env: Env)
    requires JournalOk(j)
    ensures var s := Loaded(cfg, j, env); PendingOk(s.pending.at, s.links) && LinksOk(s.links) && s.pending.Wf()
  {
    hide JournaledOk, Restored, HasLink;
  }

  /** Whatever the last journal is, a new worker starts from it in order: with its links, no attempt active,
      the slot free, and every attempt that was active marked for reconciliation. */
  lemma LoadedKeeps(cfg: Config, j: Journal, env: Env)
    requires JournalOk(j) && CallsOk(env.calls) && env.login.Idle? && !env.dead && env.made <= env.users
    ensures Inv(Loaded(cfg, j, env))
  {
    hide JournalOk, OpsOk, SlotOk, DiskOk, PendingOk, LinksOk, CallsOk, RestartedOp, Loaded;
    LoadedOps(cfg, j, env);
    LoadedRemovals(cfg, j, env);
    var s := Loaded(cfg, j, env);
    RestartedSlot(j, s.links, s.ops);
    LoadedRest(cfg, j, env);
  }

  lemma LoadedRest(cfg: Config, j: Journal, env: Env)
    ensures var s := Loaded(cfg, j, env); s == State(cfg, s.ops, j.links, s.pending, None, FRESH_GATE, FRESH_PROC, j, env)
  {
  }

  // ---- events -------------------------------------------------------------------------------------

  lemma CheckKeeps(s: State, id: OpId, at: nat)
    requires CoreAt(s, at) && id in s.ops.at && s.ops.at[id].state.Checking?
    ensures var t := Check(s, id); CoreAt(t, at) && Flow(s, t)
  {
    hide GetUser, NativeCall, DropAttemptUser, Owns, OpsOk, SlotOk, OpsKept, OpsFlow, AllQuiet, LinksOk, PendingOk, CallsOk, LeasesOk, EnvMoves;
    ActiveHoldsSlot(s, id, at);
    OpsOkAt(s.ops, s.env.clock, id);
    GetUserKeeps(s);
    var (t, info) := GetUser(s);
    HousekeepingKeeps(s, t, at);
    HousekeepingFlows(s, t);
    if info.Some? {
      if !Owns(info.value, s.ops.at[id].userId.value, s.ops.at[id].email) {
        CleanUpKeeps(t, id, Failed, Some(AddressMismatch), at);
        FlowTransitive(s, t, Release(DropAttemptUser(End(t, id, Failed, Some(AddressMismatch)), id), id));
      } else if info.value.connected && info.value.split {
        ConnectKeeps(t, id, at);
        FlowTransitive(s, t, Release(SetOp(t, id, t.ops.at[id].(state := Connected, errorCode := None)), id));
      } else if info.value.connected && !s.ops.at[id].splitRequested {
        SplitKeeps(t, id, at);
        var r := SetOp(t, id, t.ops.at[id].(splitRequested := true));
        NativeCallKeeps(r);
        HousekeepingKeeps(r, NativeCall(r).0, at);
        HousekeepingFlows(r, NativeCall(r).0);
        FlowTransitive(t, r, NativeCall(r).0);
        FlowTransitive(s, t, NativeCall(r).0);
      }
    }
  }

  /** The checked attempt is signed in: it keeps its user and frees the slot. */
  lemma ConnectKeeps(s: State, id: OpId, at: nat)
    requires CoreAt(s, at) && id in s.ops.at && s.ops.at[id].state.Checking?
    ensures var t := Release(SetOp(s, id, s.ops.at[id].(state := Connected, errorCode := None)), id);
      CoreAt(t, at) && Flow(s, t)
  {
    hide OpsOk, OpsFlow, AllQuiet, LinksOk, PendingOk, CallsOk, LeasesOk;
    ActiveHoldsSlot(s, id, at);
    OpsOkAt(s.ops, s.env.clock, id);
    var op := s.ops.at[id].(state := Connected, errorCode := None);
    WithOk(s.ops, id, op, s.env.clock);
    WithFlow(s.ops, id, op, s.env.clock, s.env.clock, false);
    EndedSlotFreed(s.ops.at, s.slot, id, op);
  }

  lemma SplitKeeps(s: State, id: OpId, at: nat)
    requires CoreAt(s, at) && id in s.ops.at && s.ops.at[id].state.Checking?
    ensures var t := SetOp(s, id, s.ops.at[id].(splitRequested := true)); CoreAt(t, at) && Flow(s, t)
  {
    hide OpsOk, OpsFlow, AllQuiet, LinksOk, PendingOk, CallsOk, LeasesOk;
    ActiveHoldsSlot(s, id, at);
    OpsOkAt(s.ops, s.env.clock, id);
    var op := s.ops.at[id].(splitRequested := true);
    WithOk(s.ops, id, op, s.env.clock);
    WithFlow(s.ops, id, op, s.env.clock, s.env.clock, false);
    ActiveSlotKept(s.ops.at, s.slot, op);
  }

  lemma {:induction false} CheckAllKeeps(s: State, ids: seq<OpId>, u: UserId, at: nat)
    requires CoreAt(s, at)
    ensures var t := CheckAll(s, ids, u); CoreAt(t, at) && Flow(s, t)
    decreases ids
  {
    hide CoreAt, Flow, Check;
    FlowReflexive(s);
    if ids != [] {
      if ids[0] in s.ops.at && s.ops.at[ids[0]].state.Checking? && s.ops.at[ids[0]].userId == Some(u) {
        CheckKeeps(s, ids[0], at);
        CheckAllKeeps(Check(s, ids[0]), ids[1..], u, at);
        FlowTransitive(s, Check(s, ids[0]), CheckAll(s, ids, u));
      } else {
        CheckAllKeeps(s, ids[1..], u, at);
      }
    }
  }

  lemma {:induction false} NoneChecking(s: State, ids: seq<OpId>, u: UserId)
    requires forall id :: id in s.ops.at ==> !s.ops.at[id].state.Checking?
    ensures CheckAll(s, ids, u) == s
    decreases ids
  {
    if ids != [] {
      NoneChecking(s, ids[1..], u);
    }
  }

  lemma UserChangedKeeps(s: State, u: UserId, at: nat)
    requires CoreAt(s, at)
    ensures var t := OnUserChanged(s, u); CoreAt(t, at) && Flow(s, t)
  {
    hide ListUsers, CheckAll, OpsOk, SlotOk, OpsKept, OpsFlow, AllQuiet, LinksOk, CallsOk, LeasesOk, EnvMoves, LoginMoves;
    HousekeepingReflexive(s);
    ListUsersKeeps(s);
    var (l, users) := ListUsers(s);
    var t := if u !in s.pending.at then s else if users.Some? && u !in users.value then DropPending(l, u) else l;
    DropPendingKeeps(l, u);
    HousekeepingTransitive(s, l, DropPending(l, u));
    HousekeepingKeeps(s, t, at);
    HousekeepingFlows(s, t);
    CheckAllKeeps(t, t.ops.order, u, at);
    FlowTransitive(s, t, CheckAll(t, t.ops.order, u));
  }

  lemma LoginErrorKeeps(s: State, code: LoginErrorCode, at: nat)
    requires CoreAt(s, at)
    requires if code.TfaError? || code.TwoPasswordsError? then s.env.login.Running? else s.env.login.Idle?
    requires !code.TfaError? && !code.TwoPasswordsError? && Holder(s).Some? ==> !Holder(s).value.state.Checking?
    ensures var t := OnLoginError(s, code); CoreAt(t, at) && Flow(s, t)
  {
    hide OpsOk, OpsFlow, AllQuiet, LinksOk, PendingOk, CallsOk, LeasesOk, SlotOk;
    FlowReflexive(s);
    HolderExists(s.ops.at, s.slot);
    if Holder(s).Some? {
      var id := s.slot.value;
      var op := s.ops.at[id];
      if code.TfaError? || code.TwoPasswordsError? {
        if Active(op.state) {
          StillActiveKeeps(s, id, op.(state := if code.TfaError? then Needs2fa else NeedsSecondPassword, errorCode := Some(InvalidChallenge)), at);
        }
      } else {
        if Active(op.state) {
          EndHolderKeeps(s, id, Failed, Some(LoginErrorResult(code)), at);
          var e := End(s, id, Failed, Some(LoginErrorResult(code)));
          FreeKeeps(e, id, at);
          FlowTransitive(s, e, Release(e, id));
        } else {
          FreeKeeps(s, id, at);
        }
      }
    }
  }

  /** An ended holder whose sign-in is over frees the slot. */
  lemma FreeKeeps(s: State, id: OpId, at: nat)
    requires CoreAt(s, at) && s.env.login.Idle? && (s.slot == Some(id) ==> id in s.ops.at && !Active(s.ops.at[id].state))
    ensures CoreAt(Release(s, id), at) && Flow(s, Release(s, id))
  {
    hide OpsOk, AllQuiet, LinksOk, PendingOk, CallsOk, LeasesOk, SlotOk;
    if s.slot == Some(id) {
      SlotFreed(s.ops.at, s.slot);
    }
  }

  /** A late sign-in of an ended attempt: the user it created is cleaned up and the slot is free. */
  lemma LateFinishKeeps(s: State, id: OpId, user: UserId, created: bool, at: nat)
    requires CoreAt(s, at) && s.env.login.Idle? && !s.gate.sealed && s.slot == Some(id) && id in s.ops.at && Ended(s.ops.at[id].state)
    ensures var a := SetOp(s, id, s.ops.at[id].(userId := Some(user), createdByAttempt := created));
      var t := Release(DropAttemptUser(a, id), id); CoreAt(t, at) && Flow(s, t)
  {
    hide DropAttemptUser, OpsOk, OpsFlow, LinksOk, PendingOk, CallsOk, AllQuiet, LeasesOk, OpsKept;
    OpsOkAt(s.ops, s.env.clock, id);
    var op := s.ops.at[id].(userId := Some(user), createdByAttempt := created);
    WithOk(s.ops, id, op, s.env.clock);
    WithFlow(s.ops, id, op, s.env.clock, s.env.clock, false);
    var a := SetOp(s, id, op);
    DropAttemptUserKeeps(a, id);
    var d := DropAttemptUser(a, id);
    EndedSlotFreed(s.ops.at, s.slot, id, op);
    OpsKeptSlot(a.ops, d.ops, None);
    HousekeepingFlows(a, d);
    FlowTransitive(s, a, d);
  }

  lemma SignedInKeeps(s: State, id: OpId, user: UserId, created: bool, at: nat)
    requires CoreAt(s, at) && s.env.login.Idle? && s.slot == Some(id) && id in s.ops.at && Active(s.ops.at[id].state)
    ensures var a := SetOp(s, id, s.ops.at[id].(userId := Some(user), createdByAttempt := created, state := Checking));
      CoreAt(a, at) && Flow(s, a)
  {
    hide OpsOk, OpsFlow, LinksOk, PendingOk, CallsOk, AllQuiet, LeasesOk;
    ActiveHoldsSlot(s, id, at);
    OpsOkAt(s.ops, s.env.clock, id);
    var op := s.ops.at[id].(userId := Some(user), createdByAttempt := created, state := Checking);
    WithOk(s.ops, id, op, s.env.clock);
    WithFlow(s.ops, id, op, s.env.clock, s.env.clock, false);
    ActiveSlotKept(s.ops.at, s.slot, op);
  }

  lemma LoginFinishedKeeps(s: State, finished: bool, user: Option<UserId>, at: nat)
    requires CoreAt(s, at) && s.env.login.Idle? && !s.gate.sealed
    ensures var t := OnLoginFinished(s, finished, user); CoreAt(t, at) && Flow(s, t)
  {
    hide CoreAt, Flow, Check, DropAttemptUser, Release;
    FlowReflexive(s);
    if Holder(s).Some? && user.Some? {
      var id := s.slot.value;
      CoreHasBase(s, at);
      HolderExists(s.ops.at, s.slot);
      var created := finished && user.value !in s.ops.at[id].preexisting;
      if Active(s.ops.at[id].state) {
        SignedInKeeps(s, id, user.value, created, at);
        var a := SetOp(s, id, s.ops.at[id].(userId := user, createdByAttempt := created, state := Checking));
        CheckKeeps(a, id, at);
        FlowTransitive(s, a, Check(a, id));
      } else {
        LateFinishKeeps(s, id, user.value, created, at);
      }
    }
  }

  /** The terminal event of a sign-in: Bridge has none running any more. */
  lemma OverKeeps(s: State, at: nat)
    requires CoreAt(s, at)
    ensures CoreAt(s.(env := s.env.(login := Idle)), at)
  {
    hide OpsOk, LinksOk, PendingOk, CallsOk, AllQuiet, LeasesOk, SlotOk;
  }

  lemma SendingMeansSignIn(s: State, at: nat)
    requires CoreAt(s, at) && !s.env.login.Idle?
    ensures Holder(s).Some? && !Holder(s).value.state.Checking? && !s.gate.sealed && s.slot.Some?
  {
  }

  lemma LostStreamKeeps(s: State, at: nat)
    requires CoreAt(s, at)
    ensures var t := s.(proc := s.proc.(nativeLost := true)); CoreAt(t, at) && Flow(s, t)
  {
    hide OpsOk, LinksOk, PendingOk, CallsOk, AllQuiet, LeasesOk, SlotOk;
  }

  lemma DeliveredKeeps(s: State, ev: Event)
    requires Inv(s)
    ensures var t := Delivered(s, ev); Inv(t) && Moves(s, t)
  {
    hide CoreAt, OpsFlow, Moves, OnLoginError, OnLoginFinished, OnUserChanged, StopAttempt, DiskOk, Save;
    MovesReflexive(s);
    FlowReflexive(s);
    if CanSend(s.env, ev) {
      var at := s.env.clock;
      var q := if Terminal(ev) then s.(env := s.env.(login := Idle)) else s;
      FlowReflexive(q);
      OverKeeps(s, at);
      if !s.env.login.Idle? {
        SendingMeansSignIn(s, at);
      }
      match ev
      case NeedsTwoFactorEvent =>
        if Active(Holder(s).value.state) {
          StillActiveKeeps(s, s.slot.value, Holder(s).value.(state := Needs2fa), at);
          KeepsPersisted(s, SetOp(s, s.slot.value, Holder(s).value.(state := Needs2fa)));
        } else {
          KeepsPersisted(s, s);
        }
      case NeedsSecondPasswordEvent =>
        if Active(Holder(s).value.state) {
          StillActiveKeeps(s, s.slot.value, Holder(s).value.(state := NeedsSecondPassword), at);
          KeepsPersisted(s, SetOp(s, s.slot.value, Holder(s).value.(state := NeedsSecondPassword)));
        } else {
          KeepsPersisted(s, s);
        }
      case LoginErrorEvent(code) =>
        LoginErrorKeeps(q, code, at);
        FlowTransitive(s, q, OnLoginError(q, code));
        KeepsPersisted(s, OnLoginError(q, code));
      case HumanVerificationEvent =>
        if Active(Holder(s).value.state) {
          StopAttemptKeeps(s, s.slot.value, Failed, Some(VerificationRequired), at);
          KeepsPersisted(s, StopAttempt(s, s.slot.value, Failed, Some(VerificationRequired)));
        } else {
          KeepsPersisted(s, s);
        }
      case FinishedEvent(user) =>
        LoginFinishedKeeps(q, true, user, at);
        FlowTransitive(s, q, OnLoginFinished(q, true, user));
        KeepsPersisted(s, OnLoginFinished(q, true, user));
      case AlreadyLoggedInEvent(user) =>
        LoginFinishedKeeps(q, false, user, at);
        FlowTransitive(s, q, OnLoginFinished(q, false, user));
        KeepsPersisted(s, OnLoginFinished(q, false, user));
      case UserChangedEvent(u) =>
        UserChangedKeeps(s, u, at);
        KeepsPersisted(s, OnUserChanged(s, u));
      case StreamEndedEvent =>
        LostStreamKeeps(s, at);
        KeepsPersisted(s, s.(proc := s.proc.(nativeLost := true)));
      case NoKeychainEvent =>
        KeepsPersisted(s, s);
    }
  }

  lemma ReloadKeeps(s: State)
    requires Inv(s)
    ensures Inv(Reloaded(s))
  {
    hide Loaded, Loses, SlotOk, LoginOk, ProcOk, SealOk, LeasesOk, OpsOk, LinksOk, PendingOk, JournalOk, DiskOk, CallsOk, Inv;
    JournalIsOk(s);
    LoadedKeeps(s.cfg, s.disk, s.env.(running := false, login := Idle, dead := false));
    NotedKeeps(Loaded(s.cfg, s.disk, s.env.(running := false, login := Idle, dead := false)));
  }

  lemma JournalIsOk(s: State)
    requires Inv(s)
    ensures JournalOk(s.disk) && CallsOk(s.env.calls) && s.env.made <= s.env.users
  {
    hide JournalOk, CallsOk, OpsOk, SlotOk, LoginOk, ProcOk, SealOk, LeasesOk, LinksOk, PendingOk;
  }

  lemma NotedKeeps(s: State)
    requires Inv(s)
    ensures Inv(Noted(s))
  {
    hide Loses, SlotOk, OpsOk, LinksOk, PendingOk, JournalOk, DiskOk, CallsOk, LeasesOk, AllQuiet;
  }

  // ---- steps by name ------------------------------------------------------------------------------

  lemma AppliedBoot(s: State)
    requires !s.env.dead
    ensures Apply(s, DoBoot) == Boot(s).0
  {
    hide Turn, Boot, StartConnection, ContinueConnection, CancelConnection, CommitConnection, Credentials, RemoveUser, AcquireLease,
         ReleaseLease, SnapshotBegin, DrainRound, SnapshotEnd, SnapshotRenew, Tick, RecoverNative, RecoverFinish, Delivered, Shutdown;
  }

  lemma AppliedShutdown(s: State)
    requires !s.env.dead
    ensures Apply(s, DoShutdown) == Shutdown(s)
  {
    hide Turn, Boot, StartConnection, ContinueConnection, CancelConnection, CommitConnection, Credentials, RemoveUser, AcquireLease,
         ReleaseLease, SnapshotBegin, DrainRound, SnapshotEnd, SnapshotRenew, Tick, RecoverNative, RecoverFinish, Delivered, Shutdown;
  }

  lemma AppliedTick(s: State)
    requires !s.env.dead
    ensures Apply(s, DoTick) == Tick(s)
  {
    hide Turn, Boot, StartConnection, ContinueConnection, CancelConnection, CommitConnection, Credentials, RemoveUser, AcquireLease,
         ReleaseLease, SnapshotBegin, DrainRound, SnapshotEnd, SnapshotRenew, Tick, RecoverNative, RecoverFinish, Delivered, Shutdown;
  }

  lemma AppliedRecoverNative(s: State)
    requires !s.env.dead
    ensures Apply(s, DoRecoverNative) == RecoverNative(s)
  {
    hide Turn, Boot, StartConnection, ContinueConnection, CancelConnection, CommitConnection, Credentials, RemoveUser, AcquireLease,
         ReleaseLease, SnapshotBegin, DrainRound, SnapshotEnd, SnapshotRenew, Tick, RecoverNative, RecoverFinish, Delivered, Shutdown;
  }

  lemma AppliedRecoverFinish(s: State)
    requires !s.env.dead
    ensures Apply(s, DoRecoverFinish) == RecoverFinish(s)
  {
    hide Turn, Boot, StartConnection, ContinueConnection, CancelConnection, CommitConnection, Credentials, RemoveUser, AcquireLease,
         ReleaseLease, SnapshotBegin, DrainRound, SnapshotEnd, SnapshotRenew, Tick, RecoverNative, RecoverFinish, Delivered, Shutdown;
  }

  lemma AppliedStart(s: State, id: OpId, email: Email, password: string)
    requires !s.env.dead
    ensures Apply(s, DoStart(id, email, password)) == StartConnection(s, id, email, password).0
  {
    hide Turn, Boot, StartConnection, ContinueConnection, CancelConnection, CommitConnection, Credentials, RemoveUser, AcquireLease,
         ReleaseLease, SnapshotBegin, DrainRound, SnapshotEnd, SnapshotRenew, Tick, RecoverNative, RecoverFinish, Delivered, Shutdown;
  }

  lemma AppliedContinue(s: State, id: OpId, challenge: Challenge, secret: string)
    requires !s.env.dead
    ensures Apply(s, DoContinue(id, challenge, secret)) == ContinueConnection(s, id, challenge, secret).0
  {
    hide Turn, Boot, StartConnection, ContinueConnection, CancelConnection, CommitConnection, Credentials, RemoveUser, AcquireLease,
         ReleaseLease, SnapshotBegin, DrainRound, SnapshotEnd, SnapshotRenew, Tick, RecoverNative, RecoverFinish, Delivered, Shutdown;
  }

  lemma AppliedCancel(s: State, id: OpId)
    requires !s.env.dead
    ensures Apply(s, DoCancel(id)) == CancelConnection(s, id).0
  {
    hide Turn, Boot, StartConnection, ContinueConnection, CancelConnection, CommitConnection, Credentials, RemoveUser, AcquireLease,
         ReleaseLease, SnapshotBegin, DrainRound, SnapshotEnd, SnapshotRenew, Tick, RecoverNative, RecoverFinish, Delivered, Shutdown;
  }

  lemma AppliedCommit(s: State, id: OpId, u: UserId, generation: Generation, previous: Option<Generation>)
    requires !s.env.dead
    ensures Apply(s, DoCommit(id, u, generation, previous)) == CommitConnection(s, id, u, generation, previous).0
  {
    hide Turn, Boot, StartConnection, ContinueConnection, CancelConnection, CommitConnection, Credentials, RemoveUser, AcquireLease,
         ReleaseLease, SnapshotBegin, DrainRound, SnapshotEnd, SnapshotRenew, Tick, RecoverNative, RecoverFinish, Delivered, Shutdown;
  }

  lemma AppliedCredentials(s: State, u: UserId, id: Option<OpId>, generation: Option<Generation>, email: Email)
    requires !s.env.dead
    ensures Apply(s, DoCredentials(u, id, generation, email)) == Credentials(s, u, id, generation, email).0
  {
    hide Turn, Boot, StartConnection, ContinueConnection, CancelConnection, CommitConnection, Credentials, RemoveUser, AcquireLease,
         ReleaseLease, SnapshotBegin, DrainRound, SnapshotEnd, SnapshotRenew, Tick, RecoverNative, RecoverFinish, Delivered, Shutdown;
  }

  lemma AppliedRemove(s: State, u: UserId, generation: Generation, email: Email)
    requires !s.env.dead
    ensures Apply(s, DoRemove(u, generation, email)) == RemoveUser(s, u, generation, email).0
  {
    hide Turn, Boot, StartConnection, ContinueConnection, CancelConnection, CommitConnection, Credentials, RemoveUser, AcquireLease,
         ReleaseLease, SnapshotBegin, DrainRound, SnapshotEnd, SnapshotRenew, Tick, RecoverNative, RecoverFinish, Delivered, Shutdown;
  }

  lemma AppliedAcquire(s: State, l: LeaseId)
    requires !s.env.dead
    ensures Apply(s, DoAcquire(l)) == AcquireLease(s, l).0
  {
    hide Turn, Boot, StartConnection, ContinueConnection, CancelConnection, CommitConnection, Credentials, RemoveUser, AcquireLease,
         ReleaseLease, SnapshotBegin, DrainRound, SnapshotEnd, SnapshotRenew, Tick, RecoverNative, RecoverFinish, Delivered, Shutdown;
  }

  lemma AppliedRelease(s: State, l: LeaseId)
    requires !s.env.dead
    ensures Apply(s, DoRelease(l)) == ReleaseLease(s, l).0
  {
    hide Turn, Boot, StartConnection, ContinueConnection, CancelConnection, CommitConnection, Credentials, RemoveUser, AcquireLease,
         ReleaseLease, SnapshotBegin, DrainRound, SnapshotEnd, SnapshotRenew, Tick, RecoverNative, RecoverFinish, Delivered, Shutdown;
  }

  lemma AppliedBegin(s: State, id: SnapshotId)
    requires !s.env.dead
    ensures Apply(s, DoBegin(id)) == SnapshotBegin(s, id).0
  {
    hide Turn, Boot, StartConnection, ContinueConnection, CancelConnection, CommitConnection, Credentials, RemoveUser, AcquireLease,
         ReleaseLease, SnapshotBegin, DrainRound, SnapshotEnd, SnapshotRenew, Tick, RecoverNative, RecoverFinish, Delivered, Shutdown;
  }

  lemma AppliedDrain(s: State, id: SnapshotId, deadline: nat)
    requires !s.env.dead
    ensures Apply(s, DoDrainRound(id, deadline)) == DrainRound(s, id, deadline).0
  {
    hide Turn, Boot, StartConnection, ContinueConnection, CancelConnection, CommitConnection, Credentials, RemoveUser, AcquireLease,
         ReleaseLease, SnapshotBegin, DrainRound, SnapshotEnd, SnapshotRenew, Tick, RecoverNative, RecoverFinish, Delivered, Shutdown;
  }

  lemma AppliedEnd(s: State, id: SnapshotId)
    requires !s.env.dead
    ensures Apply(s, DoEnd(id)) == SnapshotEnd(s, id).0
  {
    hide Turn, Boot, StartConnection, ContinueConnection, CancelConnection, CommitConnection, Credentials, RemoveUser, AcquireLease,
         ReleaseLease, SnapshotBegin, DrainRound, SnapshotEnd, SnapshotRenew, Tick, RecoverNative, RecoverFinish, Delivered, Shutdown;
  }

  lemma AppliedRenew(s: State, id: SnapshotId)
    requires !s.env.dead
    ensures Apply(s, DoRenew(id)) == SnapshotRenew(s, id).0
  {
    hide Turn, Boot, StartConnection, ContinueConnection, CancelConnection, CommitConnection, Credentials, RemoveUser, AcquireLease,
         ReleaseLease, SnapshotBegin, DrainRound, SnapshotEnd, SnapshotRenew, Tick, RecoverNative, RecoverFinish, Delivered, Shutdown;
  }

  lemma AppliedEvent(s: State, ev: Event)
    requires !s.env.dead
    ensures Apply(s, Deliver(ev)) == Delivered(s, ev)
  {
    hide Turn, Boot, StartConnection, ContinueConnection, CancelConnection, CommitConnection, Credentials, RemoveUser, AcquireLease,
         ReleaseLease, SnapshotBegin, DrainRound, SnapshotEnd, SnapshotRenew, Tick, RecoverNative, RecoverFinish, Delivered, Shutdown;
  }

  // ---- all steps ----------------------------------------------------------------------------------

  /** Every step keeps the invariant. */
  lemma StepKeeps(s: State, m: Move)
    requires Inv(s)
    ensures Inv(Do(s, m))
  {
    hide Inv, Moves, Drifts, Turn, Boot, StartConnection, ContinueConnection, CancelConnection, CommitConnection, Credentials,
         RemoveUser, AcquireLease, ReleaseLease, SnapshotBegin, DrainRound, SnapshotEnd, SnapshotRenew, Tick, RecoverNative,
         RecoverFinish, Delivered, Shutdown, Reloaded;
    var t := s.(env := s.env.(tape := m.tape));
    TapeKeeps(s, m.tape);
    match m.step
    case World(turn) => WorldKeeps(t, turn);
    case DoBoot => BootKeeps(t);
    case DoStart(id, email, password) => StartKeeps(t, id, email, password);
    case DoContinue(id, challenge, secret) => ContinueKeeps(t, id, challenge, secret);
    case DoCancel(id) => CancelKeeps(t, id);
    case DoCommit(id, user, generation, previous) => CommitKeeps(t, id, user, generation, previous);
    case DoCredentials(user, attempt, current, email) => CredentialsKeeps(t, user, attempt, current, email);
    case DoRemove(user, generation, email) => RemoveKeeps(t, user, generation, email);
    case DoAcquire(lease) => AcquireKeeps(t, lease);
    case DoRelease(lease) => ReleaseKeeps(t, lease);
    case DoBegin(snapshot) => BeginKeeps(t, snapshot);
    case DoDrainRound(snapshot, deadline) => DrainKeeps(t, snapshot, deadline);
    case DoEnd(snapshot) => EndGateKeeps(t, snapshot);
    case DoRenew(snapshot) => RenewKeeps(t, snapshot);
    case DoTick => TickKeeps(t);
    case DoRecoverNative => RecoverNativeKeeps(t);
    case DoRecoverFinish => RecoverFinishKeeps(t);
    case Deliver(event) => DeliveredKeeps(t, event);
    case DoShutdown => ShutdownStepKeeps(t);
    case Reload => ReloadKeeps(t);
  }

  lemma TapeKeeps(s: State, tape: seq<Answer>)
    requires Inv(s)
    ensures Inv(s.(env := s.env.(tape := tape))) && Moves(s, s.(env := s.env.(tape := tape)))
  {
    hide OpsOk, LinksOk, PendingOk, CallsOk, AllQuiet, LeasesOk, SlotOk, DiskOk;
  }

  lemma InitKeeps(cfg: Config, clock: nat, users: set<UserId>)
    ensures Inv(Init(cfg, clock, users))
  {
    LoadedKeeps(cfg, EMPTY_JOURNAL, Env(clock, false, users, {}, {}, Idle, [], false, [], 0, false, clock));
  }

  /** The invariant holds in every state of every run: any worker start, any critical sections in any order,
      any behaviour of Bridge. */
  lemma {:induction false} RunKeeps(cfg: Config, clock: nat, users: set<UserId>, moves: seq<Move>)
    ensures Inv(Run(Init(cfg, clock, users), moves))
    decreases |moves|
  {
    hide Inv, Do, Init;
    if moves == [] {
      InitKeeps(cfg, clock, users);
    } else {
      RunKeeps(cfg, clock, users, moves[..|moves| - 1]);
      StepKeeps(Run(Init(cfg, clock, users), moves[..|moves| - 1]), moves[|moves| - 1]);
    }
  }
}
