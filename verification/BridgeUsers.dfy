/** What the controller promises the users of Bridge: one that no sign-in created stays unless its last link is
    cut, and an attempt is signed in only on Bridge's word. */
module BridgeUsers {
  import opened Wrappers
  import opened Dicts
  import opened BridgeTypes
  import opened BridgeSpec
  import opened BridgeMachine
  import opened BridgeShape
  import opened BridgeInvariant
  import opened BridgeSections
  import opened BridgePromises

  // ---- users no sign-in created -------------------------------------------------------------------

  /** Every attempt found u in Bridge when it started, and none is to clean it up. */
  ghost predicate SparedBy(ops: map<OpId, Operation>, u: UserId) {
    forall id :: id in ops ==> u in ops[id].preexisting && !(ops[id].createdByAttempt && ops[id].userId == Some(u))
  }

  /** Bridge has u, which no sign-in created, nobody has asked it to go, and nothing in memory or journal will. */
  ghost predicate Spared(s: State, u: UserId) {
    && u in s.env.users && u !in s.env.made && u !in s.env.asked && u !in s.pending.at && u !in s.disk.reasons
    && SparedBy(s.ops.at, u) && SparedBy(s.disk.ops.at, u)
  }

  ghost predicate SignedBy(ops: map<OpId, Operation>, id: OpId, u: UserId, email: Email) {
    id in ops && ops[id].state.Connected? && ops[id].userId == Some(u) && ops[id].email == email
  }

  /** In memory or in the journal attempt id is signed in as u at an address. */
  ghost predicate Signed(s: State, id: OpId, u: UserId, email: Email) {
    SignedBy(s.ops.at, id, u, email) || SignedBy(s.disk.ops.at, id, u, email)
  }

  /** u waits to go, in memory and in the journal, unless Bridge has it no more or a sign-in has created it. */
  ghost predicate Waiting(s: State, u: UserId) {
    u !in s.env.users || u in s.env.made || (u in s.pending.at && u in s.disk.reasons)
  }

  /** Nobody is signed in who was not before, and a spared or waiting user stays so. */
  ghost predicate Sober(s: State, t: State, u: UserId) {
    (Spared(s, u) ==> Spared(t, u)) && (Waiting(s, u) ==> Waiting(t, u)) && forall id, v, e :: Signed(t, id, v, e) ==> Signed(s, id, v, e)
  }

  lemma SoberTransitive(s: State, t: State, r: State, u: UserId)
    requires Sober(s, t, u) && Sober(t, r, u)
    ensures Sober(s, r, u)
  {
    hide Spared, Waiting, Signed;
  }

  lemma SoberReflexive(s: State, u: UserId)
    ensures Sober(s, s, u)
  {
  }

  lemma SameSober(s: State, t: State, u: UserId)
    requires t.ops == s.ops && t.disk == s.disk && t.pending == s.pending
    requires t.env.users == s.env.users && t.env.made == s.env.made && t.env.asked == s.env.asked
    ensures Sober(s, t, u)
  {
  }

  // ---- native calls -------------------------------------------------------------------------------

  lemma TurnSober(s: State, a: Answer, u: UserId)
    ensures Sober(s, Turn(s, a), u)
  {
    hide Accountable;
  }

  lemma CallSober(s: State, u: UserId)
    ensures Sober(s, NativeCall(s).0, u) && Sober(s, ListUsers(s).0, u) && Sober(s, GetUser(s).0, u)
  {
    hide Turn, Sober;
    SameSober(s, Popped(s), u);
    TurnSober(Popped(s), Next(s), u);
    var t := NativeCall(s).0;
    SoberTransitive(s, Popped(s), t, u);
    SameSober(t, Failing(t, false), u);
    SoberTransitive(s, t, Failing(t, false), u);
  }

  lemma RestartSober(s: State, u: UserId)
    ensures Sober(s, CallRecover(s).0, u) && Sober(s, CallStart(s).0, u) && Sober(s, CallShutdown(s).0, u)
  {
    hide Accountable;
  }

  lemma RemoveSober(s: State, v: UserId, newly: bool, u: UserId)
    requires Spared(s, u) ==> v != u
    ensures Sober(s, CallRemove(s, v, newly), u)
  {
    hide NativeCall, Linked, Held, Sober;
    var l := RemoveLogged(s, v, newly);
    assert Sober(s, l, u) by { LoggedSober(s, v, newly, u); }
    CallSober(l, u);
    SoberTransitive(s, l, CallRemove(s, v, newly), u);
  }

  lemma LoggedSober(s: State, v: UserId, newly: bool, u: UserId)
    requires Spared(s, u) ==> v != u
    ensures Sober(s, RemoveLogged(s, v, newly), u)
  {
    hide Linked, Held;
  }

  // ---- removals -----------------------------------------------------------------------------------

  lemma BeginSober(s: State, v: UserId, reason: Reason, u: UserId)
    requires Spared(s, u) ==> v != u
    ensures Sober(s, BeginRemoval(s, v, reason), u)
  {
    hide CallRemove;
    var item := if v in s.pending.at
                then s.pending.at[v].(since := s.env.clock, reason := if reason.Unlink? then Unlink else s.pending.at[v].reason)
                else Removal(reason, s.env.clock, 0, false);
    var p := s.(pending := s.pending.Put(v, item));
    assert Sober(s, p, u);
    RemoveSober(p, v, v !in s.pending.at, u);
    SoberTransitive(s, p, BeginRemoval(s, v, reason), u);
  }

  lemma {:induction false} BeginAllSober(s: State, us: seq<UserId>, u: UserId)
    requires Spared(s, u) ==> u !in us
    ensures Sober(s, BeginRemovals(s, us), u)
    decreases us
  {
    hide BeginRemoval, Spared, Waiting, Signed;
    if us != [] {
      if Spared(s, u) {
        BeginSober(s, us[0], Attempt, u);
        BeginAllSober(BeginRemoval(s, us[0], Attempt), us[1..], u);
      } else {
        BeginsRest(s, us, u);
      }
    }
  }

  lemma {:induction false} BeginsRest(s: State, us: seq<UserId>, u: UserId)
    ensures var t := BeginRemovals(s, us); Waiting(s, u) ==> Waiting(t, u)
    ensures forall id, v, e :: Signed(BeginRemovals(s, us), id, v, e) ==> Signed(s, id, v, e)
    decreases us
  {
    hide BeginRemoval, Waiting, Signed;
    if us != [] {
      BeginRest(s, us[0], Attempt, u);
      BeginsRest(BeginRemoval(s, us[0], Attempt), us[1..], u);
    }
  }

  lemma BeginRest(s: State, v: UserId, reason: Reason, u: UserId)
    ensures Waiting(s, u) ==> Waiting(BeginRemoval(s, v, reason), u)
    ensures forall id, w, e :: Signed(BeginRemoval(s, v, reason), id, w, e) ==> Signed(s, id, w, e)
  {
    hide Accountable, Linked, Held;
    BeginRemovalEntry(s, v, reason);
  }

  lemma RetrySober(s: State, v: UserId, u: UserId)
    ensures Sober(s, RetryRemoval(s, v), u)
  {
    hide BeginRemoval, ListUsers, SparedBy, Signed;
    SoberReflexive(s, u);
    if v in s.pending.at {
      CallSober(s, u);
      ListFrame(s);
      var (t, users) := ListUsers(s);
      if users.Some? && v in users.value {
        BeginSober(t, v, t.pending.at[v].reason, u);
        SoberTransitive(s, t, RetryRemoval(s, v), u);
      } else if users.Some? {
        ListedUsers(s);
        DropSober(t, v, u);
        SoberTransitive(s, t, DropPending(t, v), u);
      }
    }
  }

  lemma DropSober(s: State, v: UserId, u: UserId)
    requires v !in s.env.users
    ensures Sober(s, DropPending(s, v), u)
  {
  }

  lemma {:induction false} RetryAllSober(s: State, us: seq<UserId>, u: UserId)
    ensures Sober(s, RetryRemovals(s, us), u)
    decreases us
  {
    hide RetryRemoval, Sober;
    SoberReflexive(s, u);
    if us != [] {
      RetrySober(s, us[0], u);
      RetryAllSober(RetryRemoval(s, us[0]), us[1..], u);
      SoberTransitive(s, RetryRemoval(s, us[0]), RetryRemovals(s, us), u);
    }
  }

  lemma HandSober(s: State, v: UserId, ended: Option<OpId>, u: UserId)
    requires Spared(s, u) ==> v != u
    ensures Sober(s, HandOver(s, v, ended), u)
  {
  }

  lemma DropUserSober(s: State, id: OpId, u: UserId)
    requires id in s.ops.at
    ensures Sober(s, DropAttemptUser(s, id), u)
  {
    hide BeginRemoval, HandOver, HasHeir, Signed;
    SoberReflexive(s, u);
    var op := s.ops.at[id];
    if op.createdByAttempt && op.userId.Some? && !Linked(s, op.userId.value) {
      HandSober(s, op.userId.value, Some(id), u);
      BeginSober(s, op.userId.value, Attempt, u);
    }
  }

  // ---- attempts -----------------------------------------------------------------------------------

  /** An attempt changes without signing in anybody or taking a user to clean up. */
  lemma SetSober(s: State, id: OpId, op: Operation, u: UserId)
    requires id in s.ops.at && op.preexisting == s.ops.at[id].preexisting
    requires op.userId == Some(u) && op.createdByAttempt ==> s.ops.at[id].userId == Some(u) && s.ops.at[id].createdByAttempt
    requires op.state.Connected? ==> s.ops.at[id].state.Connected? && op.userId == s.ops.at[id].userId && op.email == s.ops.at[id].email
    ensures Sober(s, SetOp(s, id, op), u)
  {
  }

  lemma PersistSober(s: State, u: UserId)
    ensures Sober(s, Persist(s), u)
  {
    hide Written;
    if !s.env.dead {
      forall id | id in s.ops.at
        ensures Save(s).ops.at[id] == Written(s.ops.at[id]) && WrittenAlike(s.ops.at[id])
      {
        WrittenSame(s.ops.at[id]);
      }
    }
  }

  ghost predicate WrittenAlike(op: Operation) {
    var w := Written(op);
    && w.preexisting == op.preexisting && w.createdByAttempt == op.createdByAttempt && w.userId == op.userId
    && w.email == op.email && w.state == op.state
  }

  lemma WrittenSame(op: Operation)
    ensures WrittenAlike(op)
  {
  }

  lemma StopSober(s: State, id: OpId, state: OpState, code: Option<ErrorCode>, u: UserId)
    requires id in s.ops.at && Ended(state)
    ensures Sober(s, StopAttempt(s, id, state, code), u)
  {
    hide DropAttemptUser, NativeCall, Sober;
    var e := End(s, id, state, code);
    SetSober(s, id, e.ops.at[id], u);
    DropUserSober(e, id, u);
    CallSober(e, u);
    var d := DropAttemptUser(e, id);
    ReleaseSober(d, id, u);
    SoberTransitive(s, e, d, u);
    SoberTransitive(s, d, Release(d, id), u);
    SoberTransitive(s, e, NativeCall(e).0, u);
  }

  lemma ReleaseSober(s: State, id: OpId, u: UserId)
    ensures Sober(s, Release(s, id), u)
  {
  }

  /** A signed-in attempt is given up. */
  lemma GiveUpSober(s: State, id: OpId, state: OpState, u: UserId)
    requires id in s.ops.at && Ended(state)
    ensures Sober(s, DropAttemptUser(End(s, id, state, None), id), u)
  {
    hide DropAttemptUser, Sober;
    var e := End(s, id, state, None);
    SetSober(s, id, e.ops.at[id], u);
    DropUserSober(e, id, u);
    SoberTransitive(s, e, DropAttemptUser(e, id), u);
  }

  // ---- reconciliation and restarts ----------------------------------------------------------------

  lemma OrphansSober(s: State, id: OpId, u: UserId)
    requires id in s.ops.at
    ensures Sober(s, ReconcileOrphans(s, id).0, u)
  {
    hide BeginRemovals, ListUsers, Signed, Sober, Linked, Loses;
    CallSober(s, u);
    ListFrame(s);
    var (t, users) := ListUsers(s);
    if users.Some? {
      var orphans := set v | v in users.value && !Known(t, id, v);
      var us := Sorted(orphans);
      var r := BeginRemovals(t, us);
      BeginAllSober(t, us, u);
      SoberTransitive(s, t, r, u);
      var q := SetOp(r, id, r.ops.at[id].(reconcile := false));
      SetSober(r, id, q.ops.at[id], u);
      SoberTransitive(s, r, q, u);
      SameSober(q, Noted(q), u);
      SoberTransitive(s, q, Noted(q), u);
    }
  }

  lemma {:induction false} FlaggedSober(s: State, ids: seq<OpId>, u: UserId)
    ensures Sober(s, ReconcileFlagged(s, ids).0, u)
    decreases ids
  {
    hide ReconcileOrphans, Sober;
    SoberReflexive(s, u);
    if ids != [] {
      if ids[0] in s.ops.at && s.ops.at[ids[0]].reconcile {
        OrphansSober(s, ids[0], u);
        var t := ReconcileOrphans(s, ids[0]).0;
        FlaggedSober(t, ids[1..], u);
        SoberTransitive(s, t, ReconcileFlagged(s, ids).0, u);
      } else {
        FlaggedSober(s, ids[1..], u);
      }
    }
  }

  lemma ReconciledSober(s: State, ok: bool, u: UserId)
    ensures Sober(s, Reconciled(s, ok), u)
  {
    hide Loses, Min, Pow2, Sober;
    if Holder(s).Some? {
      var q := SetOp(s, s.slot.value, Holder(s).value.(endedAt := Some(s.env.clock)));
      SetSober(s, s.slot.value, q.ops.at[s.slot.value], u);
      if !(ok && !Active(Holder(s).value.state)) {
        SameSober(q, Reconciled(s, ok), u);
        SoberTransitive(s, q, Reconciled(s, ok), u);
      } else {
        SameSober(s, Reconciled(s, ok), u);
      }
    } else {
      SameSober(s, Reconciled(s, ok), u);
    }
  }

  lemma ReconcileSober(s: State, u: UserId)
    ensures Sober(s, ReconcileAll(s).0, u)
  {
    hide ReconcileFlagged, Reconciled, Sober;
    FlaggedSober(s, s.ops.order, u);
    var (t, ok) := ReconcileFlagged(s, s.ops.order);
    ReconciledSober(t, ok, u);
    SoberTransitive(s, t, Reconciled(t, ok), u);
  }

  lemma AfterRestartSober(s: State, u: UserId)
    ensures Sober(s, AfterRestart(s), u)
  {
    hide ReconcileAll, RetryRemovals, Sober;
    var reset := s.(proc := s.proc.(reconcileFailures := 0, nextReconcileAt := 0));
    SameSober(s, reset, u);
    ReconcileSober(reset, u);
    var r := ReconcileAll(reset).0;
    SoberTransitive(s, reset, r, u);
    RetryAllSober(r, s.pending.order, u);
    SoberTransitive(s, r, AfterRestart(s), u);
  }

  lemma EnsureSober(s: State, u: UserId)
    ensures Sober(s, EnsureStarted(s).0, u)
  {
    hide AfterRestart, CallRecover, CallStart, Sober;
    SoberReflexive(s, u);
    if !Alive(s) && s.gate.snapshot.None? {
      RestartSober(s, u);
      var (t, ok) := if s.proc.started then CallRecover(s) else CallStart(s);
      var f := t.(proc := t.proc.(started := false));
      var p := t.(proc := t.proc.(started := true, nativeLost := false));
      SameSober(t, f, u);
      SameSober(t, p, u);
      AfterRestartSober(p, u);
      SoberTransitive(s, t, f, u);
      SoberTransitive(s, t, p, u);
      SoberTransitive(s, p, AfterRestart(p), u);
    }
  }

  // ---- RPCs ---------------------------------------------------------------------------------------

  lemma BootSober(s: State, u: UserId)
    ensures Sober(s, Boot(s).0, u)
  {
    hide EnsureStarted, Persist, NeedsBridge, Sober;
    SoberReflexive(s, u);
    EnsureSober(s, u);
    PersistSober(EnsureStarted(s).0, u);
    SoberTransitive(s, EnsureStarted(s).0, Persist(EnsureStarted(s).0), u);
  }

  /** A new attempt finds every spared user in Bridge. */
  lemma SignInSober(s: State, id: OpId, email: Email, preexisting: set<UserId>, u: UserId)
    requires Spared(s, u) ==> u in preexisting
    ensures Sober(s, SignIn(s, id, email, preexisting), u)
  {
    hide CallLogin, Sober, Persist;
    var p := s.(ops := s.ops.Put(id, NewOperation(id, email, s.env.clock, preexisting)), slot := Some(id));
    EnterSober(s, id, email, preexisting, u);
    var t := Persist(p);
    PersistSober(p, u);
    PersistKeepsOps(p);
    SoberTransitive(s, p, t, u);
    LoginSober(t, id, u);
    var r := CallLogin(t, id).0;
    SoberTransitive(s, t, r, u);
    var e := End(r, id, Failed, Some(Unavailable));
    SetSober(r, id, e.ops.at[id], u);
    SoberTransitive(s, r, e, u);
    PersistSober(e, u);
    SoberTransitive(s, e, Persist(e), u);
  }

  lemma PersistKeepsOps(s: State)
    ensures Persist(s).ops == s.ops && Persist(s).env == s.env
  {
  }

  lemma EnterSober(s: State, id: OpId, email: Email, preexisting: set<UserId>, u: UserId)
    requires Spared(s, u) ==> u in preexisting
    ensures Sober(s, s.(ops := s.ops.Put(id, NewOperation(id, email, s.env.clock, preexisting)), slot := Some(id)), u)
  {
  }

  lemma LoginSober(s: State, id: OpId, u: UserId)
    ensures var t := CallLogin(s, id).0; Sober(s, t, u) && t.ops == s.ops
  {
    hide NativeCall, BusyElsewhere, Sober;
    var l := LoginLogged(s, id);
    SameSober(s, l, u);
    CallSober(l, u);
    CallFrame(l);
    var t := NativeCall(l).0;
    SoberTransitive(s, l, t, u);
    SameSober(t, CallLogin(s, id).0, u);
    SoberTransitive(s, t, CallLogin(s, id).0, u);
  }

  lemma StartSober(s: State, id: OpId, email: Email, password: string, u: UserId)
    ensures Sober(s, StartConnection(s, id, email, password).0, u)
  {
    hide EnsureStarted, ListUsers, SignIn, Busy, Sober, Lower;
    SoberReflexive(s, u);
    EnsureSober(s, u);
    var (t, error) := EnsureStarted(s);
    CallSober(t, u);
    var (l, users) := ListUsers(t);
    SoberTransitive(s, t, l, u);
    if users.Some? && id !in s.ops.at && error.None? && !Busy(t) {
      ListFrame(t);
      assert Spared(l, u) ==> u in users.value by { ListedUsers(t); }
      SignInSober(l, id, email, users.value, u);
      SoberTransitive(s, l, SignIn(l, id, email, users.value), u);
    }
  }

  lemma ListedUsers(s: State)
    ensures var (l, users) := ListUsers(s); users.Some? ==> users.value == l.env.users
  {
    hide NativeCall;
  }

  lemma ContinueSober(s: State, id: OpId, ch: Challenge, secret: string, u: UserId)
    ensures Sober(s, ContinueConnection(s, id, ch, secret).0, u)
  {
    hide NativeCall, Persist, Sober, Awaits;
    SoberReflexive(s, u);
    if id in s.ops.at && Awaits(s.ops.at[id].state, ch) && s.slot == Some(id) && secret != "" {
      var a := SetOp(s, id, s.ops.at[id].(state := Authenticating, errorCode := None));
      SetSober(s, id, a.ops.at[id], u);
      var t := Persist(a);
      PersistSober(a, u);
      PersistKeepsOps(a);
      SoberTransitive(s, a, t, u);
      CallSober(t, u);
      CallFrame(t);
      var r := NativeCall(t).0;
      SoberTransitive(s, t, r, u);
      var e := End(r, id, Failed, Some(Unavailable));
      SetSober(r, id, e.ops.at[id], u);
      SoberTransitive(s, r, e, u);
      PersistSober(r, u);
      PersistSober(e, u);
      SoberTransitive(s, r, Persist(r), u);
      SoberTransitive(s, e, Persist(e), u);
    }
  }

  lemma CancelSober(s: State, id: OpId, u: UserId)
    ensures Sober(s, CancelConnection(s, id).0, u)
  {
    hide StopAttempt, DropAttemptUser, Persist, Sober;
    SoberReflexive(s, u);
    if id in s.ops.at {
      var op := s.ops.at[id];
      var t := if op.state.Connected? && !op.committed then DropAttemptUser(End(s, id, Cancelled, None), id)
               else if Active(op.state) then StopAttempt(s, id, Cancelled, None) else s;
      GiveUpSober(s, id, Cancelled, u);
      StopSober(s, id, Cancelled, None, u);
      PersistSober(t, u);
      SoberTransitive(s, t, Persist(t), u);
    }
  }

  lemma CommitSober(s: State, id: OpId, v: UserId, generation: Generation, previous: Option<Generation>, u: UserId)
    ensures Sober(s, CommitConnection(s, id, v, generation, previous).0, u)
  {
    hide Persist, Sober, Lower, Admitted;
    SoberReflexive(s, u);
    if id in s.ops.at {
      var op := s.ops.at[id];
      var t := s.(links := s.links[LinkKey(v, Lower(op.email)) := Link(v, op.email, generation)]);
      SameSober(s, t, u);
      var c := SetOp(t, id, op.(committed := true, endedAt := Some(t.env.clock)));
      SetSober(t, id, c.ops.at[id], u);
      SoberTransitive(s, t, c, u);
      PersistSober(t, u);
      PersistSober(c, u);
      SoberTransitive(s, t, Persist(t), u);
      SoberTransitive(s, c, Persist(c), u);
    }
  }

  lemma CredentialsSober(s: State, v: UserId, id: Option<OpId>, generation: Option<Generation>, email: Email, u: UserId)
    ensures Sober(s, Credentials(s, v, id, generation, email).0, u)
  {
    hide EnsureStarted, GetUser, NativeCall, CredentialsOf, Owns, Sober;
    SoberReflexive(s, u);
    EnsureSober(s, u);
    var t := EnsureStarted(s).0;
    CallSober(t, u);
    var g := GetUser(t).0;
    SoberTransitive(s, t, g, u);
    CallSober(g, u);
    SoberTransitive(s, g, NativeCall(g).0, u);
  }

  /** The last link of u is named by its generation and cut. */
  predicate Unlinks(s: State, step: Step, u: UserId) {
    step.DoRemove? && step.user == u &&
    (var key := LinkKey(u, Lower(step.email));
     key in s.links && s.links[key].generation == step.generation && !(exists k | k in s.links :: k.user == u && k != key))
  }

  lemma RemoveUserSober(s: State, v: UserId, generation: Generation, email: Email, u: UserId)
    requires !Unlinks(s, DoRemove(v, generation, email), u)
    ensures Sober(s, RemoveUser(s, v, generation, email).0, u)
  {
    hide EnsureStarted, HandOver, HasHeir, BeginRemoval, Persist, Sober, Lower, Admitted, SafeEmail;
    SoberReflexive(s, u);
    var key := LinkKey(v, Lower(email));
    if key in s.links && s.links[key].generation == generation {
      var others := exists k | k in s.links :: k.user == v && k != key;
      EnsureSober(s, u);
      var t := if others then s else EnsureStarted(s).0;
      var cut := t.(links := t.links - {key});
      SameSober(t, cut, u);
      SoberTransitive(s, t, cut, u);
      PersistSober(cut, u);
      SoberTransitive(s, cut, Persist(cut), u);
      if !others {
        var h := HandOver(cut, v, None);
        HandSober(cut, v, None, u);
        SoberTransitive(s, cut, h, u);
        PersistSober(h, u);
        SoberTransitive(s, h, Persist(h), u);
        var b := BeginRemoval(cut, v, Unlink);
        BeginSober(cut, v, Unlink, u);
        SoberTransitive(s, cut, b, u);
        PersistSober(b, u);
        SoberTransitive(s, b, Persist(b), u);
      }
    }
  }

  lemma SettleSober(s: State, u: UserId)
    ensures Sober(s, SettleHolder(s), u)
  {
    hide StopAttempt, Sober;
    SoberReflexive(s, u);
    if Holder(s).Some? {
      var id := s.slot.value;
      StopSober(s, id, Expired, None, u);
      var t := if Active(Holder(s).value.state) then StopAttempt(s, id, Expired, None) else s;
      var r := SetOp(t, id, t.ops.at[id].(reconcile := true));
      SetSober(t, id, r.ops.at[id], u);
      SoberTransitive(s, t, r, u);
    }
  }

  lemma DrainSober(s: State, id: SnapshotId, deadline: nat, u: UserId)
    ensures Sober(s, DrainRound(s, id, deadline).0, u)
  {
    hide SettleHolder, CallShutdown, Persist, Sober, LoginActive;
    SoberReflexive(s, u);
    SettleSober(s, u);
    var t := SettleHolder(s);
    var p := t.(proc := t.proc.(started := false));
    SameSober(t, p, u);
    SoberTransitive(s, t, p, u);
    RestartSober(p, u);
    var (r, ok) := if t.proc.started then CallShutdown(p) else (t, true);
    SoberTransitive(s, p, CallShutdown(p).0, u);
    var sealed := r.(gate := r.gate.(sealed := true));
    var open := Unlocked(r.(proc := r.proc.(started := true, nativeLost := true)));
    SameSober(r, sealed, u);
    SameSober(r, open, u);
    SoberTransitive(s, r, sealed, u);
    SoberTransitive(s, r, open, u);
    PersistSober(sealed, u);
    SoberTransitive(s, sealed, Persist(sealed), u);
    SameSober(s, Unlocked(s), u);
  }

  lemma OpenSober(s: State, u: UserId)
    ensures Sober(s, OpenGate(s), u)
  {
    hide EnsureStarted, Persist, Sober, NeedsBridge;
    var t := Unlocked(s);
    SameSober(s, t, u);
    EnsureSober(t, u);
    var r := EnsureStarted(t).0;
    SoberTransitive(s, t, r, u);
    var w := r.(proc := r.proc.(nextStartAt := r.env.clock + r.cfg.recoverySeconds));
    SameSober(r, w, u);
    SoberTransitive(s, r, w, u);
    PersistSober(t, u);
    PersistSober(r, u);
    PersistSober(w, u);
    SoberTransitive(s, t, Persist(t), u);
    SoberTransitive(s, r, Persist(r), u);
    SoberTransitive(s, w, Persist(w), u);
  }

  // ---- timers -------------------------------------------------------------------------------------

  lemma {:induction false} ExpireSober(s: State, ids: seq<OpId>, now: nat, u: UserId)
    ensures Sober(s, Expire(s, ids, now), u)
    decreases ids
  {
    hide StopAttempt, DropAttemptUser, End, Sober;
    SoberReflexive(s, u);
    if ids != [] {
      if ids[0] in s.ops.at {
        StopSober(s, ids[0], Expired, None, u);
        GiveUpSober(s, ids[0], Expired, u);
      }
      ExpireSober(ExpireOne(s, ids[0], now), ids[1..], now, u);
      SoberTransitive(s, ExpireOne(s, ids[0], now), Expire(s, ids, now), u);
    }
  }

  lemma TimerSober(s: State, v: UserId, now: nat, canRecover: bool, u: UserId)
    ensures Sober(s, RemovalTimer(s, v, now, canRecover).0, u)
  {
    hide RetryRemoval, Sober;
    SoberReflexive(s, u);
    RetrySober(s, v, u);
    if v in s.pending.at {
      var item := s.pending.at[v];
      var spent := s.(pending := s.pending.Put(v, item.(recoveries := item.recoveries + 1, since := now)));
      var stuck := s.(pending := s.pending.Put(v, item.(stuck := true)));
      PutSober(s, v, item.(recoveries := item.recoveries + 1, since := now), u);
      PutSober(s, v, item.(stuck := true), u);
      RetrySober(stuck, v, u);
      SoberTransitive(s, stuck, RetryRemoval(stuck, v), u);
    }
  }

  lemma PutSober(s: State, v: UserId, item: Removal, u: UserId)
    requires v in s.pending.at
    ensures Sober(s, s.(pending := s.pending.Put(v, item)), u)
  {
  }

  lemma {:induction false} TimersSober(s: State, us: seq<UserId>, now: nat, canRecover: bool, u: UserId)
    ensures Sober(s, RemovalTimers(s, us, now, canRecover).0, u)
    decreases us
  {
    hide RemovalTimer, Sober;
    SoberReflexive(s, u);
    if us != [] {
      TimerSober(s, us[0], now, canRecover, u);
      var t := RemovalTimer(s, us[0], now, canRecover).0;
      TimersSober(t, us[1..], now, canRecover, u);
      SoberTransitive(s, t, RemovalTimers(s, us, now, canRecover).0, u);
    }
  }

  lemma ProcessSober(s: State, now: nat, u: UserId)
    ensures Sober(s, TickProcess(s, now).0, u)
  {
    hide EnsureStarted, Sober, NeedsBridge, Alive;
    SoberReflexive(s, u);
    SameSober(s, s.(proc := s.proc.(started := false, nativeLost := false)), u);
    EnsureSober(s, u);
    var t := EnsureStarted(s).0;
    var w := t.(proc := t.proc.(nextStartAt := now + t.cfg.recoverySeconds));
    SameSober(t, w, u);
    SoberTransitive(s, t, w, u);
  }

  lemma RecoverySober(s: State, now: nat, u: UserId)
    ensures Sober(s, TickRecovery(s, now).0, u)
  {
    hide RemovalTimers, TickProcess, ReconcileAll, Sober, HolderDue, Alive, ReconcilePending, MarkHolder;
    var canRecover := now >= s.proc.nextRecoveryAt;
    TimersSober(s, s.pending.order, now, canRecover, u);
    var a := RemovalTimers(s, s.pending.order, now, canRecover).0;
    SoberReflexive(a, u);
    if HolderDue(a, now) {
      DueHasHolder(a, now);
      MarkSober(a, u);
    }
    var b := if HolderDue(a, now) then MarkHolder(a) else a;
    SoberTransitive(s, a, b, u);
    ProcessSober(b, now, u);
    var c := TickProcess(b, now).0;
    SoberTransitive(s, b, c, u);
    ReconcileSober(c, u);
    SoberTransitive(s, c, ReconcileAll(c).0, u);
  }

  lemma DueHasHolder(s: State, now: nat)
    requires HolderDue(s, now)
    ensures Holder(s).Some?
  {
  }

  lemma MarkSober(s: State, u: UserId)
    requires Holder(s).Some?
    ensures Sober(s, MarkHolder(s), u)
  {
    hide Sober;
    SetSober(s, s.slot.value, Holder(s).value.(reconcile := true), u);
  }

  lemma {:induction false} PruneSober(s: State, ids: seq<OpId>, now: nat, u: UserId)
    ensures Sober(s, Prune(s, ids, now), u)
    decreases ids
  {
    hide Sober, Prunable;
    SoberReflexive(s, u);
    if ids != [] {
      PruneSober(s, ids[1..], now, u);
      var d := s.(ops := s.ops.Drop(ids[0]));
      ForgetSober(s, ids[0], u);
      PruneSober(d, ids[1..], now, u);
      SoberTransitive(s, d, Prune(d, ids[1..], now), u);
    }
  }

  lemma ForgetSober(s: State, id: OpId, u: UserId)
    ensures Sober(s, s.(ops := s.ops.Drop(id)), u)
  {
  }

  lemma TickOpenSober(s: State, u: UserId)
    ensures Sober(s, TickOpen(s), u)
  {
    hide Expire, TickRecovery, Prune, Persist, Sober;
    var now := s.env.clock;
    ExpireSober(s, s.ops.order, now, u);
    var a := Expire(s, s.ops.order, now);
    RecoverySober(a, now, u);
    SoberTransitive(s, a, TickRecovery(a, now).0, u);
    var (b, recover) := if a.proc.recovering then (a, false) else TickRecovery(a, now);
    PruneSober(b, b.ops.order, now, u);
    var c := Prune(b, b.ops.order, now);
    SoberTransitive(s, b, c, u);
    var d := if recover then c.(proc := c.proc.(recovering := true)) else c;
    SameSober(c, d, u);
    SoberTransitive(s, c, d, u);
    PersistSober(d, u);
    SoberTransitive(s, d, Persist(d), u);
  }

  lemma TickSober(s: State, u: UserId)
    ensures Sober(s, Tick(s), u)
  {
    hide TickOpen, OpenGate, Sober;
    var t := s.(env := s.env.(lastTick := s.env.clock));
    SameSober(s, t, u);
    TickOpenSober(t, u);
    SoberTransitive(s, t, TickOpen(t), u);
    OpenSober(t, u);
    SoberTransitive(s, t, OpenGate(t), u);
    TickOpenSober(OpenGate(t), u);
    SoberTransitive(s, OpenGate(t), TickOpen(OpenGate(t)), u);
  }

  lemma RecoverNativeSober(s: State, u: UserId)
    ensures Sober(s, RecoverNative(s), u)
  {
    hide CallRecover, Stamped, Sober;
    SoberReflexive(s, u);
    StampSober(s, u);
    RestartSober(Stamped(s), u);
    var t := CallRecover(Stamped(s)).0;
    SoberTransitive(s, Stamped(s), t, u);
    if s.proc.recovering && s.proc.restarted.None? {
      SameSober(t, RecoverNative(s), u);
      SoberTransitive(s, t, RecoverNative(s), u);
    }
  }

  lemma StampSober(s: State, u: UserId)
    ensures Sober(s, Stamped(s), u)
  {
    hide Sober, Min, Pow2;
    SameSober(s, Stamped(s), u);
  }

  lemma RecoverFinishSober(s: State, u: UserId)
    ensures Sober(s, RecoverFinish(s), u)
  {
    hide AfterRestart, Persist, Sober;
    SoberReflexive(s, u);
    if s.proc.restarted.Some? {
      var started := s.proc.restarted.value && !s.proc.closed;
      var t := s.(proc := s.proc.(recovering := false, restarted := None, started := started, nativeLost := false));
      SameSober(s, t, u);
      AfterRestartSober(t, u);
      SoberTransitive(s, t, AfterRestart(t), u);
      PersistSober(AfterRestart(t), u);
      SoberTransitive(s, AfterRestart(t), Persist(AfterRestart(t)), u);
      PersistSober(t, u);
      SoberTransitive(s, t, Persist(t), u);
      if Holder(t).Some? {
        var q := SetOp(t, t.slot.value, Holder(t).value.(endedAt := Some(t.env.clock)));
        SetSober(t, t.slot.value, q.ops.at[t.slot.value], u);
        SoberTransitive(s, t, q, u);
        PersistSober(q, u);
        SoberTransitive(s, q, Persist(q), u);
      }
    }
  }

  lemma ShutdownSober(s: State, u: UserId)
    ensures Sober(s, Shutdown(s), u)
  {
    hide Sober;
    SameSober(s, Shutdown(s), u);
  }

  lemma ReloadSober(s: State, u: UserId)
    ensures Sober(s, Reloaded(s), u)
  {
    hide Restored, Loses;
    var t := Loaded(s.cfg, s.disk, s.env.(running := false, login := Idle, dead := false));
    forall id | id in s.disk.ops.at
      ensures t.ops.at[id] == Restored(s.disk.ops.at[id], s.env.clock) && RestoredAlike(s.disk.ops.at[id], s.env.clock)
    {
      RestoredSame(s.disk.ops.at[id], s.env.clock);
    }
    assert Sober(s, t, u);
    SameSober(t, Noted(t), u);
    SoberTransitive(s, t, Noted(t), u);
  }

  ghost predicate RestoredAlike(op: Operation, now: nat) {
    var r := Restored(op, now);
    && r.preexisting == op.preexisting && r.createdByAttempt == op.createdByAttempt && r.userId == op.userId && r.email == op.email
    && (r.state.Connected? ==> op.state.Connected?)
  }

  lemma RestoredSame(op: Operation, now: nat)
    ensures RestoredAlike(op, now)
  {
  }

  // ---- Bridge's word ------------------------------------------------------------------------------

  /** Bridge lists the address among those of the user, in whatever case. */
  ghost predicate HasAddress(info: UserInfo, email: Email) {
    exists i :: 0 <= i < |info.addresses| && Lower(info.addresses[i]) == Lower(email)
  }

  lemma OwnsMeans(info: UserInfo, v: UserId, email: Email)
    ensures Owns(info, v, email) <==> info.id == v && HasAddress(info, email)
  {
    hide Lower;
    if i :| 0 <= i < |info.addresses| && Lower(info.addresses[i]) == Lower(email) {
      assert info.addresses[i] in info.addresses;
    }
  }

  /** Among the answers of tape Bridge says that user v owns the address, is signed in and has split mode on. */
  ghost predicate Confirms(tape: seq<Answer>, v: UserId, email: Email) {
    exists a :: a in tape && a.ok && a.info.id == v && HasAddress(a.info, email) && a.info.connected && a.info.split
  }

  /** A spared or waiting user stays so, Bridge's answers are used up, and only a user it has confirmed is signed in. */
  ghost predicate Heard(s: State, t: State, u: UserId) {
    && (Spared(s, u) ==> Spared(t, u)) && (Waiting(s, u) ==> Waiting(t, u)) && (forall a :: a in t.env.tape ==> a in s.env.tape)
    && forall id, v, e :: Signed(t, id, v, e) ==> Signed(s, id, v, e) || Confirms(s.env.tape, v, e)
  }

  lemma HeardTransitive(s: State, t: State, r: State, u: UserId)
    requires Heard(s, t, u) && Heard(t, r, u)
    ensures Heard(s, r, u)
  {
    hide Spared, Waiting, Signed, HasAddress;
    forall v, e | Confirms(t.env.tape, v, e)
      ensures Confirms(s.env.tape, v, e)
    {
    }
  }

  lemma SoberHeard(s: State, t: State, u: UserId)
    requires Sober(s, t, u) && forall a :: a in t.env.tape ==> a in s.env.tape
    ensures Heard(s, t, u)
  {
    hide Spared, Waiting, Signed;
  }

  lemma CallHeard(s: State, u: UserId)
    ensures Heard(s, NativeCall(s).0, u) && Heard(s, ListUsers(s).0, u) && Heard(s, GetUser(s).0, u)
  {
    hide Heard, Sober;
    CallSober(s, u);
    CallTape(s);
    SoberHeard(s, NativeCall(s).0, u);
    SoberHeard(s, ListUsers(s).0, u);
  }

  lemma CallTape(s: State)
    ensures NativeCall(s).0.env.tape == Popped(s).env.tape && ListUsers(s).0.env.tape == Popped(s).env.tape
    ensures forall a :: a in Popped(s).env.tape ==> a in s.env.tape
  {
    hide Accountable;
  }

  lemma DropTape(s: State, id: OpId)
    requires id in s.ops.at
    ensures forall a :: a in DropAttemptUser(s, id).env.tape ==> a in s.env.tape
  {
    hide NativeCall, HasHeir, Linked, Held;
    var op := s.ops.at[id];
    if op.createdByAttempt && op.userId.Some? && !Linked(s, op.userId.value) && !HasHeir(s, op.userId.value, Some(id)) {
      BeginTape(s, op.userId.value);
    }
  }

  lemma BeginTape(s: State, v: UserId)
    ensures forall a :: a in BeginRemoval(s, v, Attempt).env.tape ==> a in s.env.tape
  {
    hide NativeCall, Linked, Held;
    var item := if v in s.pending.at then s.pending.at[v].(since := s.env.clock, reason := s.pending.at[v].reason)
                else Removal(Attempt, s.env.clock, 0, false);
    CallTape(RemoveLogged(s.(pending := s.pending.Put(v, item)), v, v !in s.pending.at));
  }

  lemma GetUserFrame(s: State)
    ensures GetUser(s).0 == s.(env := GetUser(s).0.env)
    ensures GetUser(s).1.Some? ==> s.env.tape != [] && s.env.tape[0].ok && GetUser(s).1.value == s.env.tape[0].info
  {
    hide Turn;
    CallFrame(s);
  }

  /** The check of a signed-in attempt. */
  lemma CheckHeard(s: State, id: OpId, u: UserId)
    requires id in s.ops.at
    ensures Heard(s, Check(s, id), u)
  {
    hide GetUser, NativeCall, DropAttemptUser, Heard, Sober, Owns, HasAddress;
    CallHeard(s, u);
    GetUserFrame(s);
    var (t, info) := GetUser(s);
    var op := s.ops.at[id];
    if info.Some? && op.userId.Some? {
      if !Owns(info.value, op.userId.value, op.email) {
        var e := End(t, id, Failed, Some(AddressMismatch));
        SetSober(t, id, e.ops.at[id], u);
        DropUserSober(e, id, u);
        var d := DropAttemptUser(e, id);
        DropTape(e, id);
        ReleaseSober(d, id, u);
        SoberTransitive(t, e, d, u);
        SoberTransitive(t, d, Release(d, id), u);
        SoberHeard(t, Release(d, id), u);
        HeardTransitive(s, t, Release(d, id), u);
      } else if info.value.connected && info.value.split {
        OwnsMeans(info.value, op.userId.value, op.email);
        assert s.env.tape[0] in s.env.tape;
        assert Confirms(s.env.tape, op.userId.value, op.email);
        ConnectHeard(s, t, id, u);
      } else if info.value.connected && !op.splitRequested {
        var q := SetOp(t, id, t.ops.at[id].(splitRequested := true));
        SetSober(t, id, q.ops.at[id], u);
        SoberHeard(t, q, u);
        HeardTransitive(s, t, q, u);
        CallHeard(q, u);
        HeardTransitive(s, q, NativeCall(q).0, u);
      }
    }
  }

  lemma ConnectHeard(s: State, t: State, id: OpId, u: UserId)
    requires Heard(s, t, u) && id in t.ops.at && t.ops.at[id].userId.Some?
    requires Confirms(s.env.tape, t.ops.at[id].userId.value, t.ops.at[id].email)
    ensures Heard(s, Release(SetOp(t, id, t.ops.at[id].(state := Connected, errorCode := None)), id), u)
  {
    hide Confirms;
  }

  lemma {:induction false} CheckAllHeard(s: State, ids: seq<OpId>, v: UserId, u: UserId)
    ensures Heard(s, CheckAll(s, ids, v), u)
    decreases ids
  {
    hide Check, Heard, Sober;
    SoberReflexive(s, u);
    SoberHeard(s, s, u);
    if ids != [] {
      CheckAllHeard(s, ids[1..], v, u);
      if ids[0] in s.ops.at {
        CheckHeard(s, ids[0], u);
        CheckAllHeard(Check(s, ids[0]), ids[1..], v, u);
        HeardTransitive(s, Check(s, ids[0]), CheckAll(Check(s, ids[0]), ids[1..], v), u);
      }
    }
  }

  lemma ChangedHeard(s: State, v: UserId, u: UserId)
    ensures Heard(s, OnUserChanged(s, v), u)
  {
    hide ListUsers, CheckAll, Heard, Sober;
    SoberReflexive(s, u);
    SoberHeard(s, s, u);
    CallHeard(s, u);
    var l := ListUsers(s).0;
    if ListUsers(s).1.Some? && v !in ListUsers(s).1.value {
      ListedUsers(s);
      DropSober(l, v, u);
      SoberHeard(l, DropPending(l, v), u);
      HeardTransitive(s, l, DropPending(l, v), u);
    }
    var t := if v !in s.pending.at then s
             else if ListUsers(s).1.Some? && v !in ListUsers(s).1.value then DropPending(l, v) else l;
    CheckAllHeard(t, t.ops.order, v, u);
    HeardTransitive(s, t, CheckAll(t, t.ops.order, v), u);
  }

  /** The end of a sign-in: a user the attempt found in Bridge is not its own. */
  lemma FinishedHeard(s: State, finished: bool, user: Option<UserId>, u: UserId)
    requires Holder(s).Some? ==> !Holder(s).value.state.Connected?
    ensures Heard(s, OnLoginFinished(s, finished, user), u)
  {
    hide Check, DropAttemptUser, Heard, Sober;
    SoberReflexive(s, u);
    SoberHeard(s, s, u);
    if Holder(s).Some? && user.Some? {
      var id := s.slot.value;
      var op := s.ops.at[id].(userId := user, createdByAttempt := finished && user.value !in s.ops.at[id].preexisting);
      if Active(op.state) {
        var c := SetOp(s, id, op.(state := Checking));
        OwnSober(s, id, c.ops.at[id], u);
        SoberHeard(s, c, u);
        CheckHeard(c, id, u);
        HeardTransitive(s, c, Check(c, id), u);
      } else {
        var c := SetOp(s, id, op);
        OwnSober(s, id, op, u);
        DropUserSober(c, id, u);
        var d := DropAttemptUser(c, id);
        DropTape(c, id);
        ReleaseSober(d, id, u);
        SoberTransitive(s, c, d, u);
        SoberTransitive(s, d, Release(d, id), u);
        SoberHeard(s, Release(d, id), u);
      }
    }
  }

  /** An attempt that is not signed in takes a user: as its own only one it did not find in Bridge. */
  lemma OwnSober(s: State, id: OpId, op: Operation, u: UserId)
    requires id in s.ops.at && op.preexisting == s.ops.at[id].preexisting && !op.state.Connected?
    requires op.createdByAttempt && op.userId == Some(u) ==> u !in op.preexisting
    ensures Sober(s, SetOp(s, id, op), u)
  {
  }

  lemma ErrorSober(s: State, code: LoginErrorCode, u: UserId)
    ensures Sober(s, OnLoginError(s, code), u) && OnLoginError(s, code).env == s.env
  {
    hide Sober;
    SoberReflexive(s, u);
    if Holder(s).Some? {
      var id := s.slot.value;
      var op := s.ops.at[id];
      var retry := op.(state := if code.TfaError? then Needs2fa else NeedsSecondPassword, errorCode := Some(InvalidChallenge));
      SetSober(s, id, retry, u);
      var e := End(s, id, Failed, Some(LoginErrorResult(code)));
      SetSober(s, id, e.ops.at[id], u);
      ReleaseSober(e, id, u);
      SoberTransitive(s, e, Release(e, id), u);
      ReleaseSober(s, id, u);
    }
  }

  lemma StopTape(s: State, id: OpId, state: OpState, code: Option<ErrorCode>)
    requires id in s.ops.at
    ensures forall a :: a in StopAttempt(s, id, state, code).env.tape ==> a in s.env.tape
  {
    hide DropAttemptUser, NativeCall;
    var e := End(s, id, state, code);
    DropTape(e, id);
    CallTape(e);
  }

  lemma EventHeard(s: State, ev: Event, u: UserId)
    requires Holder(s).Some? ==> !Holder(s).value.state.Connected?
    ensures Heard(s, OnEvent(s, ev), u)
  {
    hide OnLoginError, OnLoginFinished, OnUserChanged, StopAttempt, Persist, Heard, Sober;
    SoberReflexive(s, u);
    SoberHeard(s, s, u);
    PersistHeard(s, s, u);
    match ev
    case NeedsTwoFactorEvent =>
      if Holder(s).Some? {
        var t := SetOp(s, s.slot.value, Holder(s).value.(state := Needs2fa));
        SetSober(s, s.slot.value, t.ops.at[s.slot.value], u);
        SoberHeard(s, t, u);
        PersistHeard(s, t, u);
      }
    case NeedsSecondPasswordEvent =>
      if Holder(s).Some? {
        var t := SetOp(s, s.slot.value, Holder(s).value.(state := NeedsSecondPassword));
        SetSober(s, s.slot.value, t.ops.at[s.slot.value], u);
        SoberHeard(s, t, u);
        PersistHeard(s, t, u);
      }
    case LoginErrorEvent(code) =>
      ErrorSober(s, code, u);
      SoberHeard(s, OnLoginError(s, code), u);
      PersistHeard(s, OnLoginError(s, code), u);
    case HumanVerificationEvent =>
      if Holder(s).Some? {
        var t := StopAttempt(s, s.slot.value, Failed, Some(VerificationRequired));
        StopSober(s, s.slot.value, Failed, Some(VerificationRequired), u);
        StopTape(s, s.slot.value, Failed, Some(VerificationRequired));
        SoberHeard(s, t, u);
        PersistHeard(s, t, u);
      }
    case FinishedEvent(user) =>
      FinishedHeard(s, true, user, u);
      PersistHeard(s, OnLoginFinished(s, true, user), u);
    case AlreadyLoggedInEvent(user) =>
      FinishedHeard(s, false, user, u);
      PersistHeard(s, OnLoginFinished(s, false, user), u);
    case UserChangedEvent(v) =>
      ChangedHeard(s, v, u);
      PersistHeard(s, OnUserChanged(s, v), u);
    case StreamEndedEvent =>
      var t := s.(proc := s.proc.(nativeLost := true));
      SameSober(s, t, u);
      SoberHeard(s, t, u);
      PersistHeard(s, t, u);
    case NoKeychainEvent =>
  }

  lemma PersistHeard(s: State, t: State, u: UserId)
    requires Heard(s, t, u)
    ensures Heard(s, Persist(t), u)
  {
    hide Heard, Sober;
    PersistSober(t, u);
    PersistKeepsOps(t);
    SoberHeard(t, Persist(t), u);
    HeardTransitive(s, t, Persist(t), u);
  }

  lemma DeliveredHeard(s: State, ev: Event, u: UserId)
    requires Holder(s).Some? ==> !Holder(s).value.state.Connected?
    ensures Heard(s, Delivered(s, ev), u)
  {
    hide OnEvent, Heard, Sober;
    SoberReflexive(s, u);
    SoberHeard(s, s, u);
    var q := if Terminal(ev) then s.(env := s.env.(login := Idle)) else s;
    SameSober(s, q, u);
    SoberHeard(s, q, u);
    EventHeard(q, ev, u);
    HeardTransitive(s, q, OnEvent(q, ev), u);
  }

  // ---- runs ---------------------------------------------------------------------------------------

  lemma HolderSignsIn(s: State)
    requires Inv(s)
    ensures Holder(s).Some? ==> !Holder(s).value.state.Connected?
  {
    hide Base, LoginOk, ProcOk, LeasesOk, SealOk, DiskOk;
  }

  /** Only an event that Bridge confirms signs anybody in; a spared user stays spared through every step that
      does not cut its last link. */
  lemma StepHeard(s: State, m: Move, u: UserId)
    requires Inv(s) && !Unlinks(s, m.step, u)
    ensures var t := Do(s, m);
      && (Spared(s, u) ==> Spared(t, u)) && (Waiting(s, u) ==> Waiting(t, u))
      && forall id, v, e :: Signed(t, id, v, e) ==> Signed(s, id, v, e) || (m.step.Deliver? && Confirms(m.tape, v, e))
  {
    hide Inv, Sober, Heard, Spared, Waiting, Signed, Turn, Boot, StartConnection, ContinueConnection, CancelConnection, CommitConnection,
         Credentials, RemoveUser, AcquireLease, ReleaseLease, SnapshotBegin, DrainRound, SnapshotEnd, SnapshotRenew, Tick,
         RecoverNative, RecoverFinish, Delivered, Shutdown, Reloaded, Unlinks;
    var q := s.(env := s.env.(tape := m.tape));
    SameSober(s, q, u);
    var t := Do(s, m);
    if m.step.Deliver? {
      HolderSignsIn(s);
      DeliveredHeard(q, m.step.event, u);
      SoberReflexive(q, u);
      SoberHeard(q, q, u);
      HeardMeans(s, q, t, u);
    } else {
      RestSober(q, s, m.step, u);
      SoberTransitive(s, q, t, u);
      SoberMeans(s, t, u);
    }
  }

  lemma SoberMeans(s: State, t: State, u: UserId)
    requires Sober(s, t, u)
    ensures (Spared(s, u) ==> Spared(t, u)) && (Waiting(s, u) ==> Waiting(t, u))
    ensures forall id, v, e :: Signed(t, id, v, e) ==> Signed(s, id, v, e)
  {
    hide Spared, Waiting, Signed;
  }

  lemma HeardMeans(s: State, q: State, t: State, u: UserId)
    requires Sober(s, q, u) && Heard(q, t, u)
    ensures (Spared(s, u) ==> Spared(t, u)) && (Waiting(s, u) ==> Waiting(t, u))
    ensures forall id, v, e :: Signed(t, id, v, e) ==> Signed(s, id, v, e) || Confirms(q.env.tape, v, e)
  {
    hide Spared, Waiting, Signed, Confirms;
  }

  lemma RestSober(s: State, before: State, step: Step, u: UserId)
    requires !step.Deliver? && s.links == before.links && !Unlinks(before, step, u)
    ensures Sober(s, Apply(s, step), u)
  {
    hide Sober, Turn, Boot, StartConnection, ContinueConnection, CancelConnection, CommitConnection,
         Credentials, RemoveUser, AcquireLease, ReleaseLease, SnapshotBegin, DrainRound, SnapshotEnd, SnapshotRenew, Tick,
         RecoverNative, RecoverFinish, Delivered, Shutdown, Reloaded;
    SoberReflexive(s, u);
    if !s.env.dead || step.Reload? {
      match step
      case World(turn) => TurnSober(s, turn, u);
      case DoBoot => BootSober(s, u);
      case DoStart(id, email, password) => StartSober(s, id, email, password, u);
      case DoContinue(id, challenge, secret) => ContinueSober(s, id, challenge, secret, u);
      case DoCancel(id) => CancelSober(s, id, u);
      case DoCommit(id, user, generation, previous) => CommitSober(s, id, user, generation, previous, u);
      case DoCredentials(user, attempt, current, email) => CredentialsSober(s, user, attempt, current, email, u);
      case DoRemove(user, generation, email) => RemoveUserSober(s, user, generation, email, u);
      case DoAcquire(lease) => LeaseSober(s, lease, u);
      case DoRelease(lease) => LeaseSober(s, lease, u);
      case DoBegin(snapshot) => GateSober(s, snapshot, u);
      case DoDrainRound(snapshot, deadline) => DrainSober(s, snapshot, deadline, u);
      case DoEnd(snapshot) => EndSober(s, snapshot, u);
      case DoRenew(snapshot) => GateSober(s, snapshot, u);
      case DoTick => TickSober(s, u);
      case DoRecoverNative => RecoverNativeSober(s, u);
      case DoRecoverFinish => RecoverFinishSober(s, u);
      case Deliver(_) =>
      case DoShutdown => ShutdownSober(s, u);
      case Reload => ReloadSober(s, u);
    }
  }

  lemma LeaseSober(s: State, l: LeaseId, u: UserId)
    ensures Sober(s, AcquireLease(s, l).0, u) && Sober(s, ReleaseLease(s, l).0, u)
  {
    hide Sober, Admitted;
    SameSober(s, AcquireLease(s, l).0, u);
    SameSober(s, ReleaseLease(s, l).0, u);
  }

  lemma GateSober(s: State, id: SnapshotId, u: UserId)
    ensures Sober(s, SnapshotBegin(s, id).0, u) && Sober(s, SnapshotRenew(s, id).0, u)
  {
    hide Sober;
    SameSober(s, SnapshotBegin(s, id).0, u);
    SameSober(s, SnapshotRenew(s, id).0, u);
  }

  lemma EndSober(s: State, id: SnapshotId, u: UserId)
    ensures Sober(s, SnapshotEnd(s, id).0, u)
  {
    hide Sober, OpenGate;
    SoberReflexive(s, u);
    OpenSober(s, u);
  }

  /** Once a user waits to go, in memory and in the journal, it waits until Bridge has it no more, or a sign-in
      creates it again, through every run and every death of the worker. */
  lemma WaitingStays(s: State, moves: seq<Move>, u: UserId, k: nat)
    requires Inv(s) && k <= |moves| && u in s.pending.at && u in s.disk.reasons
    ensures var t := After(s, moves, k); u !in t.env.users || u in t.env.made || (u in t.pending.at && u in t.disk.reasons)
  {
    WaitingLasts(s, moves, u, k);
  }

  lemma StepWaits(s: State, m: Move, u: UserId)
    requires Inv(s)
    ensures Waiting(s, u) ==> Waiting(Do(s, m), u)
  {
    hide Inv, Do, Spared, Waiting, Signed, Confirms, RemoveUser;
    if Unlinks(s, m.step, u) {
      if s.env.dead {
        DeadStays(s, m);
        TapeWaits(s, m.tape, u);
      } else {
        ApplyRemove(s, m);
        TapeWaits(s, m.tape, u);
        RemoveWaits(s.(env := s.env.(tape := m.tape)), m.step.user, m.step.generation, m.step.email, u);
      }
    } else {
      StepHeard(s, m, u);
    }
  }

  lemma TapeWaits(s: State, tape: seq<Answer>, u: UserId)
    ensures Waiting(s, u) ==> Waiting(s.(env := s.env.(tape := tape)), u)
  {
  }

  lemma SoberWaits(s: State, t: State, u: UserId)
    requires Sober(s, t, u) && Waiting(s, u)
    ensures Waiting(t, u)
  {
  }

  lemma RemoveWaits(s: State, v: UserId, generation: Generation, email: Email, u: UserId)
    ensures Waiting(s, u) ==> Waiting(RemoveUser(s, v, generation, email).0, u)
  {
    hide EnsureStarted, HasHeir, BeginRemoval, Persist, Sober, Lower, Admitted, SafeEmail, Handed;
    var key := LinkKey(v, Lower(email));
    if Waiting(s, u) && key in s.links && s.links[key].generation == generation {
      var others := exists k | k in s.links :: k.user == v && k != key;
      EnsureSober(s, u);
      var t := if others then s else EnsureStarted(s).0;
      if !others {
        SoberWaits(s, t, u);
      }
      var cut := t.(links := t.links - {key});
      BeginRest(cut, v, Unlink, u);
      PersistWaits(cut, u);
      PersistWaits(HandOver(cut, v, None), u);
      PersistWaits(BeginRemoval(cut, v, Unlink), u);
    }
  }

  lemma PersistWaits(s: State, u: UserId)
    requires Waiting(s, u)
    ensures Waiting(Persist(s), u)
  {
    hide Sober;
    PersistSober(s, u);
    SoberWaits(s, Persist(s), u);
  }

  lemma {:induction false} WaitingLasts(s: State, moves: seq<Move>, u: UserId, k: nat)
    requires Inv(s) && k <= |moves| && Waiting(s, u)
    ensures Waiting(After(s, moves, k), u)
  {
    hide Inv, Do, Spared, Waiting, Unlinks;
    if k == 0 {
      assert moves[..0] == [];
    } else {
      WaitingLasts(s, moves, u, k - 1);
      AfterKeeps(s, moves, k - 1);
      AfterStep(s, moves, k - 1);
      StepWaits(After(s, moves, k - 1), moves[k - 1], u);
    }
  }

  /** A user that Bridge had when the first worker came is never handed to native.remove_user, never pending,
      and stays in Bridge, through every run in which its last link is not cut. */
  lemma {:induction false} FoundUserStays(cfg: Config, clock: nat, users: set<UserId>, moves: seq<Move>, u: UserId, k: nat)
    requires u in users && k <= |moves|
    requires forall i :: 0 <= i < k ==> !Unlinks(After(Init(cfg, clock, users), moves, i), moves[i].step, u)
    ensures var t := After(Init(cfg, clock, users), moves, k);
      u in t.env.users && u !in t.env.asked && u !in t.pending.at && u !in t.disk.reasons
  {
    SparedStays(Init(cfg, clock, users), moves, u, k) by { InitKeeps(cfg, clock, users); InitSpares(cfg, clock, users, u); }
  }

  lemma InitSpares(cfg: Config, clock: nat, users: set<UserId>, u: UserId)
    requires u in users
    ensures Spared(Init(cfg, clock, users), u)
  {
  }

  lemma {:induction false} SparedStays(s: State, moves: seq<Move>, u: UserId, k: nat)
    requires Inv(s) && Spared(s, u) && k <= |moves|
    requires forall i :: 0 <= i < k ==> !Unlinks(After(s, moves, i), moves[i].step, u)
    ensures Spared(After(s, moves, k), u)
  {
    hide Inv, Do, Spared, Waiting, Unlinks;
    if k == 0 {
      assert moves[..0] == [];
    } else {
      SparedStays(s, moves, u, k - 1);
      AfterKeeps(s, moves, k - 1);
      AfterStep(s, moves, k - 1);
      StepHeard(After(s, moves, k - 1), moves[k - 1], u);
    }
  }

  /** Whoever is asked to go, or waits to go, was not in Bridge before the first worker, or has lost the last
      link to an unlink that named it. */
  lemma RemovalsAreDue(cfg: Config, clock: nat, users: set<UserId>, moves: seq<Move>, u: UserId)
    requires var t := Run(Init(cfg, clock, users), moves); u in t.env.asked || u in t.pending.at || u in t.disk.reasons
    ensures u !in users || exists i :: 0 <= i < |moves| && Unlinks(After(Init(cfg, clock, users), moves, i), moves[i].step, u)
  {
    hide Unlinks, Init;
    assert moves[..|moves|] == moves;
    if u in users && forall i :: 0 <= i < |moves| ==> !Unlinks(After(Init(cfg, clock, users), moves, i), moves[i].step, u) {
      FoundUserStays(cfg, clock, users, moves, u, |moves|);
    }
  }

  /** No attempt is signed in, in memory or in the journal, but for a user that Bridge has confirmed, in an event
      of the run: it owns the attempt's address, is signed in there and has split mode on. */
  lemma {:induction false} SignedInOnBridgesWord(cfg: Config, clock: nat, users: set<UserId>, moves: seq<Move>,
                                                 id: OpId, v: UserId, email: Email, k: nat)
    requires k <= |moves| && Signed(After(Init(cfg, clock, users), moves, k), id, v, email)
    ensures exists i :: 0 <= i < k && moves[i].step.Deliver? && Confirms(moves[i].tape, v, email)
  {
    hide Inv, Do, Signed, Confirms, Unlinks;
    var s := Init(cfg, clock, users);
    if k == 0 {
      assert moves[..0] == [];
      NobodySigned(cfg, clock, users, id, v, email);
    } else {
      InitKeeps(cfg, clock, users);
      AfterKeeps(s, moves, k - 1);
      AfterStep(s, moves, k - 1);
      var u := if moves[k - 1].step.DoRemove? then moves[k - 1].step.user + 1 else 0;
      NotUnlinked(After(s, moves, k - 1), moves[k - 1].step, u);
      StepHeard(After(s, moves, k - 1), moves[k - 1], u);
      if Signed(After(s, moves, k - 1), id, v, email) {
        SignedInOnBridgesWord(cfg, clock, users, moves, id, v, email, k - 1);
      }
    }
  }

  lemma NotUnlinked(s: State, step: Step, u: UserId)
    requires step.DoRemove? ==> step.user != u
    ensures !Unlinks(s, step, u)
  {
  }

  lemma NobodySigned(cfg: Config, clock: nat, users: set<UserId>, id: OpId, v: UserId, email: Email)
    ensures !Signed(Init(cfg, clock, users), id, v, email)
  {
  }
}
