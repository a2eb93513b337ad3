/** No orphan user: every user a sign-in created is linked, being removed, or about to be cleaned up. */
module BridgeAccounts {
  import opened Wrappers
  import opened Dicts
  import opened BridgeTypes
  import opened BridgeSpec
  import opened BridgeMachine
  import opened BridgeShape
  import opened BridgeInvariant
  import opened BridgeSections

  /** What the holder's sign-in can have created: nothing while it runs, one user when it has created one, the
      checked user, or nothing outside its start snapshot, when it is over. */
  ghost predicate Created(made: set<UserId>, login: Login, op: Operation) {
    && (login.Running? ==> made <= op.preexisting)
    && (login.Made? ==> made <= op.preexisting + {login.user})
    && (op.state.Checking? ==> forall u :: u in made ==> u in op.preexisting || (op.userId == Some(u) && op.createdByAttempt))
  }

  /** The accounts are in order for holder h, but for the users in ex. */
  ghost predicate InOrder(s: State, h: Option<OpId>, ex: set<UserId>) {
    && s.env.made <= s.env.users
    && (forall u :: u in s.env.made && u !in ex ==> Counted(s.ops.at, s.links, s.pending.at, h, u))
    && (h.Some? && h.value in s.ops.at ==> Created(s.env.made, s.env.login, s.ops.at[h.value]))
  }

  /** No user was lost so far, and the worker lives. */
  predicate Clear(e: Env) {
    !e.slipped && !e.dead
  }

  ghost predicate Accounted(s: State) {
    Clear(s.env) ==> InOrder(s, s.slot, {})
  }

  /** A running sign-in is the holder's. */
  ghost predicate Attended(s: State, h: Option<OpId>) {
    s.env.login.Idle? || (h == s.slot && Holder(s).Some? && !Holder(s).value.state.Checking?)
  }

  // ---- Bridge and removals ------------------------------------------------------------------------

  lemma TurnCounts(s: State, a: Answer, h: Option<OpId>, ex: set<UserId>)
    requires InOrder(s, h, ex) && Attended(s, h) && Clear(Turn(s, a).env)
    ensures InOrder(Turn(s, a), h, ex) && Attended(Turn(s, a), h)
  {
    hide Counted;
    var t := Turn(s, a);
    if Born(s, a) {
      assert Accountable(s, a.born.value);
    }
  }

  lemma NativeCallCounts(s: State, h: Option<OpId>, ex: set<UserId>)
    requires InOrder(s, h, ex) && Attended(s, h) && Clear(NativeCall(s).0.env)
    ensures InOrder(NativeCall(s).0, h, ex) && Attended(NativeCall(s).0, h)
  {
    hide Turn, Counted, Created;
    TurnCounts(Popped(s), Next(s), h, ex);
  }

  lemma ListUsersCounts(s: State, h: Option<OpId>, ex: set<UserId>)
    requires InOrder(s, h, ex) && Attended(s, h) && Clear(ListUsers(s).0.env)
    ensures InOrder(ListUsers(s).0, h, ex) && Attended(ListUsers(s).0, h)
  {
    hide NativeCall, Counted, Created;
    NativeCallCounts(s, h, ex);
  }

  /** u is being removed now. */
  lemma BeginRemovalCounts(s: State, u: UserId, reason: Reason, h: Option<OpId>, ex: set<UserId>)
    requires InOrder(s, h, ex + {u}) && Attended(s, h) && Clear(BeginRemoval(s, u, reason).env)
    ensures InOrder(BeginRemoval(s, u, reason), h, ex) && Attended(BeginRemoval(s, u, reason), h)
  {
    hide NativeCall, Created, OwnedIn, MarkedIn, HasLink, HeldIn;
    var item := if u in s.pending.at
                then s.pending.at[u].(since := s.env.clock, reason := if reason.Unlink? then Unlink else s.pending.at[u].reason)
                else Removal(reason, s.env.clock, 0, false);
    var logged := RemoveLogged(s.(pending := s.pending.Put(u, item)), u, u !in s.pending.at);
    assert InOrder(logged, h, ex);
    NativeCallCounts(logged, h, ex);
  }

  lemma {:induction false} BeginRemovalsCount(s: State, us: seq<UserId>, h: Option<OpId>, ex: set<UserId>)
    requires Base(s) && forall u :: u in us ==> !HasLink(s.links, u) && !HeldIn(s.ops.at, u)
    requires InOrder(s, h, ex) && s.env.login.Idle? && Clear(BeginRemovals(s, us).env)
    ensures InOrder(BeginRemovals(s, us), h, ex) && BeginRemovals(s, us).env.login.Idle?
    ensures BeginRemovals(s, us).env.made <= s.env.made
    decreases us
  {
    hide BeginRemoval, Base, InOrder, HeldIn, HasLink, OpsKept;
    if us != [] {
      BeginRemovalKeeps(s, us[0], Attempt);
      var t := BeginRemoval(s, us[0], Attempt);
      BeginRemovalsKeeps(t, us[1..]);
      WiderOrder(s, h, ex, us[0]);
      BeginRemovalCounts(s, us[0], Attempt, h, ex);
      BeginRemovalMakes(s, us[0], Attempt);
      BeginRemovalsCount(t, us[1..], h, ex);
    }
  }

  lemma WiderOrder(s: State, h: Option<OpId>, ex: set<UserId>, u: UserId)
    requires InOrder(s, h, ex)
    ensures InOrder(s, h, ex + {u})
  {
    hide Counted, Created;
  }

  lemma TurnMakes(s: State, a: Answer)
    ensures s.env.login.Idle? ==> Turn(s, a).env.made <= s.env.made && Turn(s, a).env.login.Idle?
  {
  }

  lemma BeginRemovalMakes(s: State, u: UserId, reason: Reason)
    ensures s.env.login.Idle? ==> BeginRemoval(s, u, reason).env.made <= s.env.made && BeginRemoval(s, u, reason).env.login.Idle?
  {
    hide Turn;
    var item := if u in s.pending.at
                then s.pending.at[u].(since := s.env.clock, reason := if reason.Unlink? then Unlink else s.pending.at[u].reason)
                else Removal(reason, s.env.clock, 0, false);
    var logged := RemoveLogged(s.(pending := s.pending.Put(u, item)), u, u !in s.pending.at);
    TurnMakes(Popped(logged), Next(logged));
  }

  /** A removal ends only when Bridge no longer lists the user. */
  lemma GoneCounts(s: State, u: UserId, h: Option<OpId>, ex: set<UserId>)
    requires InOrder(s, h, ex) && u !in s.env.users
    ensures InOrder(DropPending(s, u), h, ex)
  {
    hide Created, OwnedIn, MarkedIn, HasLink;
    var t := DropPending(s, u);
    forall v | v in t.env.made && v !in ex
      ensures Counted(t.ops.at, t.links, t.pending.at, h, v)
    {
      assert v != u && Counted(s.ops.at, s.links, s.pending.at, h, v);
    }
  }

  lemma RetryRemovalCounts(s: State, u: UserId, h: Option<OpId>, ex: set<UserId>)
    requires Base(s) && InOrder(s, h, ex) && Attended(s, h) && Clear(RetryRemoval(s, u).env)
    ensures InOrder(RetryRemoval(s, u), h, ex) && Attended(RetryRemoval(s, u), h)
  {
    hide BeginRemoval, ListUsers, Base, InOrder, OpsKept;
    if u in s.pending.at {
      ListUsersKeeps(s);
      var (t, users) := ListUsers(s);
      if users.Some? && u in users.value {
        PendingIsFree(t, u);
        BeginRemovalKeeps(t, u, t.pending.at[u].reason);
        ListUsersCounts(s, h, ex);
        WiderOrder(t, h, ex, u);
        BeginRemovalCounts(t, u, t.pending.at[u].reason, h, ex);
      } else {
        ListUsersCounts(s, h, ex);
        if users.Some? {
          GoneCounts(t, u, h, ex);
        }
      }
    }
  }

  lemma PendingIsFree(s: State, u: UserId)
    requires Base(s) && u in s.pending.at
    ensures !HasLink(s.links, u)
  {
  }

  lemma {:induction false} RetryRemovalsCount(s: State, us: seq<UserId>, h: Option<OpId>, ex: set<UserId>)
    requires Base(s) && InOrder(s, h, ex) && Attended(s, h) && Clear(RetryRemovals(s, us).env)
    ensures InOrder(RetryRemovals(s, us), h, ex) && Attended(RetryRemovals(s, us), h)
    decreases us
  {
    hide RetryRemoval, Base, InOrder, Attended, OpsKept;
    if us != [] {
      RetryRemovalKeeps(s, us[0]);
      RetryRemovalsKeeps(RetryRemoval(s, us[0]), us[1..]);
      RetryRemovalCounts(s, us[0], h, ex);
      RetryRemovalsCount(RetryRemoval(s, us[0]), us[1..], h, ex);
    }
  }

  // ---- ends of attempts ---------------------------------------------------------------------------

  lemma CoreAttends(s: State, at: nat)
    requires CoreAt(s, at)
    ensures Attended(s, s.slot)
  {
  }

  lemma HandOverCounts(s: State, u: UserId, ended: Option<OpId>, h: Option<OpId>, ex: set<UserId>)
    requires InOrder(s, h, ex + {u}) && HasHeir(s, u, ended)
    ensures InOrder(HandOver(s, u, ended), h, ex)
  {
    hide HasLink;
    var t := HandOver(s, u, ended);
    var heir :| heir in s.ops.at && Some(heir) != ended && Heir(s.ops.at[heir], u);
    assert Heir(t.ops.at[heir], u) && t.ops.at[heir].createdByAttempt;
    forall v | v in t.env.made && v !in ex
      ensures Counted(t.ops.at, t.links, t.pending.at, h, v)
    {
      if v != u {
        HandedCounted(s, t, u, ended, h, v);
      }
    }
  }

  lemma HandedAt(s: State, t: State, u: UserId, ended: Option<OpId>)
    requires t == HandOver(s, u, ended)
    ensures t == s.(ops := t.ops) && t.ops.at.Keys == s.ops.at.Keys
    ensures forall id :: id in s.ops.at ==> t.ops.at[id] == s.ops.at[id] || t.ops.at[id] == s.ops.at[id].(createdByAttempt := true)
  {
    hide Handed;
  }

  lemma HandedCounted(s: State, t: State, u: UserId, ended: Option<OpId>, h: Option<OpId>, v: UserId)
    requires t == HandOver(s, u, ended) && Counted(s.ops.at, s.links, s.pending.at, h, v)
    ensures Counted(t.ops.at, t.links, t.pending.at, h, v)
  {
    hide HasLink, Handed;
    HandedAt(s, t, u, ended);
    hide HandOver;
    if OwnedIn(s.ops.at, v) {
      var o :| o in s.ops.at && Heir(s.ops.at[o], v) && s.ops.at[o].createdByAttempt;
      assert Heir(t.ops.at[o], v) && t.ops.at[o].createdByAttempt;
    }
    if MarkedIn(s.ops.at, v) {
      var o :| o in s.ops.at && s.ops.at[o].reconcile && v !in s.ops.at[o].preexisting;
      assert t.ops.at[o].reconcile && v !in t.ops.at[o].preexisting;
    }
  }

  /** The user an attempt must clean up. */
  function Lost(op: Operation): set<UserId> {
    if op.createdByAttempt && op.userId.Some? then {op.userId.value} else {}
  }

  /** Changing attempt id leaves the accounts in order but for the user it was to clean up, when it stays as
      marked as it was. */
  lemma ChangeCounts(s: State, id: OpId, op: Operation, h: Option<OpId>, ex: set<UserId>)
    requires InOrder(s, h, ex) && id in s.ops.at && op.preexisting == s.ops.at[id].preexisting
    requires s.ops.at[id].reconcile ==> op.reconcile
    requires op.state.Checking? ==> s.ops.at[id].state.Checking? && op.userId == s.ops.at[id].userId
    requires op.state.Checking? && s.ops.at[id].createdByAttempt ==> op.createdByAttempt
    ensures InOrder(SetOp(s, id, op), h, ex + Lost(s.ops.at[id]))
  {
    hide HasLink;
    var t := SetOp(s, id, op);
    forall v | v in t.env.made && v !in ex + Lost(s.ops.at[id])
      ensures Counted(t.ops.at, t.links, t.pending.at, h, v)
    {
      assert Counted(s.ops.at, s.links, s.pending.at, h, v);
      if OwnedIn(s.ops.at, v) {
        var o :| o in s.ops.at && Heir(s.ops.at[o], v) && s.ops.at[o].createdByAttempt;
        assert o != id;
        assert Heir(t.ops.at[o], v) && t.ops.at[o].createdByAttempt;
      }
      if MarkedIn(s.ops.at, v) {
        var o :| o in s.ops.at && s.ops.at[o].reconcile && v !in s.ops.at[o].preexisting;
        assert t.ops.at[o].reconcile && v !in t.ops.at[o].preexisting;
      }
    }
  }

  lemma DropCounts(s: State, id: OpId, h: Option<OpId>, ex: set<UserId>)
    requires Base(s) && id in s.ops.at && Ended(s.ops.at[id].state)
    requires InOrder(s, h, ex + Lost(s.ops.at[id])) && Attended(s, h) && Clear(DropAttemptUser(s, id).env)
    ensures InOrder(DropAttemptUser(s, id), h, ex)
  {
    hide BeginRemoval, HandOver, Base, Created, OwnedIn, MarkedIn, HasLink;
    var op := s.ops.at[id];
    if op.createdByAttempt && op.userId.Some? && !Linked(s, op.userId.value) {
      if HasHeir(s, op.userId.value, Some(id)) {
        HandOverCounts(s, op.userId.value, Some(id), h, ex);
      } else {
        assert forall o :: o in s.ops.at && Holds(s.ops.at[o], op.userId.value) ==> Heir(s.ops.at[o], op.userId.value);
        BeginRemovalCounts(s, op.userId.value, Attempt, h, ex);
      }
    }
  }

  /** Once its sign-in has ended in a checked user, the holder covers nothing by its slot. */
  lemma CheckedCovers(s: State, id: OpId)
    requires InOrder(s, Some(id), {}) && id in s.ops.at && s.ops.at[id].state.Checking? && !s.ops.at[id].committed
    ensures InOrder(s, None, {})
  {
    hide HasLink, MarkedIn;
    forall u | u in s.env.made
      ensures Counted(s.ops.at, s.links, s.pending.at, None, u)
    {
      assert Counted(s.ops.at, s.links, s.pending.at, Some(id), u);
      if u !in s.ops.at[id].preexisting {
        assert Heir(s.ops.at[id], u) && s.ops.at[id].createdByAttempt;
      }
    }
  }

  lemma CleanUpCounts(s: State, id: OpId, state: OpState, code: Option<ErrorCode>, at: nat)
    requires CoreAt(s, at) && id in s.ops.at && s.ops.at[id].state.Checking? && Ended(state) && Accounted(s)
    ensures Accounted(Release(DropAttemptUser(End(s, id, state, code), id), id))
  {
    hide DropAttemptUser, InOrder, CoreAt, Base, OpsFlow, OpsKept, Lost;
    ActiveHoldsSlot(s, id, at);
    CoreHasBase(s, at);
    NotCommitted(s, id, at);
    EndKeeps(s, id, state, code);
    var e := End(s, id, state, code);
    DropAttemptUserKeeps(e, id);
    var d := DropAttemptUser(e, id);
    if Clear(d.env) {
      CheckedCovers(s, id);
      ChangeCounts(s, id, e.ops.at[id], None, {});
      LostSame(s.ops.at[id], e.ops.at[id]);
      DropCounts(e, id, None, {});
      SlotFree(d, {});
    }
  }

  lemma NotCommitted(s: State, id: OpId, at: nat)
    requires CoreAt(s, at) && id in s.ops.at && Active(s.ops.at[id].state)
    ensures !s.ops.at[id].committed && (s.ops.at[id].state.Checking? ==> s.env.login.Idle?)
    ensures !s.ops.at[id].state.Checking? ==> s.ops.at[id].userId.None? && !s.ops.at[id].createdByAttempt
    ensures !s.ops.at[id].reconcile
  {
  }

  lemma LostSame(o: Operation, p: Operation)
    requires p.createdByAttempt == o.createdByAttempt && p.userId == o.userId
    ensures Lost(o) == Lost(p) && {} + Lost(o) == Lost(o)
  {
  }

  lemma SlotFree(s: State, ex: set<UserId>)
    requires InOrder(s, None, ex)
    ensures InOrder(s.(slot := None), None, ex)
  {
  }

  /** The holder ends and keeps the slot, its sign-in possibly running on. */
  lemma EndHolderCounts(s: State, id: OpId, state: OpState, code: Option<ErrorCode>, at: nat)
    requires CoreAt(s, at) && id in s.ops.at && Active(s.ops.at[id].state) && !s.ops.at[id].state.Checking? && Ended(state) && Accounted(s)
    ensures Accounted(End(s, id, state, code))
  {
    hide InOrder, CoreAt;
    NotCommitted(s, id, at);
    if Clear(s.env) {
      ChangeCounts(s, id, End(s, id, state, code).ops.at[id], s.slot, {});
      assert {} + Lost(s.ops.at[id]) == {};
    }
  }

  lemma StopAttemptCounts(s: State, id: OpId, state: OpState, code: Option<ErrorCode>, at: nat)
    requires CoreAt(s, at) && id in s.ops.at && Active(s.ops.at[id].state) && Ended(state) && Accounted(s)
    ensures Accounted(StopAttempt(s, id, state, code))
  {
    hide DropAttemptUser, NativeCall, CoreAt, InOrder, Attended, Base, OpsKept;
    if s.ops.at[id].state.Checking? {
      CleanUpCounts(s, id, state, code, at);
    } else {
      EndHolderKeeps(s, id, state, code, at);
      EndHolderCounts(s, id, state, code, at);
      var e := End(s, id, state, code);
      CoreHasBase(e, at);
      NativeCallKeeps(e);
      CoreAttends(e, at);
      if Clear(NativeCall(e).0.env) {
        NativeCallCounts(e, e.slot, {});
      }
    }
  }

  lemma GiveUpCounts(s: State, id: OpId, state: OpState, at: nat)
    requires CoreAt(s, at) && id in s.ops.at && s.ops.at[id].state.Connected? && !s.ops.at[id].committed && Ended(state) && Accounted(s)
    ensures Accounted(DropAttemptUser(End(s, id, state, None), id))
  {
    hide DropAttemptUser, CoreAt, InOrder, Base, OpsKept, OpsFlow, Lost;
    CoreHasBase(s, at);
    NotHolder(s.ops.at, s.slot, id);
    EndKeeps(s, id, state, None);
    var e := End(s, id, state, None);
    DropAttemptUserKeeps(e, id);
    CoreAttends(s, at);
    if Clear(DropAttemptUser(e, id).env) {
      ChangeCounts(s, id, e.ops.at[id], s.slot, {});
      LostSame(s.ops.at[id], e.ops.at[id]);
      DropCounts(e, id, s.slot, {});
    }
  }

  // ---- reconciliation -----------------------------------------------------------------------------

  lemma ReconcileOrphansCounts(s: State, id: OpId)
    requires Base(s) && id in s.ops.at && s.ops.at[id].reconcile && s.env.login.Idle?
    requires InOrder(s, s.slot, {}) && Clear(ReconcileOrphans(s, id).0.env)
    ensures var t := ReconcileOrphans(s, id).0; InOrder(t, s.slot, {}) && t.env.login.Idle? && t.slot == s.slot
  {
    hide BeginRemovals, ListUsers, Known, InOrder, OpsOk, OpsKept, LinksOk, PendingOk, CallsOk, SetOp, HasLink, HeldIn, Noted;
    ListUsersKeeps(s);
    var (t, users) := ListUsers(s);
    if users.None? {
      ListUsersCounts(s, s.slot, {});
    } else {
      var orphans := set u | u in users.value && !Known(t, id, u);
      forall u | u in Sorted(orphans)
        ensures !HasLink(t.links, u) && !HeldIn(t.ops.at, u)
      {
        StillEnded(s, id);
        UnknownIsFree(t, id, u);
      }
      BeginRemovalsKeeps(t, Sorted(orphans));
      var r := BeginRemovals(t, Sorted(orphans));
      UnflagClear(r, id);
      ClearBefore(t, r);
      ListUsersCounts(s, s.slot, {});
      BeginRemovalsCount(t, Sorted(orphans), s.slot, {});
      UnflagCounts(r, id);
    }
  }

  lemma StillEnded(s: State, id: OpId)
    requires Base(s) && id in s.ops.at && s.ops.at[id].reconcile
    ensures Ended(s.ops.at[id].state)
  {
  }

  lemma ClearBefore(s: State, t: State)
    requires Housekeeping(s, t) && Clear(t.env)
    ensures Clear(s.env)
  {
  }

  /** Unmarking an attempt is noted: if it loses a user, the history says so. */
  lemma UnflagClear(r: State, id: OpId)
    requires id in r.ops.at
    ensures var t := Noted(SetOp(r, id, r.ops.at[id].(reconcile := false))); t.env == r.env.(slipped := t.env.slipped)
    ensures Clear(Noted(SetOp(r, id, r.ops.at[id].(reconcile := false))).env) ==> Clear(r.env)
  {
    hide Loses;
  }

  lemma UnflagCounts(r: State, id: OpId)
    requires id in r.ops.at && InOrder(r, r.slot, {}) && Clear(Noted(SetOp(r, id, r.ops.at[id].(reconcile := false))).env)
    ensures var t := Noted(SetOp(r, id, r.ops.at[id].(reconcile := false))); InOrder(t, r.slot, {}) && t.slot == r.slot
  {
    hide Counted;
  }

  lemma {:induction false} ReconcileFlaggedCounts(s: State, ids: seq<OpId>)
    requires Base(s) && s.env.login.Idle? && InOrder(s, s.slot, {}) && Clear(ReconcileFlagged(s, ids).0.env)
    ensures var t := ReconcileFlagged(s, ids).0; InOrder(t, s.slot, {}) && t.env.login.Idle? && t.slot == s.slot
    decreases ids
  {
    hide ReconcileOrphans, Base, InOrder, OpsKept, LoginMoves, RemovalsMove;
    if ids != [] {
      if ids[0] in s.ops.at && s.ops.at[ids[0]].reconcile {
        ReconcileOrphansKeeps(s, ids[0]);
        var t := ReconcileOrphans(s, ids[0]).0;
        ReconcileFlaggedKeeps(t, ids[1..]);
        ReconcileOrphansCounts(s, ids[0]);
        ReconcileFlaggedCounts(t, ids[1..]);
      } else {
        ReconcileFlaggedCounts(s, ids[1..]);
      }
    }
  }

  /** A change of times and codes only. */
  lemma TouchCounts(s: State, id: OpId, op: Operation, h: Option<OpId>, ex: set<UserId>)
    requires InOrder(s, h, ex) && id in s.ops.at
    requires op == s.ops.at[id].(endedAt := op.endedAt, errorCode := op.errorCode, splitRequested := op.splitRequested, createdAt := op.createdAt)
    ensures InOrder(SetOp(s, id, op), h, ex)
  {
    hide HasLink;
    var t := SetOp(s, id, op);
    forall v | v in t.env.made && v !in ex
      ensures Counted(t.ops.at, t.links, t.pending.at, h, v)
    {
      assert Counted(s.ops.at, s.links, s.pending.at, h, v);
      if OwnedIn(s.ops.at, v) {
        var o :| o in s.ops.at && Heir(s.ops.at[o], v) && s.ops.at[o].createdByAttempt;
        assert Heir(t.ops.at[o], v) && t.ops.at[o].createdByAttempt;
      }
      if MarkedIn(s.ops.at, v) {
        var o :| o in s.ops.at && s.ops.at[o].reconcile && v !in s.ops.at[o].preexisting;
        assert t.ops.at[o].reconcile && v !in t.ops.at[o].preexisting;
      }
    }
  }

  /** Freeing the slot is noted: if it loses a user, the history says so. */
  lemma ReconciledCounts(s: State, ok: bool)
    requires InOrder(s, s.slot, {}) && Clear(Reconciled(s, ok).env)
    ensures var t := Reconciled(s, ok); InOrder(t, t.slot, {})
  {
    hide Counted, Created, SetOp, Min, Pow2;
    if ok && (Holder(s).None? || !Active(Holder(s).value.state)) {
      assert !Loses(s.(slot := None));
    } else if Holder(s).Some? {
      TouchCounts(s, s.slot.value, Holder(s).value.(endedAt := Some(s.env.clock)), s.slot, {});
    }
    SetOpFrame(s);
  }

  lemma SetOpFrame(s: State)
    ensures forall id, op :: SetOp(s, id, op) == s.(ops := SetOp(s, id, op).ops)
  {
  }

  lemma ReconcileAllCounts(s: State, at: nat)
    requires CoreAt(s, at) && s.env.login.Idle? && Accounted(s)
    ensures Accounted(ReconcileAll(s).0)
  {
    hide ReconcileFlagged, Reconciled, CoreAt, InOrder, Base, OpsKept, RemovalsMove, LoginMoves;
    CoreHasBase(s, at);
    ReconcileFlaggedKeeps(s, s.ops.order);
    var (t, ok) := ReconcileFlagged(s, s.ops.order);
    ReconciledEnv(t, ok);
    if Clear(Reconciled(t, ok).env) {
      ReconcileFlaggedCounts(s, s.ops.order);
      ReconciledCounts(t, ok);
    }
  }

  lemma ReconciledEnv(s: State, ok: bool)
    ensures var t := Reconciled(s, ok); t.env == s.env.(slipped := t.env.slipped) && (s.env.slipped ==> t.env.slipped)
  {
    hide Loses, Min, Pow2;
  }

  lemma AfterRestartCounts(s: State, at: nat)
    requires CoreAt(s, at) && s.env.login.Idle? && Accounted(s)
    ensures Accounted(AfterRestart(s))
  {
    hide ReconcileAll, RetryRemovals, InOrder, OpsOk, SlotOk, AllQuiet, OpsKept, OpsFlow, LeasesOk, LinksOk, PendingOk, CallsOk,
         JournalOk, RemovalsMove;
    var noted := s.(proc := s.proc.(reconcileFailures := 0, nextReconcileAt := 0));
    ReconcileAllKeeps(noted, at);
    var r := ReconcileAll(noted).0;
    CoreHasBase(r, at);
    RetryRemovalsKeeps(r, s.pending.order);
    if Clear(AfterRestart(s).env) {
      assert Clear(noted.env);
      assert Clear(r.env);
      ProcCounts(s, noted);
      ReconcileAllCounts(noted, at);
      RetryRemovalsCount(r, s.pending.order, r.slot, {});
    }
  }

  /** Process flags, timers and gate do not matter to the accounts. */
  lemma ProcCounts(s: State, t: State)
    requires t.ops == s.ops && t.links == s.links && t.pending == s.pending && t.slot == s.slot
    requires t.env == s.env.(slipped := t.env.slipped, dead := t.env.dead, tape := t.env.tape, lastTick := t.env.lastTick)
    ensures forall h, ex :: InOrder(s, h, ex) ==> InOrder(t, h, ex)
  {
    hide Counted, Created;
  }

  lemma RestartCounts(s: State, at: nat)
    requires CoreAt(s, at) && Accounted(s)
    ensures var t := (if s.proc.started then CallRecover(s) else CallStart(s)).0; Accounted(t)
  {
    hide Turn, CoreAt, Counted, Created;
    CoreAttends(s, at);
    var u := Turn(Popped(s), Next(s));
    CoreHasBase(s, at);
    TurnKeeps(Popped(s), Next(s));
    if Clear(u.env) {
      TurnCounts(Popped(s), Next(s), s.slot, {});
      OverCounts(u, s.slot);
    }
  }

  lemma OverCounts(s: State, h: Option<OpId>)
    requires InOrder(s, h, {})
    ensures forall running, fails :: InOrder(s.(env := s.env.(login := Idle, running := running, fails := fails)), h, {})
  {
    hide Counted;
  }

  lemma EnsureStartedCounts(s: State, at: nat)
    requires CoreAt(s, at) && Accounted(s)
    ensures Accounted(EnsureStarted(s).0)
  {
    hide AfterRestart, CallRecover, CallStart, CoreAt, InOrder, Flow;
    if !Alive(s) && s.gate.snapshot.None? {
      UnsealedCore(s, at);
      RestartKeeps(s, at);
      RestartCounts(s, at);
      var (t, ok) := if s.proc.started then CallRecover(s) else CallStart(s);
      var p := t.(proc := t.proc.(started := ok, nativeLost := if ok then false else t.proc.nativeLost));
      ProcCounts(t, p);
      if ok {
        AfterRestartCounts(p, at);
      }
    }
  }

  // ---- events -------------------------------------------------------------------------------------

  lemma ConnectCounts(s: State, id: OpId)
    requires InOrder(s, Some(id), {}) && id in s.ops.at && s.ops.at[id].state.Checking? && s.slot == Some(id) && !s.ops.at[id].committed
    ensures var t := Release(SetOp(s, id, s.ops.at[id].(state := Connected, errorCode := None)), id); InOrder(t, None, {})
  {
    hide HasLink;
    CheckedCovers(s, id);
    var t := SetOp(s, id, s.ops.at[id].(state := Connected, errorCode := None));
    forall v | v in t.env.made
      ensures Counted(t.ops.at, t.links, t.pending.at, None, v)
    {
      assert Counted(s.ops.at, s.links, s.pending.at, None, v);
      if OwnedIn(s.ops.at, v) {
        var o :| o in s.ops.at && Heir(s.ops.at[o], v) && s.ops.at[o].createdByAttempt;
        assert Heir(t.ops.at[o], v) && t.ops.at[o].createdByAttempt;
      }
      if MarkedIn(s.ops.at, v) {
        var o :| o in s.ops.at && s.ops.at[o].reconcile && v !in s.ops.at[o].preexisting;
        assert t.ops.at[o].reconcile && v !in t.ops.at[o].preexisting;
      }
    }
  }

  lemma CheckCounts(s: State, id: OpId, at: nat)
    requires CoreAt(s, at) && id in s.ops.at && s.ops.at[id].state.Checking? && Accounted(s)
    ensures Accounted(Check(s, id))
  {
    hide NativeCall, DropAttemptUser, Owns, OpsOk, SlotOk, OpsKept, OpsFlow, AllQuiet, LinksOk, PendingOk, CallsOk, LeasesOk,
         EnvMoves, Counted, Created, LoginMoves;
    ActiveHoldsSlot(s, id, at);
    NotCommitted(s, id, at);
    GetUserKeeps(s);
    NativeCallKeeps(s);
    var (t, info) := GetUser(s);
    HousekeepingKeeps(s, t, at);
    CoreAttends(s, at);
    if Clear(t.env) {
      NativeCallSlips(s);
      NativeCallCounts(s, s.slot, {});
    }
    if info.Some? && s.ops.at[id].userId.Some? {
      if !Owns(info.value, s.ops.at[id].userId.value, s.ops.at[id].email) {
        CleanUpCounts(t, id, Failed, Some(AddressMismatch), at);
      } else if info.value.connected && info.value.split {
        if Clear(t.env) {
          ConnectCounts(t, id);
        }
      } else if info.value.connected && !s.ops.at[id].splitRequested {
        SplitKeeps(t, id, at);
        var r := SetOp(t, id, t.ops.at[id].(splitRequested := true));
        CoreAttends(r, at);
        NativeCallKeeps(r);
        if Clear(NativeCall(r).0.env) {
          NativeCallSlips(r);
          TouchCounts(t, id, r.ops.at[id], t.slot, {});
          NativeCallCounts(r, r.slot, {});
        }
      }
    }
  }

  lemma NativeCallSlips(s: State)
    ensures Clear(NativeCall(s).0.env) ==> Clear(s.env)
  {
    hide Accountable;
  }

  lemma {:induction false} CheckAllCounts(s: State, ids: seq<OpId>, u: UserId, at: nat)
    requires CoreAt(s, at) && Accounted(s)
    ensures Accounted(CheckAll(s, ids, u))
    decreases ids
  {
    hide CoreAt, Check, Accounted;
    if ids != [] {
      if ids[0] in s.ops.at && s.ops.at[ids[0]].state.Checking? && s.ops.at[ids[0]].userId == Some(u) {
        CheckKeeps(s, ids[0], at);
        CheckCounts(s, ids[0], at);
        CheckAllCounts(Check(s, ids[0]), ids[1..], u, at);
      } else {
        CheckAllCounts(s, ids[1..], u, at);
      }
    }
  }

  lemma UserChangedCounts(s: State, u: UserId, at: nat)
    requires CoreAt(s, at) && Accounted(s)
    ensures Accounted(OnUserChanged(s, u))
  {
    hide ListUsers, CheckAll, OpsOk, SlotOk, OpsKept, AllQuiet, LinksOk, CallsOk, LeasesOk, LoginMoves, InOrder;
    HousekeepingReflexive(s);
    ListUsersKeeps(s);
    CoreAttends(s, at);
    var (l, users) := ListUsers(s);
    var t := if u !in s.pending.at then s else if users.Some? && u !in users.value then DropPending(l, u) else l;
    DropPendingKeeps(l, u);
    HousekeepingTransitive(s, l, DropPending(l, u));
    HousekeepingKeeps(s, t, at);
    if Clear(t.env) && u in s.pending.at {
      ListUsersCounts(s, s.slot, {});
      if users.Some? && u !in users.value {
        GoneCounts(l, u, s.slot, {});
      }
    }
    CheckAllCounts(t, t.ops.order, u, at);
  }

  /** The holder's challenge state changes. */
  lemma ChallengeCounts(s: State, id: OpId, op: Operation, at: nat)
    requires CoreAt(s, at) && id in s.ops.at && Active(s.ops.at[id].state) && !s.ops.at[id].state.Checking? && Accounted(s)
    requires op == s.ops.at[id].(state := op.state, errorCode := op.errorCode) && Active(op.state) && !op.state.Checking?
    ensures Accounted(SetOp(s, id, op))
  {
    hide InOrder, CoreAt;
    NotCommitted(s, id, at);
    if Clear(s.env) {
      ChangeCounts(s, id, op, s.slot, {});
      assert {} + Lost(s.ops.at[id]) == {};
    }
  }

  /** Nothing was created while the sign-in ran: the slot covers nothing. */
  lemma NothingCreated(s: State, id: OpId)
    requires InOrder(s, Some(id), {}) && id in s.ops.at && s.env.login.Running?
    ensures InOrder(s, None, {})
  {
    hide Covered, MarkedIn;
    forall u | u in s.env.made
      ensures Counted(s.ops.at, s.links, s.pending.at, None, u)
    {
      assert Counted(s.ops.at, s.links, s.pending.at, Some(id), u);
    }
  }

  lemma RefusedCounts(s: State, code: LoginErrorCode, at: nat)
    requires CoreAt(s, at) && s.env.login.Running? && Accounted(s)
    requires !code.TfaError? && !code.TwoPasswordsError?
    ensures Accounted(OnLoginError(s.(env := s.env.(login := Idle)), code))
  {
    hide InOrder, CoreAt;
    SendingMeansSignIn(s, at);
    var id := s.slot.value;
    if Clear(s.env) {
      NothingCreated(s, id);
      OverCounts(s, None);
      var q := s.(env := s.env.(login := Idle));
      assert q == s.(env := s.env.(login := Idle, running := s.env.running, fails := s.env.fails));
      if Active(s.ops.at[id].state) {
        NotCommitted(s, id, at);
        var e := End(q, id, Failed, Some(LoginErrorResult(code)));
        ChangeCounts(q, id, e.ops.at[id], None, {});
        assert {} + Lost(s.ops.at[id]) == {};
        SlotFree(e, {});
      } else {
        SlotFree(q, {});
      }
    }
  }

  /** The facts a terminal report rests on: Bridge reports the user it created, or an existing one. */
  ghost predicate Reports(login: Login, finished: bool, user: UserId) {
    login.Running? || (finished && login == Made(user))
  }

  lemma SignedInCounts(s: State, id: OpId, user: UserId, finished: bool, at: nat)
    requires CoreAt(s, at) && s.slot == Some(id) && id in s.ops.at && Active(s.ops.at[id].state)
    requires InOrder(s, Some(id), {}) && Reports(s.env.login, finished, user)
    ensures var q := s.(env := s.env.(login := Idle));
      var op := q.ops.at[id].(userId := Some(user), createdByAttempt := finished && user !in q.ops.at[id].preexisting, state := Checking);
      InOrder(SetOp(q, id, op), Some(id), {})
  {
    hide HasLink, OpsOk, LinksOk, PendingOk, CallsOk, AllQuiet, LeasesOk, ProcOk;
    NotCommitted(s, id, at);
    assert !s.ops.at[id].state.Checking?;
    var q := s.(env := s.env.(login := Idle));
    var op := q.ops.at[id].(userId := Some(user), createdByAttempt := finished && user !in q.ops.at[id].preexisting, state := Checking);
    var t := SetOp(q, id, op);
    forall v | v in t.env.made
      ensures Counted(t.ops.at, t.links, t.pending.at, Some(id), v)
    {
      assert Counted(s.ops.at, s.links, s.pending.at, Some(id), v);
      assert !MarkedIn(s.ops.at, v);
      if OwnedIn(s.ops.at, v) {
        var o :| o in s.ops.at && Heir(s.ops.at[o], v) && s.ops.at[o].createdByAttempt;
        assert o != id && Heir(t.ops.at[o], v) && t.ops.at[o].createdByAttempt;
      }
      if op.createdByAttempt && v == user {
        assert Heir(t.ops.at[id], v) && t.ops.at[id].createdByAttempt;
      }
    }
  }

  lemma LateFinishCounts(s: State, id: OpId, user: UserId, finished: bool, at: nat)
    requires CoreAt(s, at) && s.slot == Some(id) && id in s.ops.at && Ended(s.ops.at[id].state) && !s.gate.sealed
    requires Reports(s.env.login, finished, user) && Accounted(s)
    ensures var q := s.(env := s.env.(login := Idle));
      var a := SetOp(q, id, q.ops.at[id].(userId := Some(user), createdByAttempt := finished && user !in q.ops.at[id].preexisting));
      Accounted(Release(DropAttemptUser(a, id), id))
  {
    hide DropAttemptUser, OpsOk, SlotOk, OpsKept, AllQuiet, LinksOk, PendingOk, CallsOk, LeasesOk, InOrder, LoginOk, LoginMoves;
    var q := s.(env := s.env.(login := Idle));
    var op := q.ops.at[id].(userId := Some(user), createdByAttempt := finished && user !in q.ops.at[id].preexisting);
    var a := SetOp(q, id, op);
    OpsOkAt(s.ops, s.env.clock, id);
    WithOk(s.ops, id, op, s.env.clock);
    DropAttemptUserKeeps(a, id);
    var d := DropAttemptUser(a, id);
    if Clear(d.env) {
      LateFinishOrder(s, id, user, finished);
      DropCounts(a, id, None, {});
      SlotFree(d, {});
    }
  }

  lemma LateFinishOrder(s: State, id: OpId, user: UserId, finished: bool)
    requires id in s.ops.at && Ended(s.ops.at[id].state) && InOrder(s, Some(id), {}) && Reports(s.env.login, finished, user)
    ensures var q := s.(env := s.env.(login := Idle));
      var op := q.ops.at[id].(userId := Some(user), createdByAttempt := finished && user !in q.ops.at[id].preexisting);
      InOrder(SetOp(q, id, op), None, {} + Lost(op))
  {
    hide HasLink;
    var q := s.(env := s.env.(login := Idle));
    var op := q.ops.at[id].(userId := Some(user), createdByAttempt := finished && user !in q.ops.at[id].preexisting);
    var t := SetOp(q, id, op);
    forall v | v in t.env.made && v !in {} + Lost(op)
      ensures Counted(t.ops.at, t.links, t.pending.at, None, v)
    {
      assert Counted(s.ops.at, s.links, s.pending.at, Some(id), v);
      if OwnedIn(s.ops.at, v) {
        var o :| o in s.ops.at && Heir(s.ops.at[o], v) && s.ops.at[o].createdByAttempt;
        assert o != id && Heir(t.ops.at[o], v) && t.ops.at[o].createdByAttempt;
      }
      if MarkedIn(s.ops.at, v) {
        var o :| o in s.ops.at && s.ops.at[o].reconcile && v !in s.ops.at[o].preexisting;
        assert t.ops.at[o].reconcile && v !in t.ops.at[o].preexisting;
      }
    }
  }

  lemma FinishCounts(s: State, finished: bool, user: Option<UserId>, at: nat)
    requires CoreAt(s, at) && !s.env.login.Idle? && Accounted(s)
    requires user.Some? ==> Reports(s.env.login, finished, user.value)
    ensures Accounted(OnLoginFinished(s.(env := s.env.(login := Idle)), finished, user))
  {
    hide CoreAt, InOrder, Check, DropAttemptUser, Release, Flow;
    SendingMeansSignIn(s, at);
    var q := s.(env := s.env.(login := Idle));
    var id := s.slot.value;
    CoreHasBase(s, at);
    HolderExists(s.ops.at, s.slot);
    if user.None? {
      if Clear(s.env) {
        OverCounts(s, s.slot);
        assert q == s.(env := s.env.(login := Idle, running := s.env.running, fails := s.env.fails));
      }
    } else {
      var created := finished && user.value !in s.ops.at[id].preexisting;
      if Active(s.ops.at[id].state) {
        OverKeeps(s, at);
        SignedInKeeps(q, id, user.value, created, at);
        var a := SetOp(q, id, q.ops.at[id].(userId := user, createdByAttempt := created, state := Checking));
        if Clear(s.env) {
          SignedInCounts(s, id, user.value, finished, at);
        }
        CheckCounts(a, id, at);
      } else {
        LateFinishCounts(s, id, user.value, finished, at);
      }
    }
  }

  lemma PersistCounts(s: State)
    ensures Accounted(s) ==> Accounted(Persist(s))
  {
    hide Counted, Created, Save;
  }

  lemma DeliveredCounts(s: State, ev: Event)
    requires Inv(s) && Accounted(s)
    ensures Accounted(Delivered(s, ev))
  {
    hide CoreAt, InOrder, OnLoginError, OnLoginFinished, OnUserChanged, StopAttempt, DiskOk, Persist, Accounted;
    if CanSend(s.env, ev) {
      var at := s.env.clock;
      if !s.env.login.Idle? {
        SendingMeansSignIn(s, at);
      }
      var q := s.(env := s.env.(login := Idle));
      PersistCounts(s);
      match ev
      case NeedsTwoFactorEvent =>
        if Active(Holder(s).value.state) {
          ChallengeCounts(s, s.slot.value, Holder(s).value.(state := Needs2fa), at);
          PersistCounts(SetOp(s, s.slot.value, Holder(s).value.(state := Needs2fa)));
        }
      case NeedsSecondPasswordEvent =>
        if Active(Holder(s).value.state) {
          ChallengeCounts(s, s.slot.value, Holder(s).value.(state := NeedsSecondPassword), at);
          PersistCounts(SetOp(s, s.slot.value, Holder(s).value.(state := NeedsSecondPassword)));
        }
      case LoginErrorEvent(code) =>
        if Terminal(ev) {
          RefusedCounts(s, code, at);
          PersistCounts(OnLoginError(q, code));
        } else {
          RetryableCounts(s, code, at);
          PersistCounts(OnLoginError(s, code));
        }
      case HumanVerificationEvent =>
        if Active(Holder(s).value.state) {
          StopAttemptCounts(s, s.slot.value, Failed, Some(VerificationRequired), at);
          PersistCounts(StopAttempt(s, s.slot.value, Failed, Some(VerificationRequired)));
        }
      case FinishedEvent(user) =>
        FinishCounts(s, true, user, at);
        PersistCounts(OnLoginFinished(q, true, user));
      case AlreadyLoggedInEvent(user) =>
        FinishCounts(s, false, user, at);
        PersistCounts(OnLoginFinished(q, false, user));
      case UserChangedEvent(u) =>
        UserChangedCounts(s, u, at);
        PersistCounts(OnUserChanged(s, u));
      case StreamEndedEvent =>
        var t := s.(proc := s.proc.(nativeLost := true));
        AccountedProc(s, t);
        PersistCounts(t);
      case NoKeychainEvent =>
    }
  }

  lemma RetryableCounts(s: State, code: LoginErrorCode, at: nat)
    requires CoreAt(s, at) && s.env.login.Running? && Accounted(s) && (code.TfaError? || code.TwoPasswordsError?)
    ensures Accounted(OnLoginError(s, code))
  {
    hide CoreAt, Accounted;
    SendingMeansSignIn(s, at);
    var op := Holder(s).value;
    if Active(op.state) {
      var awaited := if code.TfaError? then Needs2fa else NeedsSecondPassword;
      ChallengeCounts(s, s.slot.value, op.(state := awaited, errorCode := Some(InvalidChallenge)), at);
    }
  }

  lemma AccountedProc(s: State, t: State)
    requires Accounted(s) && t.ops == s.ops && t.links == s.links && t.pending == s.pending && t.slot == s.slot
    requires t.env == s.env.(tape := t.env.tape, lastTick := t.env.lastTick)
    ensures Accounted(t)
  {
    hide InOrder;
    ProcCounts(s, t);
  }

  // ---- RPCs ---------------------------------------------------------------------------------------

  /** A new attempt's start snapshot has every user there is. */
  lemma EnterCounts(s: State, id: OpId, email: Email, preexisting: set<UserId>)
    requires Inv(s) && !Busy(s) && id !in s.ops.at && s.env.users <= preexisting && Accounted(s) && !s.env.dead
    ensures Accounted(Persist(s.(ops := s.ops.Put(id, NewOperation(id, email, s.env.clock, preexisting)), slot := Some(id))))
    ensures s.env.made <= s.env.users
  {
    hide HasLink, OpsOk, LinksOk, PendingOk, CallsOk, LeasesOk, AllQuiet, DiskOk, Save;
    var op := NewOperation(id, email, s.env.clock, preexisting);
    var t := s.(ops := s.ops.Put(id, op), slot := Some(id));
    if Clear(s.env) {
      assert s.env.login.Idle?;
      forall v | v in t.env.made
        ensures Counted(t.ops.at, t.links, t.pending.at, Some(id), v)
      {
        assert Counted(s.ops.at, s.links, s.pending.at, None, v);
        if OwnedIn(s.ops.at, v) {
          var o :| o in s.ops.at && Heir(s.ops.at[o], v) && s.ops.at[o].createdByAttempt;
          assert o != id && Heir(t.ops.at[o], v) && t.ops.at[o].createdByAttempt;
        }
        assert !MarkedIn(s.ops.at, v);
      }
      assert InOrder(t, Some(id), {});
      PersistCounts(t);
    }
  }

  lemma CallLoginCounts(s: State, id: OpId)
    requires Base(s) && s.slot == Some(id) && id in s.ops.at && s.env.login.Idle? && !s.ops.at[id].state.Checking? && Accounted(s)
    requires s.env.made <= s.ops.at[id].preexisting
    ensures Accounted(CallLogin(s, id).0)
  {
    hide Turn, Base, Counted, BusyElsewhere;
    var logged := LoginLogged(s, id);
    var u := Turn(Popped(logged), Next(logged));
    TurnMakes(Popped(logged), Next(logged));
    TurnSlips(Popped(logged), Next(logged));
    if Clear(u.env) {
      TurnCounts(Popped(logged), Next(logged), s.slot, {});
    }
  }

  lemma TurnSlips(s: State, a: Answer)
    ensures Clear(Turn(s, a).env) ==> Clear(s.env)
    ensures var t := Turn(s, a); t == s.(env := t.env)
  {
    hide Accountable;
  }

  lemma SignInCounts(s: State, id: OpId, email: Email, users: set<UserId>)
    requires Inv(s) && !Busy(s) && id !in s.ops.at && s.proc.started && s.env.users <= users && Accounted(s) && !s.env.dead
    ensures Accounted(SignIn(s, id, email, users))
  {
    hide CoreAt, DiskOk, CallLogin, Flow, Moves, BusyElsewhere, Accounted;
    EnterKeeps(s, id, email, users);
    EnterCounts(s, id, email, users);
    var t := Persist(s.(ops := s.ops.Put(id, NewOperation(id, email, s.env.clock, users)), slot := Some(id)));
    NotRestarting(s);
    CoreHasBase(t, t.env.clock);
    CallLoginKeeps(t, id, s.env.clock);
    CallLoginCounts(t, id);
    var (r, ok) := CallLogin(t, id);
    if !ok {
      EndHolderCounts(r, id, Failed, Some(Unavailable), s.env.clock);
      PersistCounts(End(r, id, Failed, Some(Unavailable)));
    }
  }

  lemma StartCounts(s: State, id: OpId, email: Email, password: string)
    requires Inv(s) && Accounted(s)
    ensures Accounted(StartConnection(s, id, email, password).0)
  {
    hide EnsureStarted, ListUsers, SignIn, CoreAt, DiskOk, Flow, Moves, OpsKept, LoginMoves, InOrder, Base;
    if id !in s.ops.at && !Busy(s) {
      EnsureStartedKeeps(s, s.env.clock);
      EnsureStartedCounts(s, s.env.clock);
      var (t, error) := EnsureStarted(s);
      KeepsInv(s, t);
      if error.None? && !Busy(t) {
        CoreHasBase(t, s.env.clock);
        CoreAttends(t, s.env.clock);
        ListUsersKeeps(t);
        var (l, users) := ListUsers(t);
        HousekeepingInv(t, l);
        if Clear(l.env) {
          ListUsersCounts(t, t.slot, {});
        }
        if users.Some? {
          FlowKeys(s, t);
          assert !Busy(l);
          StartedStays(s, t, error);
          RunningIsNotDead(l, l.env.clock);
          SignInCounts(l, id, email, users.value);
        }
      }
    }
  }

  lemma ContinueCounts(s: State, id: OpId, ch: Challenge, secret: string)
    requires Inv(s) && Accounted(s)
    ensures Accounted(ContinueConnection(s, id, ch, secret).0)
  {
    hide CoreAt, DiskOk, Flow, NativeCall, Persist, Base, InOrder, OpsKept, LoginMoves;
    if id in s.ops.at && Awaits(s.ops.at[id].state, ch) && s.slot == Some(id) && secret != "" {
      var a := SetOp(s, id, s.ops.at[id].(state := Authenticating, errorCode := None));
      StillActiveKeeps(s, id, a.ops.at[id], s.env.clock);
      ChallengeCounts(s, id, a.ops.at[id], s.env.clock);
      var b := Persist(a);
      PersistCounts(a);
      PersistOnlyDisk(a);
      PersistCore(a, s.env.clock);
      CoreHasBase(b, s.env.clock);
      CoreAttends(b, s.env.clock);
      NativeCallKeeps(b);
      NativeCallSlips(b);
      var (c, ok) := NativeCall(b);
      HousekeepingKeeps(b, c, s.env.clock);
      if Clear(c.env) {
        NativeCallCounts(b, b.slot, {});
      }
      PersistCounts(c);
      EndHolderCounts(c, id, Failed, Some(Unavailable), s.env.clock);
      PersistCounts(End(c, id, Failed, Some(Unavailable)));
    }
  }

  lemma CancelCounts(s: State, id: OpId)
    requires Inv(s) && Accounted(s)
    ensures Accounted(CancelConnection(s, id).0)
  {
    hide StopAttempt, CoreAt, DiskOk, Persist, DropAttemptUser, Accounted;
    PersistCounts(s);
    if id in s.ops.at {
      if s.ops.at[id].state.Connected? && !s.ops.at[id].committed {
        GiveUpCounts(s, id, Cancelled, s.env.clock);
        PersistCounts(DropAttemptUser(End(s, id, Cancelled, None), id));
      } else if Active(s.ops.at[id].state) {
        StopAttemptCounts(s, id, Cancelled, None, s.env.clock);
        PersistCounts(StopAttempt(s, id, Cancelled, None));
      }
    }
  }

  /** A commit covers the user by its link. */
  lemma CommitCounts(s: State, id: OpId, u: UserId, generation: Generation, previous: Option<Generation>)
    requires Inv(s) && Accounted(s)
    ensures Accounted(CommitConnection(s, id, u, generation, previous).0)
  {
    hide CoreAt, DiskOk, Persist, Accounted;
    if CommitConnection(s, id, u, generation, previous).1 == Accepted {
      var op := s.ops.at[id];
      var linked := s.(links := s.links[LinkKey(u, Lower(op.email)) := Link(u, op.email, generation)]);
      var t := if op.committed then linked else SetOp(linked, id, op.(committed := true, endedAt := Some(linked.env.clock)));
      LinkedCounts(s, t, id, u, LinkKey(u, Lower(op.email)), Link(u, op.email, generation));
      PersistCounts(t);
    }
  }

  lemma LinkedCounts(s: State, t: State, id: OpId, u: UserId, key: LinkKey, link: Link)
    requires Accounted(s) && id in s.ops.at && s.ops.at[id].userId == Some(u) && key.user == u
    requires t.links == s.links[key := link] && t.pending == s.pending && t.slot == s.slot && t.env == s.env
    requires t.ops.at.Keys == s.ops.at.Keys
    requires forall o :: o in s.ops.at && o != id ==> t.ops.at[o] == s.ops.at[o]
    requires t.ops.at[id] == s.ops.at[id].(committed := t.ops.at[id].committed, endedAt := t.ops.at[id].endedAt)
    ensures Accounted(t)
  {
    hide Counted;
    if Clear(s.env) {
      assert HasLink(t.links, u) by { assert key in t.links; }
      forall v | v in t.env.made
        ensures Counted(t.ops.at, t.links, t.pending.at, s.slot, v)
      {
        CommitCounted(s, t, id, u, v);
      }
    }
  }

  lemma CommitCounted(s: State, t: State, id: OpId, u: UserId, v: UserId)
    requires Counted(s.ops.at, s.links, s.pending.at, s.slot, v) && HasLink(t.links, u) && id in s.ops.at
    requires s.ops.at[id].userId == Some(u)
    requires forall k :: k in s.links ==> k in t.links
    requires t.pending == s.pending && t.ops.at.Keys == s.ops.at.Keys
    requires forall o :: o in s.ops.at && o != id ==> t.ops.at[o] == s.ops.at[o]
    requires t.ops.at[id] == s.ops.at[id].(committed := t.ops.at[id].committed, endedAt := t.ops.at[id].endedAt)
    ensures Counted(t.ops.at, t.links, t.pending.at, s.slot, v)
  {
    if HasLink(s.links, v) {
      var k :| k in s.links && k.user == v;
      assert k in t.links;
    }
    if v != u {
      if OwnedIn(s.ops.at, v) {
        var o :| o in s.ops.at && Heir(s.ops.at[o], v) && s.ops.at[o].createdByAttempt;
        assert o != id && Heir(t.ops.at[o], v) && t.ops.at[o].createdByAttempt;
      }
      if MarkedIn(s.ops.at, v) {
        var o :| o in s.ops.at && s.ops.at[o].reconcile && v !in s.ops.at[o].preexisting;
        assert t.ops.at[o].reconcile && v !in t.ops.at[o].preexisting;
      }
    }
  }

  lemma CredentialsCounts(s: State, u: UserId, id: Option<OpId>, generation: Option<Generation>, email: Email)
    requires Inv(s) && Accounted(s)
    ensures Accounted(Credentials(s, u, id, generation, email).0)
  {
    hide EnsureStarted, CoreAt, DiskOk, Flow, CredentialsOf, NativeCall, Owns, Housekeeping, InOrder, Base;
    EnsureStartedKeeps(s, s.env.clock);
    EnsureStartedCounts(s, s.env.clock);
    var t := EnsureStarted(s).0;
    CallCounts(t, s.env.clock);
    var g := NativeCall(t).0;
    CallCounts(g, s.env.clock);
  }

  lemma CallCounts(s: State, at: nat)
    requires CoreAt(s, at) && Accounted(s)
    ensures Accounted(NativeCall(s).0) && CoreAt(NativeCall(s).0, at)
  {
    hide CoreAt, NativeCall, InOrder, Base, OpsKept, LoginMoves;
    CoreHasBase(s, at);
    CoreAttends(s, at);
    NativeCallKeeps(s);
    HousekeepingKeeps(s, NativeCall(s).0, at);
    if Clear(NativeCall(s).0.env) {
      NativeCallSlips(s);
      NativeCallCounts(s, s.slot, {});
    }
  }

  /** Cutting a link leaves only its user to be looked after. */
  lemma CutCounts(s: State, key: LinkKey, h: Option<OpId>)
    requires InOrder(s, h, {})
    ensures InOrder(s.(links := s.links - {key}), h, {} + {key.user})
    ensures (exists k :: k in s.links && k.user == key.user && k != key) || key.user in s.pending.at
      ==> InOrder(s.(links := s.links - {key}), h, {})
  {
    hide OwnedIn, MarkedIn, Created;
    var t := s.(links := s.links - {key});
    forall v | v in t.env.made
      ensures v != key.user ==> Counted(t.ops.at, t.links, t.pending.at, h, v)
      ensures (exists k :: k in s.links && k.user == key.user && k != key) || key.user in s.pending.at
        ==> Counted(t.ops.at, t.links, t.pending.at, h, v)
    {
      assert Counted(s.ops.at, s.links, s.pending.at, h, v);
      if HasLink(s.links, v) && v != key.user {
        var k :| k in s.links && k.user == v;
        assert k in t.links;
      }
      if k :| k in s.links && k.user == key.user && k != key {
        assert k in t.links;
      }
    }
  }

  lemma RemoveCounts(s: State, u: UserId, generation: Generation, email: Email)
    requires Inv(s) && Accounted(s)
    ensures Accounted(RemoveUser(s, u, generation, email).0)
  {
    hide EnsureStarted, CoreAt, DiskOk, Flow, Base, Persist, BeginRemoval, HandOver, HasLink, HasHeir, HeldIn, InOrder, OpsKept, LoginMoves, Attended;
    var key := LinkKey(u, Lower(email));
    if SafeEmail(email) && Admitted(s, None) && key in s.links && s.links[key].generation == generation {
      var others := exists k | k in s.links :: k.user == u && k != key;
      FlowReflexive(s);
      EnsureStartedKeeps(s, s.env.clock);
      EnsureStartedCounts(s, s.env.clock);
      var (t, error) := if others then (s, None) else EnsureStarted(s);
      if error.None? {
        FlowLinks(s, t);
        var cut := t.(links := t.links - {key});
        CutKeeps(t, key, s.env.clock);
        CoreHasBase(cut, s.env.clock);
        CoreAttends(cut, s.env.clock);
        if Clear(t.env) {
          CutCounts(t, key, t.slot);
        }
        if others {
          PersistCounts(cut);
        } else if HasHeir(cut, u, None) {
          HandOverKeeps(cut, u, None);
          if Clear(cut.env) {
            HandOverCounts(cut, u, None, cut.slot, {});
          }
          PersistCounts(HandOver(cut, u, None));
        } else if u in cut.pending.at {
          PersistCounts(cut);
        } else {
          CutFree(cut, key, u);
          BeginRemovalKeeps(cut, u, Unlink);
          if Clear(BeginRemoval(cut, u, Unlink).env) {
            BeginRemovalCounts(cut, u, Unlink, cut.slot, {});
          }
          PersistCounts(BeginRemoval(cut, u, Unlink));
        }
      }
    }
  }

  lemma BootCounts(s: State)
    requires Inv(s) && Accounted(s)
    ensures Accounted(Boot(s).0)
  {
    hide EnsureStarted, CoreAt, DiskOk, Persist, NeedsBridge, Accounted;
    EnsureStartedCounts(s, s.env.clock);
    PersistCounts(EnsureStarted(s).0);
  }

  // ---- gate and timers ----------------------------------------------------------------------------

  lemma MarkCounts(s: State, id: OpId, h: Option<OpId>)
    requires InOrder(s, h, {}) && id in s.ops.at
    ensures InOrder(SetOp(s, id, s.ops.at[id].(reconcile := true)), h, {})
  {
    hide HasLink;
    var t := SetOp(s, id, s.ops.at[id].(reconcile := true));
    forall v | v in t.env.made
      ensures Counted(t.ops.at, t.links, t.pending.at, h, v)
    {
      assert Counted(s.ops.at, s.links, s.pending.at, h, v);
      if OwnedIn(s.ops.at, v) {
        var o :| o in s.ops.at && Heir(s.ops.at[o], v) && s.ops.at[o].createdByAttempt;
        assert Heir(t.ops.at[o], v) && t.ops.at[o].createdByAttempt;
      }
      if MarkedIn(s.ops.at, v) {
        var o :| o in s.ops.at && s.ops.at[o].reconcile && v !in s.ops.at[o].preexisting;
        assert t.ops.at[o].reconcile && v !in t.ops.at[o].preexisting;
      }
    }
  }

  lemma SettleCounts(s: State, at: nat)
    requires CoreAt(s, at) && Accounted(s)
    ensures Accounted(SettleHolder(s))
  {
    hide StopAttempt, CoreAt, InOrder;
    if Holder(s).Some? {
      var id := s.slot.value;
      if Active(Holder(s).value.state) {
        StopAttemptCounts(s, id, Expired, None, at);
      }
      var t := if Active(Holder(s).value.state) then StopAttempt(s, id, Expired, None) else s;
      if Clear(t.env) {
        MarkCounts(t, id, t.slot);
      }
    }
  }

  lemma ShutdownCallCounts(s: State)
    requires Accounted(s) && Attended(s, s.slot)
    ensures Accounted(CallShutdown(s).0)
  {
    hide Turn, Counted, Created;
    var u := Turn(Popped(s), Next(s));
    TurnSlips(Popped(s), Next(s));
    if Clear(u.env) {
      TurnCounts(Popped(s), Next(s), s.slot, {});
      OverCounts(u, u.slot);
      assert u.(env := u.env.(running := false, login := Idle)) == u.(env := u.env.(login := Idle, running := false, fails := u.env.fails));
    }
  }

  lemma DrainCounts(s: State, id: SnapshotId, deadline: nat)
    requires Inv(s) && Accounted(s)
    ensures Accounted(DrainRound(s, id, deadline).0)
  {
    hide SettleHolder, CallShutdown, CoreAt, DiskOk, LoginActive, Persist, Flow, AllQuiet, Attended, InOrder;
    if s.gate.snapshot == Some(id) {
      if s.gate.leases == {} && !LoginActive(s) {
        var t := SettleHolder(s);
        SettleCounts(s, s.env.clock);
        assert !(exists id :: id in s.ops.at && Finalizing(s, s.ops.at[id])) by { NotFinalizing(s); }
        SettleKeeps(s, s.env.clock);
        CoreAttends(t.(proc := t.proc.(nativeLost := true)), s.env.clock);
        var stopped := t.(proc := t.proc.(started := false));
        AttendedAnyProc(t, t.proc.(nativeLost := true), stopped.proc);
        SlipsSame(t, stopped);
        ShutdownCallCounts(stopped);
        var (r, ok) := if t.proc.started then CallShutdown(stopped) else (t, true);
        var sealed := r.(gate := r.gate.(sealed := true));
        var unlocked := Unlocked(r.(proc := r.proc.(started := true, nativeLost := true)));
        SlipsSame(r, sealed);
        SlipsSame(r, unlocked);
        PersistCounts(sealed);
      } else {
        SlipsSame(s, Unlocked(s));
      }
    }
  }

  lemma NotFinalizing(s: State)
    requires !LoginActive(s)
    ensures !(exists id :: id in s.ops.at && Finalizing(s, s.ops.at[id]))
  {
  }

  lemma AttendedAnyProc(s: State, p: Proc, q: Proc)
    requires Attended(s.(proc := p), s.slot)
    ensures Attended(s.(proc := q), s.slot)
  {
  }

  lemma SlipsSame(s: State, t: State)
    requires t == s.(gate := t.gate, proc := t.proc)
    ensures Accounted(s) ==> Accounted(t)
  {
    hide InOrder;
    ProcCounts(s, t);
  }

  lemma OpenGateCounts(s: State)
    requires Inv(s) && Accounted(s)
    ensures Accounted(OpenGate(s))
  {
    hide EnsureStarted, CoreAt, DiskOk, NeedsBridge, Persist, Accounted;
    UnlockKeeps(s, s.env.clock);
    var t := Unlocked(s);
    SlipsSame(s, t);
    PersistCounts(t);
    EnsureStartedCounts(t, s.env.clock);
    var (r, error) := EnsureStarted(t);
    var q := r.(proc := r.proc.(nextStartAt := r.env.clock + r.cfg.recoverySeconds));
    SlipsSame(r, q);
    PersistCounts(r);
    PersistCounts(q);
  }

  lemma {:induction false} ExpireCounts(s: State, ids: seq<OpId>, now: nat, at: nat)
    requires CoreAt(s, at) && Accounted(s)
    ensures Accounted(Expire(s, ids, now))
    decreases ids
  {
    hide CoreAt, StopAttempt, DropAttemptUser, Accounted;
    if ids != [] {
      ExpireOneKeeps(s, ids[0], now, at);
      if ids[0] in s.ops.at && s.ops.at[ids[0]].createdAt + s.cfg.ttl <= now {
        if Active(s.ops.at[ids[0]].state) {
          StopAttemptCounts(s, ids[0], Expired, None, at);
        } else if s.ops.at[ids[0]].state.Connected? && !s.ops.at[ids[0]].committed {
          GiveUpCounts(s, ids[0], Expired, at);
        }
      }
      ExpireCounts(ExpireOne(s, ids[0], now), ids[1..], now, at);
    }
  }

  lemma KnownRemovalCounts(s: State, u: UserId, item: Removal, h: Option<OpId>)
    requires InOrder(s, h, {}) && u in s.pending.at
    ensures InOrder(s.(pending := s.pending.Put(u, item)), h, {})
  {
    hide OwnedIn, MarkedIn, Created, HasLink;
    forall v | v in s.env.made
      ensures Counted(s.ops.at, s.links, s.pending.Put(u, item).at, h, v)
    {
      assert Counted(s.ops.at, s.links, s.pending.at, h, v);
    }
  }

  lemma RemovalTimerCounts(s: State, u: UserId, now: nat, canRecover: bool)
    requires Base(s) && InOrder(s, s.slot, {}) && Attended(s, s.slot) && Clear(RemovalTimer(s, u, now, canRecover).0.env)
    ensures var t := RemovalTimer(s, u, now, canRecover).0; InOrder(t, s.slot, {}) && Attended(t, s.slot)
  {
    hide RetryRemoval, InOrder, OpsOk, LinksOk, CallsOk;
    if u in s.pending.at {
      var item := s.pending.at[u];
      var stuck := s.(pending := s.pending.Put(u, item.(stuck := true)));
      KnownRemovalCounts(s, u, item.(stuck := true), s.slot);
      KnownRemovalCounts(s, u, item.(recoveries := item.recoveries + 1, since := now), s.slot);
      assert Base(stuck);
      if Clear(RetryRemoval(stuck, u).env) {
        RetryRemovalCounts(stuck, u, s.slot, {});
      }
      if Clear(RetryRemoval(s, u).env) {
        RetryRemovalCounts(s, u, s.slot, {});
      }
    }
  }

  lemma {:induction false} RemovalTimersCount(s: State, us: seq<UserId>, now: nat, canRecover: bool)
    requires Base(s) && InOrder(s, s.slot, {}) && Attended(s, s.slot) && Clear(RemovalTimers(s, us, now, canRecover).0.env)
    ensures var t := RemovalTimers(s, us, now, canRecover).0; InOrder(t, s.slot, {})
    decreases us
  {
    hide Base, InOrder, Attended, RemovalTimer, OpsKept, LoginMoves;
    if us != [] {
      RemovalTimerKeeps(s, us[0], now, canRecover);
      var t := RemovalTimer(s, us[0], now, canRecover).0;
      RemovalTimersKeep(t, us[1..], now, canRecover);
      RemovalTimerCounts(s, us[0], now, canRecover);
      RemovalTimersCount(t, us[1..], now, canRecover);
    }
  }

  lemma TickProcessCounts(s: State, now: nat)
    requires CoreAt(s, now) && Accounted(s)
    ensures Accounted(TickProcess(s, now).0)
  {
    hide EnsureStarted, CoreAt, NeedsBridge, Accounted;
    SlipsSame(s, s.(proc := s.proc.(started := false, nativeLost := false)));
    EnsureStartedCounts(s, now);
    var t := EnsureStarted(s).0;
    SlipsSame(t, t.(proc := t.proc.(nextStartAt := now + t.cfg.recoverySeconds)));
  }

  lemma TickRecoveryCounts(s: State, now: nat)
    requires CoreAt(s, now) && s.gate.snapshot.None? && now <= s.env.clock && Accounted(s)
    ensures Accounted(TickRecovery(s, now).0)
  {
    hide CoreAt, Base, Flow, RemovalTimers, HolderDue, TickProcess, ReconcileAll, Alive, ReconcilePending, OpsKept, OpsFlow, LoginMoves, InOrder;
    var canRecover := now >= s.proc.nextRecoveryAt;
    CoreHasBase(s, now);
    CoreAttends(s, now);
    RemovalTimersKeep(s, s.pending.order, now, canRecover);
    var (a, removals) := RemovalTimers(s, s.pending.order, now, canRecover);
    HousekeepingKeeps(s, a, now);
    if Clear(a.env) {
      RemovalTimersCount(s, s.pending.order, now, canRecover);
    }
    var due := HolderDue(a, now);
    if due {
      HolderDueHasHolder(a, now);
      MarkHolderKeeps(a, now);
      if Clear(a.env) {
        MarkCounts(a, a.slot.value, a.slot);
      }
    }
    var b := if due then MarkHolder(a) else a;
    TickProcessKeeps(b, now);
    TickProcessCounts(b, now);
    var (c, process) := TickProcess(b, now);
    if !(removals || due || process) && Alive(c) && ReconcilePending(c) && now >= c.proc.nextReconcileAt {
      if !c.env.login.Idle? {
        RetryIsSafe(c, now);
      }
      RetryIsIdle(c, now);
      ReconcileAllCounts(c, now);
    }
  }

  lemma RetryIsIdle(s: State, now: nat)
    requires CoreAt(s, now) && ReconcilePending(s) && (s.env.login.Idle? || Active(Holder(s).value.state))
    ensures s.env.login.Idle?
  {
  }

  /** An attempt is forgotten only after its clean-up. */
  lemma PruneCounts(s: State, now: nat, at: nat)
    requires CoreAt(s, at) && Accounted(s) && Settled(s.ops.at, s.ops.order, now, s.cfg.ttl)
    ensures Accounted(Prune(s, s.ops.order, now))
  {
    hide Prune, HasLink, LinksOk, PendingOk, CallsOk, LeasesOk, AllQuiet, SlotOk, LoginOk, ProcOk;
    PruneForgets(s, s.ops.order, now);
    var t := Prune(s, s.ops.order, now);
    if Clear(s.env) {
      forall v | v in t.env.made
        ensures Counted(t.ops.at, t.links, t.pending.at, s.slot, v)
      {
        assert Counted(s.ops.at, s.links, s.pending.at, s.slot, v);
        if OwnedIn(s.ops.at, v) {
          var o :| o in s.ops.at && Heir(s.ops.at[o], v) && s.ops.at[o].createdByAttempt;
          assert o in s.ops.order && OpOk(s.ops.at[o], s.env.clock);
          assert o in t.ops.at;
        }
        if MarkedIn(s.ops.at, v) {
          var o :| o in s.ops.at && s.ops.at[o].reconcile && v !in s.ops.at[o].preexisting;
          assert o in t.ops.at;
        }
      }
    }
  }

  lemma TickOpenCounts(s: State)
    requires Core(s) && s.gate.snapshot.None? && Accounted(s)
    ensures Accounted(TickOpen(s))
  {
    hide CoreAt, Expire, TickRecovery, Prune, Persist, OpsFlow, EnvMoves, Accounted, Settled;
    var now := s.env.clock;
    ExpireKeeps(s, s.ops.order, now, now);
    ExpireCounts(s, s.ops.order, now, now);
    WorkSettles(s);
    var a := Expire(s, s.ops.order, now);
    FlowIsMoves(s, a);
    TickWorkKeeps(s);
    if !a.proc.recovering {
      TickRecoveryCounts(a, now);
    }
    var (b, recover) := TickWork(s);
    SameOrder(s, b);
    PruneCounts(b, now, now);
    var c := Prune(b, b.ops.order, now);
    var d := c.(proc := c.proc.(recovering := true));
    SlipsSame(c, d);
    PersistCounts(c);
    PersistCounts(d);
  }

  lemma SameOrder(s: State, t: State)
    requires Moves(s, t)
    ensures t.ops.order == s.ops.order && t.cfg == s.cfg
  {
  }

  lemma TickCounts(s: State)
    requires Inv(s) && Accounted(s)
    ensures Accounted(Tick(s))
  {
    hide CoreAt, TickOpen, OpenGate, DiskOk, Accounted;
    var t := s.(env := s.env.(lastTick := s.env.clock));
    StampKeeps(s);
    AccountedProc(s, t);
    if !t.proc.closed {
      if t.gate.snapshot.None? {
        TickOpenCounts(t);
      } else if t.gate.expiresAt <= t.env.clock {
        OpenGateKeeps(t);
        OpenGateCounts(t);
        TickOpenCounts(OpenGate(t));
      }
    }
  }

  // ---- recovery and restarts of the worker --------------------------------------------------------

  lemma RecoverNativeCounts(s: State)
    requires Inv(s) && Accounted(s)
    ensures Accounted(RecoverNative(s))
  {
    hide Turn, CoreAt, DiskOk, Counted, Created, Stamped;
    if s.proc.recovering && s.proc.restarted.None? {
      var t := RecoverNative(s);
      StampedProc(s);
      var u := Turn(Popped(s), Next(s));
      CoreAttends(s, s.env.clock);
      TurnSlips(Popped(s), Next(s));
      TurnIgnoresProc(Popped(s), Stamped(s).proc, Next(s));
      if Clear(u.env) {
        TurnCounts(Popped(s), Next(s), s.slot, {});
        OverCounts(u, s.slot);
        var over := u.(env := u.env.(login := Idle, running := t.env.running, fails := t.env.fails));
        assert InOrder(over, s.slot, {});
        ProcCounts(over, t);
      }
    }
  }

  lemma RecoverFinishCounts(s: State)
    requires Inv(s) && Accounted(s)
    ensures Accounted(RecoverFinish(s))
  {
    hide AfterRestart, OpsOk, AllQuiet, LinksOk, PendingOk, CallsOk, LeasesOk, DiskOk, Persist, InOrder;
    if s.proc.restarted.Some? {
      var started := s.proc.restarted.value && !s.proc.closed;
      var t := s.(proc := s.proc.(recovering := false, restarted := None, started := started, nativeLost := false));
      SlipsSame(s, t);
      PersistCounts(t);
      if started {
        assert CoreAt(t, s.env.clock) && t.env.login.Idle?;
        AfterRestartCounts(t, s.env.clock);
        PersistCounts(AfterRestart(t));
      } else if Holder(t).Some? {
        var q := SetOp(t, t.slot.value, Holder(t).value.(endedAt := Some(t.env.clock)));
        if Clear(t.env) {
          TouchCounts(t, t.slot.value, q.ops.at[t.slot.value], t.slot, {});
        }
        PersistCounts(q);
      }
    }
  }

  /** A worker restart is noted: if it loses a user, the history says so. */
  lemma ReloadCounts(s: State)
    requires Inv(s)
    ensures Accounted(Reloaded(s))
  {
    hide Loaded, Counted, OpsOk, SlotOk, LoginOk, ProcOk, SealOk, LeasesOk, LinksOk, PendingOk, CallsOk, JournalOk, DiskOk;
    LoadedRest(s.cfg, s.disk, s.env.(running := false, login := Idle, dead := false));
    var t := Loaded(s.cfg, s.disk, s.env.(running := false, login := Idle, dead := false));
    if Clear(Noted(t).env) {
      assert !Loses(t);
    }
  }

  // ---- all steps ----------------------------------------------------------------------------------

  lemma WorldCounts(s: State, a: Answer)
    requires Inv(s) && Accounted(s)
    ensures Accounted(Turn(s, a))
  {
    hide Turn, CoreAt, DiskOk, InOrder;
    CoreAttends(s, s.env.clock);
    TurnSlips(s, a);
    if Clear(Turn(s, a).env) {
      TurnCounts(s, a, s.slot, {});
    }
  }

  lemma GateCounts(s: State, t: State)
    requires Accounted(s) && t == s.(gate := t.gate, proc := t.proc)
    ensures Accounted(t)
  {
    hide Accounted;
    SlipsSame(s, t);
  }

  lemma ShutdownCounts(s: State)
    requires Accounted(s)
    ensures Accounted(Shutdown(s))
  {
    hide Counted, Created;
    if Clear(s.env) {
      OverCounts(s, s.slot);
      var t := s.(env := s.env.(login := Idle, running := false, fails := s.env.fails));
      assert InOrder(t, s.slot, {});
    }
  }

  lemma StepCounts(s: State, m: Move)
    requires Inv(s) && Accounted(s)
    ensures Accounted(Do(s, m))
  {
    hide Inv, Accounted, Moves, Drifts, Turn, Boot, StartConnection, ContinueConnection, CancelConnection, CommitConnection, Credentials,
         RemoveUser, DrainRound, Tick, RecoverNative, RecoverFinish, Delivered, Shutdown, Reloaded;
    var t := s.(env := s.env.(tape := m.tape));
    TapeKeeps(s, m.tape);
    AccountedProc(s, t);
    match m.step
    case World(turn) => WorldCounts(t, turn);
    case DoBoot => BootCounts(t);
    case DoStart(id, email, password) => StartCounts(t, id, email, password);
    case DoContinue(id, challenge, secret) => ContinueCounts(t, id, challenge, secret);
    case DoCancel(id) => CancelCounts(t, id);
    case DoCommit(id, user, generation, previous) => CommitCounts(t, id, user, generation, previous);
    case DoCredentials(user, attempt, current, email) => CredentialsCounts(t, user, attempt, current, email);
    case DoRemove(user, generation, email) => RemoveCounts(t, user, generation, email);
    case DoAcquire(lease) => GateCounts(t, AcquireLease(t, lease).0);
    case DoRelease(lease) => GateCounts(t, ReleaseLease(t, lease).0);
    case DoBegin(snapshot) => GateCounts(t, SnapshotBegin(t, snapshot).0);
    case DoDrainRound(snapshot, deadline) => DrainCounts(t, snapshot, deadline);
    case DoEnd(snapshot) => OpenGateCounts(t);
    case DoRenew(snapshot) => GateCounts(t, SnapshotRenew(t, snapshot).0);
    case DoTick => TickCounts(t);
    case DoRecoverNative => RecoverNativeCounts(t);
    case DoRecoverFinish => RecoverFinishCounts(t);
    case Deliver(event) => DeliveredCounts(t, event);
    case DoShutdown => ShutdownCounts(t);
    case Reload => ReloadCounts(t);
  }

  lemma InitCounts(cfg: Config, clock: nat, users: set<UserId>)
    ensures Accounted(Init(cfg, clock, users))
  {
  }

  lemma {:induction false} RunCounts(cfg: Config, clock: nat, users: set<UserId>, moves: seq<Move>)
    ensures Accounted(Run(Init(cfg, clock, users), moves))
    decreases |moves|
  {
    hide Inv, Do, Init, Accounted;
    if moves == [] {
      InitCounts(cfg, clock, users);
    } else {
      RunKeeps(cfg, clock, users, moves[..|moves| - 1]);
      RunCounts(cfg, clock, users, moves[..|moves| - 1]);
      StepCounts(Run(Init(cfg, clock, users), moves[..|moves| - 1]), moves[|moves| - 1]);
    }
  }

  /** No orphan user: unless a user was lost at one of the four points where the history says so (when it was
      created, when an attempt was unmarked, when the slot was freed, when a new worker took over), every user a
      sign-in created is linked, is being removed, belongs to a live uncommitted attempt that must clean it up,
      or is outside the start snapshot of the slot holder or of an attempt marked for reconciliation. */
  lemma NoOrphans(cfg: Config, clock: nat, users: set<UserId>, moves: seq<Move>, u: UserId)
    requires var s := Run(Init(cfg, clock, users), moves); !s.env.dead && !s.env.slipped && u in s.env.made
    ensures var s := Run(Init(cfg, clock, users), moves);
      || (exists k :: k in s.links && k.user == u)
      || u in s.pending.at
      || (exists id :: id in s.ops.at && Heir(s.ops.at[id], u) && s.ops.at[id].createdByAttempt)
      || (exists id :: id in s.ops.at && (s.ops.at[id].reconcile || s.slot == Some(id)) && u !in s.ops.at[id].preexisting)
  {
    hide Run, Init;
    RunCounts(cfg, clock, users, moves);
    var s := Run(Init(cfg, clock, users), moves);
    assert Counted(s.ops.at, s.links, s.pending.at, s.slot, u);
  }
}
