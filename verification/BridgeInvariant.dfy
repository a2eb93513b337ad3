/** The invariant of the controller and its world, and the helpers and critical sections that keep it. */
module BridgeInvariant {
  import opened Wrappers
  import opened Dicts
  import opened BridgeTypes
  import opened BridgeSpec
  import opened BridgeShape

  /** What every helper keeps, also in the middle of a critical section. */
  ghost predicate Base(s: State) {
    && OpsOk(s.ops, s.env.clock) && LinksOk(s.links) && PendingOk(s.pending.at, s.links) && CallsOk(s.env.calls)
    && (!s.env.login.Idle? ==> s.env.running) && (s.env.dead ==> !s.env.running) && s.pending.Wf()
    && s.env.made <= s.env.users
  }

  /** The invariant without the journal; marked holders are due at time at. */
  ghost predicate CoreAt(s: State, at: nat) {
    && Base(s)
    && SlotOk(s.ops.at, s.slot)
    && LoginOk(s.env.login, s.proc, s.ops.at, s.slot, s.cfg.recoverySeconds, at)
    && ProcOk(s.proc, s.cfg.recoverySeconds, s.env.clock)
    && LeasesOk(s.gate)
    && SealOk(s.gate, s.proc, s.ops.at, s.env.clock, s.cfg.ttl)
    && JournalOk(s.disk)
  }

  ghost predicate Core(s: State) {
    CoreAt(s, s.env.clock)
  }

  /** The journal may be behind the memory of a worker that has died. */
  ghost predicate Inv(s: State) {
    Core(s) && (!s.env.dead ==> DiskOk(s.disk, s.links, s.ops))
  }

  ghost predicate EnvMoves(e: Env, f: Env) {
    && e.clock <= f.clock && e.fails <= f.fails && e.lastTick == f.lastTick && (e.slipped ==> f.slipped) && (e.dead ==> f.dead)
    && e.calls <= f.calls && Logins(f.calls) == Logins(e.calls)
  }

  /** How removals go on; the memory of a dead worker does not matter. */
  ghost predicate RemovalsMove(s: State, t: State) {
    && CallsSpare(s.links, s.env.calls, t.env.calls)
    && (t.env.dead || RemovalsKept(s.pending.at, t.pending.at, s.env.calls, t.env.calls))
  }

  /** What bookkeeping of removals and clean-ups, and Bridge itself, may change. */
  ghost predicate Housekeeping(s: State, t: State) {
    && t == s.(ops := t.ops, pending := t.pending, env := t.env)
    && OpsKept(s.ops, t.ops) && EnvMoves(s.env, t.env)
    && (t.env.running ==> s.env.running) && LoginMoves(s.env.login, t.env.login) && RemovalsMove(s, t)
  }

  /** What a critical section may do besides the special effects of its RPC. */
  ghost predicate Flow(s: State, t: State) {
    && t == s.(ops := t.ops, pending := t.pending, env := t.env, slot := t.slot,
               proc := s.proc.(started := t.proc.started, nativeLost := t.proc.nativeLost,
                               reconcileFailures := t.proc.reconcileFailures, nextReconcileAt := t.proc.nextReconcileAt))
    && OpsFlow(s.ops, t.ops, s.env.clock, t.env.clock, s.env.fails < t.env.fails) && EnvMoves(s.env, t.env)
    && (t.slot == s.slot || t.slot.None?)
    && (s.gate.snapshot.Some? && t.env.running ==> s.env.running) && RemovalsMove(s, t)
  }

  lemma RemovalsMoveTransitive(s: State, t: State, r: State)
    requires RemovalsMove(s, t) && RemovalsMove(t, r) && EnvMoves(s.env, t.env) && EnvMoves(t.env, r.env) && t.links == s.links
    ensures RemovalsMove(s, r)
  {
    hide CallsSpare, RemovalsKept, Logins;
    CallsSpareTransitive(s.links, s.env.calls, t.env.calls, r.env.calls);
    if !r.env.dead {
      RemovalsKeptTransitive(s.pending.at, t.pending.at, r.pending.at, s.env.calls, t.env.calls, r.env.calls);
    }
  }

  lemma SameRemovals(s: State, t: State)
    requires t.pending == s.pending && t.env.calls == s.env.calls
    ensures RemovalsMove(s, t)
  {
  }

  lemma HousekeepingTransitive(s: State, t: State, r: State)
    requires Housekeeping(s, t) && Housekeeping(t, r)
    ensures Housekeeping(s, r)
  {
    hide OpsKept, RemovalsMove, Logins;
    OpsKeptTransitive(s.ops, t.ops, r.ops);
    RemovalsMoveTransitive(s, t, r);
  }

  lemma FlowTransitive(s: State, t: State, r: State)
    requires Flow(s, t) && Flow(t, r)
    ensures Flow(s, r)
  {
    hide OpsFlow, RemovalsMove, Logins;
    OpsFlowTransitive(s.ops, t.ops, r.ops, s.env.clock, t.env.clock, r.env.clock, s.env.fails < t.env.fails, t.env.fails < r.env.fails);
    RemovalsMoveTransitive(s, t, r);
  }

  lemma HousekeepingFlows(s: State, t: State)
    requires Housekeeping(s, t)
    ensures Flow(s, t)
  {
    hide OpsFlow, OpsKept, RemovalsMove;
    OpsKeptFlow(s.ops, t.ops, s.env.clock, t.env.clock, s.env.fails < t.env.fails);
  }

  lemma HousekeepingKeeps(s: State, t: State, at: nat)
    requires CoreAt(s, at) && Housekeeping(s, t) && Base(t)
    ensures CoreAt(t, at)
  {
    hide OpsKept, OpsOk, SlotOk, LoginOk, AllQuiet, LoginMoves, LeasesOk, RemovalsMove, JournalOk, LinksOk, PendingOk, CallsOk;
    OpsKeptSlot(s.ops, t.ops, s.slot);
    OpsKeptLogin(s.ops, t.ops, s.env.login, t.env.login, s.proc, s.slot, s.cfg.recoverySeconds, at);
    if s.gate.sealed {
      OpsKeptQuiet(s.ops, t.ops, s.env.clock, t.env.clock, s.cfg.ttl);
    }
  }

  lemma WrittenOk(o: Operation, clock: nat)
    requires OpOk(o, clock)
    ensures JournaledOk(Written(o)) && Written(o).id == o.id
  {
  }

  lemma SavedOk(s: State)
    requires OpsOk(s.ops, s.env.clock) && LinksOk(s.links) && PendingOk(s.pending.at, s.links)
    ensures JournalOk(Save(s)) && DiskOk(Save(s), s.links, s.ops)
  {
    hide OpOk, JournaledOk, Written, HasLink, LinksOk;
    var j := Save(s);
    forall id | id in j.ops.at
      ensures j.ops.at[id].id == id && JournaledOk(j.ops.at[id])
    {
      assert j.ops.at[id] == Written(s.ops.at[id]) && OpOk(s.ops.at[id], s.env.clock);
      WrittenOk(s.ops.at[id], s.env.clock);
    }
    forall id | id in s.ops.at
      ensures j.ops.at[id].email == s.ops.at[id].email && j.ops.at[id].preexisting == s.ops.at[id].preexisting &&
              j.ops.at[id].committed == s.ops.at[id].committed
    {
      WrittenKeeps(s.ops.at[id]);
    }
  }

  lemma WrittenKeeps(o: Operation)
    ensures Written(o).email == o.email && Written(o).preexisting == o.preexisting && Written(o).committed == o.committed
  {
  }

  lemma PersistKeeps(s: State)
    requires Core(s)
    ensures Inv(Persist(s))
  {
    hide SlotOk, LoginOk, ProcOk, SealOk, LeasesOk, LinksOk, OpsOk, PendingOk, CallsOk, JournalOk, DiskOk, Save;
    if !s.env.dead {
      SavedOk(s);
    }
  }

  // ---- native calls -------------------------------------------------------------------------------

  lemma TurnKeeps(s: State, a: Answer)
    requires Base(s)
    ensures var t := Turn(s, a); Base(t) && Housekeeping(s, t) && t == s.(env := t.env) && t.env.tape == s.env.tape && t.env.calls == s.env.calls
  {
    hide OpsOk, Accountable, Logins, LinksOk, PendingOk, CallsOk;
    OpsOkLater(s.ops, s.env.clock, s.env.clock + a.dt);
  }

  lemma NativeCallKeeps(s: State)
    requires Base(s)
    ensures var t := NativeCall(s).0; Base(t) && Housekeeping(s, t) && t == s.(env := t.env) && t.env.calls == s.env.calls
  {
    hide Turn, OpsOk, OpsKept, LoginMoves, LinksOk, PendingOk, CallsOk, Logins;
    TurnKeeps(Popped(s), Next(s));
  }

  lemma ListUsersKeeps(s: State)
    requires Base(s)
    ensures var (t, users) := ListUsers(s);
      Base(t) && Housekeeping(s, t) && t == s.(env := t.env) && t.env.calls == s.env.calls &&
      (if users.None? then s.env.fails < t.env.fails else users.value == t.env.users && t.env.running)
  {
    hide NativeCall, OpsOk, OpsKept, LoginMoves, Logins, LinksOk, PendingOk, CallsOk;
    NativeCallKeeps(s);
    assert ListUsers(s).1.Some? ==> NativeCall(s).0.env.running by { AnswerMeansRunning(s); }
  }

  lemma AnswerMeansRunning(s: State)
    ensures NativeCall(s).1 ==> NativeCall(s).0.env.running
  {
  }

  lemma GetUserKeeps(s: State)
    requires Base(s)
    ensures var t := GetUser(s).0; Base(t) && Housekeeping(s, t) && t == s.(env := t.env)
  {
    hide NativeCall, OpsOk, OpsKept, LoginMoves, Logins, LinksOk, PendingOk, CallsOk;
    NativeCallKeeps(s);
  }

  /** The call is on record, unless the worker died before it. */
  ghost predicate OnRecord(s: State, t: State, u: UserId, newly: bool) {
    if Reaches(s) then t.env.calls == s.env.calls + [CalledRemove(u, Linked(s, u), Held(s, u), newly)]
    else t.env.calls == s.env.calls && t.env.dead
  }

  lemma RemoveLoggedKeeps(s: State, u: UserId, newly: bool)
    requires Base(s) && !HasLink(s.links, u) && !(newly && HeldIn(s.ops.at, u))
    ensures var t := RemoveLogged(s, u, newly);
      && Base(t) && t == s.(env := s.env.(calls := t.env.calls, asked := t.env.asked))
      && s.env.calls <= t.env.calls && Logins(t.env.calls) == Logins(s.env.calls) && CallsSpare(s.links, s.env.calls, t.env.calls)
  {
    hide OpsOk, HeldIn, HasLink, PendingOk, LinksOk;
    if Reaches(s) {
      var calls := RemoveLogged(s, u, newly).env.calls;
      assert calls[..|calls| - 1] == s.env.calls;
    }
  }

  lemma UnreachedDies(s: State)
    requires !Reaches(s)
    ensures NativeCall(s).0.env.dead
  {
  }

  lemma CallRemoveKeeps(s: State, u: UserId, newly: bool)
    requires Base(s) && !HasLink(s.links, u) && !(newly && HeldIn(s.ops.at, u))
    ensures var t := CallRemove(s, u, newly);
      && Base(t) && t == s.(env := t.env) && EnvMoves(s.env, t.env) && CallsSpare(s.links, s.env.calls, t.env.calls)
      && (t.env.running ==> s.env.running) && LoginMoves(s.env.login, t.env.login) && OnRecord(s, t, u, newly)
  {
    hide NativeCall, OpsOk, OpsKept, HeldIn, HasLink, PendingOk, LinksOk, CallsOk, Logins, RemovalsKept;
    RemoveLoggedKeeps(s, u, newly);
    var l := RemoveLogged(s, u, newly);
    NativeCallKeeps(l);
    if !Reaches(s) {
      UnreachedDies(s);
    }
  }

  // ---- removals -----------------------------------------------------------------------------------

  lemma BeginRemovalKeeps(s: State, u: UserId, reason: Reason)
    requires Base(s)
    requires !HasLink(s.links, u) && (u !in s.pending.at ==> !HeldIn(s.ops.at, u))
    ensures var t := BeginRemoval(s, u, reason);
      Base(t) && Housekeeping(s, t) && t.ops == s.ops && t.pending.at.Keys == s.pending.at.Keys + {u}
  {
    hide CallRemove, OpsOk, LoginMoves, HeldIn, HasLink, LinksOk, CallsOk, Logins, Reaches, CallsSpare;
    PutWf(s.pending, u, Removal(reason, s.env.clock, 0, false));
    var item := if u in s.pending.at
                then s.pending.at[u].(since := s.env.clock, reason := if reason.Unlink? then Unlink else s.pending.at[u].reason)
                else Removal(reason, s.env.clock, 0, false);
    var p := s.(pending := s.pending.Put(u, item));
    assert p.pending.Wf() by { PutWf(s.pending, u, item); }
    CallRemoveKeeps(p, u, u !in s.pending.at);
    var t := BeginRemoval(s, u, reason);
    if !t.env.dead {
      assert t.env.calls[|s.env.calls|] == CalledRemove(u, Linked(p, u), Held(p, u), u !in s.pending.at);
      assert RemovalsKept(s.pending.at, t.pending.at, s.env.calls, t.env.calls);
    }
  }

  lemma {:induction false} BeginRemovalsKeeps(s: State, us: seq<UserId>)
    requires Base(s)
    requires forall u :: u in us ==> !HasLink(s.links, u) && !HeldIn(s.ops.at, u)
    ensures var t := BeginRemovals(s, us);
      Base(t) && Housekeeping(s, t) && t.ops == s.ops && t.pending.at.Keys == s.pending.at.Keys + set u | u in us
    decreases us
  {
    hide BeginRemoval, OpsOk, OpsKept, LoginMoves, HeldIn, HasLink, Base, EnvMoves, RemovalsMove;
    HousekeepingReflexive(s);
    if us != [] {
      BeginRemovalKeeps(s, us[0], Attempt);
      var t := BeginRemoval(s, us[0], Attempt);
      BeginRemovalsKeeps(t, us[1..]);
      HousekeepingTransitive(s, t, BeginRemovals(s, us));
      assert us == [us[0]] + us[1..];
    }
  }

  lemma HousekeepingReflexive(s: State)
    ensures Housekeeping(s, s)
  {
  }

  lemma RetryRemovalKeeps(s: State, u: UserId)
    requires Base(s)
    ensures var t := RetryRemoval(s, u); Base(t) && Housekeeping(s, t) && t.ops == s.ops
  {
    hide BeginRemoval, ListUsers, OpsOk, OpsKept, LoginMoves, LinksOk, CallsOk, Logins;
    HousekeepingReflexive(s);
    if u in s.pending.at {
      ListUsersKeeps(s);
      var (t, users) := ListUsers(s);
      if users.Some? && u in users.value {
        BeginRemovalKeeps(t, u, t.pending.at[u].reason);
        HousekeepingTransitive(s, t, RetryRemoval(s, u));
      } else if users.Some? {
        DropPendingKeeps(t, u);
        HousekeepingTransitive(s, t, DropPending(t, u));
      }
    }
  }

  lemma DropPendingKeeps(s: State, u: UserId)
    requires Base(s)
    ensures var t := DropPending(s, u); Base(t) && Housekeeping(s, t) && t == s.(pending := t.pending)
  {
    hide OpsOk, LinksOk, CallsOk, Logins, HasLink;
    DropWf(s.pending, u);
  }

  lemma {:induction false} RetryRemovalsKeeps(s: State, us: seq<UserId>)
    requires Base(s)
    ensures var t := RetryRemovals(s, us); Base(t) && Housekeeping(s, t) && t.ops == s.ops
    decreases us
  {
    hide RetryRemoval, Base, Housekeeping;
    HousekeepingReflexive(s);
    if us != [] {
      RetryRemovalKeeps(s, us[0]);
      RetryRemovalsKeeps(RetryRemoval(s, us[0]), us[1..]);
      HousekeepingTransitive(s, RetryRemoval(s, us[0]), RetryRemovals(s, us));
    }
  }

  lemma HandOverKeeps(s: State, u: UserId, ended: Option<OpId>)
    requires Base(s)
    ensures var t := HandOver(s, u, ended); Base(t) && Housekeeping(s, t) && t == s.(ops := t.ops)
  {
    hide OpsOk, PendingOk, LinksOk, CallsOk, Logins;
    OpsKeptOk(s.ops, HandOver(s, u, ended).ops, s.env.clock);
  }

  /** The clean-up of an ended attempt: the user goes, or is kept by a link or by heirs. */
  lemma DropAttemptUserKeeps(s: State, id: OpId)
    requires Base(s) && id in s.ops.at && Ended(s.ops.at[id].state)
    ensures var t := DropAttemptUser(s, id); Base(t) && Housekeeping(s, t)
  {
    hide BeginRemoval, HandOver, Base, Housekeeping;
    HousekeepingReflexive(s);
    var op := s.ops.at[id];
    if op.createdByAttempt && op.userId.Some? && !Linked(s, op.userId.value) {
      if HasHeir(s, op.userId.value, Some(id)) {
        HandOverKeeps(s, op.userId.value, Some(id));
      } else {
        assert forall o :: o in s.ops.at && Holds(s.ops.at[o], op.userId.value) ==> Heir(s.ops.at[o], op.userId.value);
        BeginRemovalKeeps(s, op.userId.value, Attempt);
      }
    }
  }

  // ---- reconciliation -----------------------------------------------------------------------------

  lemma UnknownIsFree(s: State, id: OpId, u: UserId)
    requires id in s.ops.at && Ended(s.ops.at[id].state) && !Known(s, id, u)
    ensures !HasLink(s.links, u) && !HeldIn(s.ops.at, u)
  {
  }

  lemma UnflagKeeps(s: State, id: OpId)
    requires Base(s) && id in s.ops.at
    ensures var t := Noted(SetOp(s, id, s.ops.at[id].(reconcile := false))); Base(t) && Housekeeping(s, t)
  {
    hide OpsOk, PendingOk, LinksOk, CallsOk, Logins, Loses;
    OpsKeptOk(s.ops, With(s.ops, id, s.ops.at[id].(reconcile := false)), s.env.clock);
  }

  lemma ReconcileOrphansKeeps(s: State, id: OpId)
    requires Base(s) && id in s.ops.at && s.ops.at[id].reconcile
    ensures var (t, ok) := ReconcileOrphans(s, id); Base(t) && Housekeeping(s, t) && (ok || s.env.fails < t.env.fails)
  {
    hide BeginRemovals, ListUsers, Known, SetOp, PendingOk, LinksOk, CallsOk, OpsKept, Noted, EnvMoves, RemovalsMove;
    ListUsersKeeps(s);
    var (t, users) := ListUsers(s);
    if users.Some? {
      var orphans := set u | u in users.value && !Known(t, id, u);
      forall u | u in Sorted(orphans)
        ensures !HasLink(t.links, u) && !HeldIn(t.ops.at, u)
      {
        UnknownIsFree(t, id, u);
      }
      BeginRemovalsKeeps(t, Sorted(orphans));
      var r := BeginRemovals(t, Sorted(orphans));
      HousekeepingTransitive(s, t, r);
      UnflagKeeps(r, id);
      HousekeepingTransitive(s, r, Noted(SetOp(r, id, r.ops.at[id].(reconcile := false))));
      HousekeepingFails(s, r);
    }
  }

  lemma HousekeepingFails(s: State, t: State)
    requires Housekeeping(s, t)
    ensures s.env.fails <= t.env.fails
  {
  }

  lemma {:induction false} ReconcileFlaggedKeeps(s: State, ids: seq<OpId>)
    requires Base(s)
    ensures var (t, ok) := ReconcileFlagged(s, ids); Base(t) && Housekeeping(s, t) && (ok || s.env.fails < t.env.fails)
    decreases ids
  {
    hide ReconcileOrphans, Base, OpsKept, LoginMoves, RemovalsMove, Logins;
    HousekeepingReflexive(s);
    if ids != [] {
      if ids[0] in s.ops.at && s.ops.at[ids[0]].reconcile {
        ReconcileOrphansKeeps(s, ids[0]);
        var t := ReconcileOrphans(s, ids[0]).0;
        ReconcileFlaggedKeeps(t, ids[1..]);
        HousekeepingTransitive(s, t, ReconcileFlagged(s, ids).0);
      } else {
        ReconcileFlaggedKeeps(s, ids[1..]);
      }
    }
  }

  /** Freeing the slot of an ended holder is safe: its sign-in runs no more. */
  lemma FreedKeeps(s: State, at: nat)
    requires CoreAt(s, at) && s.env.login.Idle? && (Holder(s).None? || !Active(Holder(s).value.state))
    ensures CoreAt(Noted(s.(slot := None)), at)
  {
    hide OpsOk, SlotOk, LinksOk, PendingOk, CallsOk, AllQuiet, LeasesOk, Loses, JournalOk, Logins;
    assert SlotOk(s.ops.at, s.slot);
    HolderExists(s.ops.at, s.slot);
    SlotFreed(s.ops.at, s.slot);
  }

  /** The holder's end is put off. */
  lemma PutOffKeeps(s: State, ok: bool, at: nat)
    requires CoreAt(s, at) && Holder(s).Some? && (ok ==> Active(Holder(s).value.state))
    requires s.env.login.Idle? || Active(Holder(s).value.state)
    ensures var t := SetOp(s, s.slot.value, Holder(s).value.(endedAt := Some(s.env.clock)));
      CoreAt(t, at) && OpsFlow(s.ops, t.ops, s.env.clock, s.env.clock, !ok)
  {
    hide OpsOk, SlotOk, LinksOk, PendingOk, CallsOk, AllQuiet, LeasesOk, JournalOk, Logins, OpsFlow;
    assert SlotOk(s.ops.at, s.slot);
    HolderPutOff(s.ops, s.slot, s.env.clock, ok, s.gate.sealed, s.cfg.ttl);
  }

  lemma CountersKeep(s: State, at: nat)
    requires CoreAt(s, at)
    ensures forall n, m :: CoreAt(s.(proc := s.proc.(reconcileFailures := n, nextReconcileAt := m)), at)
  {
    hide OpsOk, SlotOk, LinksOk, PendingOk, CallsOk, AllQuiet, LeasesOk, JournalOk, Logins;
  }

  lemma CountersSet(s: State, at: nat, n: nat, m: nat)
    requires CoreAt(s, at)
    ensures CoreAt(s.(proc := s.proc.(reconcileFailures := n, nextReconcileAt := m)), at)
    ensures CoreAt(s.(proc := s.proc.(reconcileFailures := n)), at)
  {
    hide CoreAt;
    CountersKeep(s, at);
    assert s.(proc := s.proc.(reconcileFailures := n)) ==
           s.(proc := s.proc.(reconcileFailures := n, nextReconcileAt := s.proc.nextReconcileAt));
  }

  lemma ReconciledKeeps(s: State, ok: bool, at: nat)
    requires CoreAt(s, at)
    requires s.env.login.Idle? || Active(Holder(s).value.state)
    ensures var t := Reconciled(s, ok);
      && CoreAt(t, at) && EnvMoves(s.env, t.env) && t.env == s.env.(slipped := t.env.slipped) && (t.slot == s.slot || t.slot.None?)
      && OpsFlow(s.ops, t.ops, s.env.clock, s.env.clock, !ok)
      && t == s.(ops := t.ops, slot := t.slot, env := t.env,
                 proc := s.proc.(reconcileFailures := t.proc.reconcileFailures, nextReconcileAt := t.proc.nextReconcileAt))
  {
    hide CoreAt, OpsFlow, Min, Pow2, Loses, Logins;
    OpsFlowReflexive(s.ops, s.env.clock);
    OpsFlowLater(s.ops, s.env.clock, s.env.clock, !ok);
    var h := Holder(s);
    var n := s.proc.reconcileFailures + 1;
    var m := s.env.clock + Min(Pow2(n), RECONCILE_BACKOFF_CAP);
    if ok && (h.None? || !Active(h.value.state)) {
      if !s.env.login.Idle? {
        SignedInHasHolder(s, at);
      }
      FreedKeeps(s, at);
      CountersSet(Noted(s.(slot := None)), at, 0, 0);
    } else if h.Some? {
      PutOffKeeps(s, ok, at);
      var p := SetOp(s, s.slot.value, h.value.(endedAt := Some(s.env.clock)));
      CountersSet(p, at, 0, 0);
      CountersSet(p, at, n, m);
    } else {
      CountersSet(s, at, n, m);
    }
  }

  lemma SignedInHasHolder(s: State, at: nat)
    requires CoreAt(s, at) && !s.env.login.Idle?
    ensures Holder(s).Some?
  {
  }

  lemma HolderExists(ops: map<OpId, Operation>, slot: Option<OpId>)
    requires SlotOk(ops, slot)
    ensures slot.Some? ==> slot.value in ops && !ops[slot.value].state.Connected?
    ensures slot.None? ==> forall id :: id in ops ==> !Active(ops[id].state)
  {
  }

  /** The time of the holder's end is put off, or set on an active holder. */
  lemma HolderPutOff(ops: Dict<OpId, Operation>, slot: Option<OpId>, clock: nat, ok: bool, sealed: bool, ttl: nat)
    requires SlotOk(ops.at, slot) && slot.Some? && slot.value in ops.at && OpsOk(ops, clock)
    requires ok ==> Active(ops.at[slot.value].state)
    requires sealed ==> AllQuiet(ops.at, clock, ttl)
    ensures var t := With(ops, slot.value, ops.at[slot.value].(endedAt := Some(clock)));
      OpsOk(t, clock) && SlotOk(t.at, slot) && OpsFlow(ops, t, clock, clock, !ok) && (sealed ==> AllQuiet(t.at, clock, ttl)) &&
      (Active(ops.at[slot.value].state) ==> !ops.at[slot.value].reconcile)
  {
  }

  lemma ReconcileAllKeeps(s: State, at: nat)
    requires CoreAt(s, at)
    requires s.env.login.Idle? || Active(Holder(s).value.state)
    ensures var t := ReconcileAll(s).0;
      CoreAt(t, at) && Flow(s, t) && (s.env.login.Idle? ==> t.env.login.Idle?) &&
      t.proc.started == s.proc.started && t.proc.nativeLost == s.proc.nativeLost
  {
    hide ReconcileFlagged, Reconciled, OpsFlow, CoreAt, RemovalsMove, Logins;
    assert Base(s) by { CoreHasBase(s, at); }
    ReconcileFlaggedKeeps(s, s.ops.order);
    var (t, ok) := ReconcileFlagged(s, s.ops.order);
    HousekeepingKeeps(s, t, at);
    HousekeepingFlows(s, t);
    SameHolder(s, t);
    ReconciledKeeps(t, ok, at);
    var r := Reconciled(t, ok);
    OpsFlowTransitive(s.ops, t.ops, r.ops, s.env.clock, t.env.clock, r.env.clock, s.env.fails < t.env.fails, !ok);
    SameRemovals(t, r);
    RemovalsMoveTransitive(s, t, r);
  }

  lemma CoreHasBase(s: State, at: nat)
    requires CoreAt(s, at)
    ensures Base(s) && SlotOk(s.ops.at, s.slot)
  {
  }

  lemma RunningIsNotDead(s: State, at: nat)
    requires CoreAt(s, at)
    ensures s.env.running ==> !s.env.dead
  {
  }

  lemma SameHolder(s: State, t: State)
    requires Housekeeping(s, t)
    ensures Holder(s).Some? == Holder(t).Some?
    ensures Holder(s).Some? ==> OpKept(Holder(s).value, Holder(t).value)
  {
  }

  lemma AfterRestartKeeps(s: State, at: nat)
    requires CoreAt(s, at) && s.env.login.Idle?
    ensures var t := AfterRestart(s);
      CoreAt(t, at) && Flow(s, t) && t.env.login.Idle? &&
      t.proc.started == s.proc.started && t.proc.nativeLost == s.proc.nativeLost
  {
    hide ReconcileAll, RetryRemovals, OpsOk, SlotOk, OpsKept, OpsFlow, AllQuiet, JournalOk, LinksOk, PendingOk, CallsOk, RemovalsMove, Logins;
    var reset := s.(proc := s.proc.(reconcileFailures := 0, nextReconcileAt := 0));
    OpsFlowReflexive(s.ops, s.env.clock);
    SameRemovals(s, reset);
    assert CoreAt(reset, at) && Flow(s, reset);
    ReconcileAllKeeps(reset, at);
    var r := ReconcileAll(reset).0;
    RetryRemovalsKeeps(r, s.pending.order);
    var t := AfterRestart(s);
    HousekeepingKeeps(r, t, at);
    HousekeepingFlows(r, t);
    FlowTransitive(reset, r, t);
    FlowTransitive(s, reset, t);
  }

  lemma OpsFlowReflexive(ops: Dict<OpId, Operation>, c: nat)
    ensures OpsFlow(ops, ops, c, c, false)
  {
  }

  lemma FlowReflexive(s: State)
    ensures Flow(s, s)
  {
  }

  // ---- restarts -----------------------------------------------------------------------------------

  /** What a restart leaves: the process state is the outcome, and no sign-in runs. */
  lemma RestartEnv(s: State)
    requires Base(s)
    ensures var (t, ok) := if s.proc.started || !s.env.running then CallRecover(s) else (s.(env := s.env.(login := Idle)), true);
      && t == s.(env := t.env) && Base(t) && EnvMoves(s.env, t.env) && t.env.login.Idle? && (ok || s.env.fails < t.env.fails)
      && RemovalsMove(s, t)
  {
    hide Turn, OpsOk, LinksOk, PendingOk, CallsOk, OpsKept, Logins;
    TurnKeeps(Popped(s), Next(s));
  }

  lemma IdleCore(s: State, t: State, at: nat)
    requires CoreAt(s, at) && s.gate.snapshot.None?
    requires t == s.(env := t.env, proc := s.proc.(started := t.proc.started, nativeLost := t.proc.nativeLost))
    requires Base(t) && EnvMoves(s.env, t.env) && t.env.login.Idle? && RemovalsMove(s, t)
    ensures CoreAt(t, at) && Flow(s, t)
  {
    hide Base, SlotOk, OpsFlow, AllQuiet, LeasesOk, Logins, JournalOk, RemovalsMove;
    OpsFlowReflexive(s.ops, s.env.clock);
    OpsFlowLater(s.ops, s.env.clock, t.env.clock, s.env.fails < t.env.fails);
  }

  lemma OpsFlowLater(ops: Dict<OpId, Operation>, c: nat, d: nat, late: bool)
    requires c <= d
    ensures OpsFlow(ops, ops, c, d, late)
  {
  }

  /** A restart, failed or not, ends the sign-in that was running. */
  lemma RestartKeeps(s: State, at: nat)
    requires CoreAt(s, at) && s.gate.snapshot.None?
    ensures var (t, ok) := if s.proc.started then CallRecover(s) else CallStart(s);
      var p := t.(proc := t.proc.(started := ok, nativeLost := if ok then false else t.proc.nativeLost));
      CoreAt(p, at) && Flow(s, p) && p.env.login.Idle? && t == s.(env := t.env) && (ok || s.env.fails < t.env.fails)
  {
    hide Turn, Base, SlotOk, OpsFlow, AllQuiet, LeasesOk, EnvMoves, ProcOk, SealOk, Flow, JournalOk;
    RestartEnv(s);
    assert !s.proc.started ==> s.env.login.Idle?;
    var (t, ok) := if s.proc.started then CallRecover(s) else CallStart(s);
    var p := t.(proc := t.proc.(started := ok, nativeLost := if ok then false else t.proc.nativeLost));
    BaseAnyProc(t, p.proc);
    IdleCore(s, p, at);
  }

  lemma BaseAnyProc(s: State, proc: Proc)
    ensures Base(s) ==> Base(s.(proc := proc))
    ensures forall t :: RemovalsMove(s, t) ==> RemovalsMove(s, t.(proc := proc))
  {
    hide OpsOk, LinksOk, PendingOk, CallsOk;
  }

  lemma EnsureStartedKeeps(s: State, at: nat)
    requires CoreAt(s, at)
    ensures var (t, error) := EnsureStarted(s);
      CoreAt(t, at) && Flow(s, t) && (error.None? ==> t.proc.started) &&
      (!Alive(s) && s.gate.snapshot.None? ==> t.env.login.Idle?)
  {
    hide AfterRestart, CallRecover, CallStart, OpsOk, SlotOk, OpsKept, OpsFlow, AllQuiet, LinksOk, PendingOk, CallsOk, JournalOk;
    OpsFlowReflexive(s.ops, s.env.clock);
    if !Alive(s) && s.gate.snapshot.None? {
      RestartKeeps(s, at);
      var (t, ok) := if s.proc.started then CallRecover(s) else CallStart(s);
      if ok {
        var p := t.(proc := t.proc.(started := true, nativeLost := false));
        AfterRestartKeeps(p, at);
        FlowTransitive(s, p, AfterRestart(p));
      }
    }
  }

  // ---- ends of attempts ---------------------------------------------------------------------------

  lemma EndKeeps(s: State, id: OpId, state: OpState, code: Option<ErrorCode>)
    requires Base(s) && id in s.ops.at && !s.ops.at[id].committed && !Ended(s.ops.at[id].state) && Ended(state)
    ensures var t := End(s, id, state, code); Base(t) && Flow(s, t)
  {
    hide LinksOk, PendingOk, CallsOk, OpsOk, OpsFlow, Logins;
    assert OpsOk(s.ops, s.env.clock);
    var op := s.ops.at[id].(state := state, errorCode := code, endedAt := Some(s.env.clock));
    assert OpOk(s.ops.at[id], s.env.clock) && s.ops.at[id].id == id by { OpsOkAt(s.ops, s.env.clock, id); }
    WithOk(s.ops, id, op, s.env.clock);
    WithFlow(s.ops, id, op, s.env.clock, s.env.clock, false);
  }

  lemma OpsOkAt(ops: Dict<OpId, Operation>, clock: nat, id: OpId)
    requires OpsOk(ops, clock) && id in ops.at
    ensures ops.at[id].id == id && OpOk(ops.at[id], clock)
  {
  }

  /** An attempt Bridge has finished ends: its user is cleaned up and the slot is free. */
  lemma CleanUpKeeps(s: State, id: OpId, state: OpState, code: Option<ErrorCode>, at: nat)
    requires CoreAt(s, at) && id in s.ops.at && s.ops.at[id].state.Checking? && Ended(state)
    ensures var t := Release(DropAttemptUser(End(s, id, state, code), id), id);
      CoreAt(t, at) && Flow(s, t) && t.slot.None? && t.ops.at[id].state == state && t.proc == s.proc
  {
    hide DropAttemptUser, OpsOk, OpsFlow, LinksOk, PendingOk, CallsOk, AllQuiet, LeasesOk, OpsKept, JournalOk, RemovalsMove, Logins;
    ActiveHoldsSlot(s, id, at);
    OpsOkAt(s.ops, s.env.clock, id);
    EndKeeps(s, id, state, code);
    var e := End(s, id, state, code);
    DropAttemptUserKeeps(e, id);
    var d := DropAttemptUser(e, id);
    KeptAt(e.ops, d.ops, id);
    EndedSlotFreed(s.ops.at, s.slot, id, e.ops.at[id]);
    OpsKeptSlot(e.ops, d.ops, None);
    HousekeepingFlows(e, d);
    FlowTransitive(s, e, d);
    ReleaseFlows(s, d, id);
  }

  lemma ReleaseFlows(s: State, d: State, id: OpId)
    requires Flow(s, d)
    ensures Flow(s, Release(d, id))
  {
    hide OpsFlow, Logins, CallsSpare, RemovalsKept;
  }

  lemma KeptAt(o: Dict<OpId, Operation>, p: Dict<OpId, Operation>, id: OpId)
    requires OpsKept(o, p) && id in o.at
    ensures id in p.at && OpKept(o.at[id], p.at[id])
  {
  }

  /** An attempt ends whose sign-in may still run in Bridge: the slot is kept. */
  lemma EndHolderKeeps(s: State, id: OpId, state: OpState, code: Option<ErrorCode>, at: nat)
    requires CoreAt(s, at) && id in s.ops.at && Active(s.ops.at[id].state) && !s.ops.at[id].state.Checking? && Ended(state)
    ensures var t := End(s, id, state, code); CoreAt(t, at) && Flow(s, t) && t.slot == Some(id)
  {
    hide OpsOk, OpsFlow, LinksOk, PendingOk, CallsOk, AllQuiet, LeasesOk, JournalOk;
    ActiveHoldsSlot(s, id, at);
    OpsOkAt(s.ops, s.env.clock, id);
    EndKeeps(s, id, state, code);
    EndedSlotKept(s.ops.at, s.slot, End(s, id, state, code).ops.at[id]);
  }

  lemma StopAttemptKeeps(s: State, id: OpId, state: OpState, code: Option<ErrorCode>, at: nat)
    requires CoreAt(s, at) && id in s.ops.at && Active(s.ops.at[id].state) && Ended(state)
    ensures var t := StopAttempt(s, id, state, code); CoreAt(t, at) && Flow(s, t) && t.ops.at[id].state == state && t.proc == s.proc
  {
    hide DropAttemptUser, NativeCall, CoreAt, OpsFlow, OpsKept, Release, Base;
    if s.ops.at[id].state.Checking? {
      CleanUpKeeps(s, id, state, code, at);
    } else {
      EndHolderKeeps(s, id, state, code, at);
      var e := End(s, id, state, code);
      CoreHasBase(e, at);
      NativeCallKeeps(e);
      var d := NativeCall(e).0;
      HousekeepingKeeps(e, d, at);
      HousekeepingFlows(e, d);
      FlowTransitive(s, e, d);
      KeptAt(e.ops, d.ops, id);
    }
  }

  lemma ActiveHoldsSlot(s: State, id: OpId, at: nat)
    requires CoreAt(s, at) && id in s.ops.at && Active(s.ops.at[id].state)
    ensures s.slot == Some(id) && !s.gate.sealed && Holder(s) == Some(s.ops.at[id])
  {
  }
}
