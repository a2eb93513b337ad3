/** Where a created user is lost, exactly: when it is created, when an attempt is unmarked, when the slot is
    freed after a restart of Bridge, and when a new worker takes over. */
module BridgeOrphans {
  import opened Wrappers
  import opened Dicts
  import opened BridgeTypes
  import opened BridgeSpec
  import opened BridgeMachine
  import opened BridgeShape
  import opened BridgeInvariant
  import opened BridgeSections
  import opened BridgeFrames
  import opened BridgePromises
  import opened BridgeAccounts

  /** A sign-in created u, Bridge has it, and nothing in the controller accounts for it. */
  ghost predicate Orphan(s: State, u: UserId) {
    u in s.env.made && !Accountable(s, u)
  }

  ghost predicate CoveredIn(s: State, u: UserId) {
    Covered(s.ops.at, s.links, s.pending.at, u)
  }

  /** Another attempt than id is checked or connected as u, committed or not. */
  ghost predicate SignedInElse(ops: map<OpId, Operation>, id: OpId, u: UserId) {
    exists o :: o in ops && o != id && ops[o].userId == Some(u) && (ops[o].state.Checking? || ops[o].state.Connected?)
  }

  // ---- creation -----------------------------------------------------------------------------------

  /** A sign-in loses the user it creates exactly if the user was in its start snapshot, went, and nothing else
      covers it. */
  lemma BirthLoses(s: State, a: Answer, u: UserId)
    requires Inv(s) && InOrder(s, s.slot, {}) && Clear(s.env) && !Turn(s, a).env.dead
    ensures Orphan(Turn(s, a), u) <==>
      Born(s, a) && u == a.born.value && Holder(s).Some? && u in Holder(s).value.preexisting && !CoveredIn(s, u)
    ensures Turn(s, a).env.slipped <==> Born(s, a) && Orphan(Turn(s, a), a.born.value)
  {
    hide Base, LoginOk, ProcOk, LeasesOk, SealOk, DiskOk, JournalOk, Covered;
    if Born(s, a) {
      SendingMeansSignIn(s, s.env.clock);
      if a.born.value in Holder(s).value.preexisting {
        OnlyHolderMarked(s, a.born.value);
      }
    }
  }

  /** While an attempt holds the slot no other is marked. */
  lemma OnlyHolderMarked(s: State, u: UserId)
    requires Inv(s) && Holder(s).Some? && u in Holder(s).value.preexisting
    ensures !MarkedIn(s.ops.at, u)
  {
    hide Base, LoginOk, ProcOk, LeasesOk, SealOk, DiskOk, JournalOk;
  }

  // ---- reconciliation -----------------------------------------------------------------------------

  /** With no sign-in running Bridge creates no user. */
  ghost predicate Shrinks(s: State, t: State) {
    t.env.login.Idle? && t.env.made <= s.env.made
  }

  lemma CallShrinks(s: State)
    requires s.env.login.Idle?
    ensures Shrinks(s, NativeCall(s).0)
  {
    hide Accountable;
  }

  lemma ListShrinks(s: State)
    requires s.env.login.Idle?
    ensures Shrinks(s, ListUsers(s).0)
  {
    hide NativeCall;
    CallShrinks(s);
  }

  lemma RemovalShrinks(s: State, u: UserId, reason: Reason)
    requires s.env.login.Idle?
    ensures Shrinks(s, BeginRemoval(s, u, reason))
  {
    hide BeginRemoval;
    BeginRemovalMakes(s, u, reason);
  }

  lemma {:induction false} RemovalsShrink(s: State, us: seq<UserId>)
    requires s.env.login.Idle?
    ensures Shrinks(s, BeginRemovals(s, us))
    decreases us
  {
    hide BeginRemoval;
    if us != [] {
      RemovalShrinks(s, us[0], Attempt);
      RemovalsShrink(BeginRemoval(s, us[0], Attempt), us[1..]);
    }
  }

  /** The state in which attempt id is unmarked, and what reconciling it leaves, given that Bridge listed its
      users. */
  ghost predicate Unmarked(s: State, id: OpId, t: State)
    requires id in s.ops.at
  {
    && t.ops == s.ops.(at := s.ops.at[id := s.ops.at[id].(reconcile := false)]) && t.links == s.links && t.slot == s.slot && Shrinks(s, t)
    && forall u :: u in t.env.made ==>
         (u in t.pending.at <==>
            (u in s.pending.at || (u !in s.ops.at[id].preexisting && !Linked(s, u) && !SignedInElse(s.ops.at, id, u))))
  }

  lemma ReconcileUnmarks(s: State, id: OpId)
    requires Base(s) && s.env.login.Idle? && id in s.ops.at && s.ops.at[id].reconcile && ReconcileOrphans(s, id).1
    ensures Unmarked(s, id, ReconcileOrphans(s, id).0)
  {
    hide BeginRemovals, ListUsers, OpsOk, OpsKept, LinksOk, PendingOk, CallsOk, HasLink, Loses, RemovalsMove, Known, SignedInElse,
         EnvMoves, LoginMoves;
    ListUsersKeeps(s);
    ListShrinks(s);
    var (l, users) := ListUsers(s);
    var orphans := set u | u in users.value && !Known(l, id, u);
    forall u | u in Sorted(orphans)
      ensures !HasLink(l.links, u) && !HeldIn(l.ops.at, u)
    {
      StillEnded(s, id);
      UnknownIsFree(l, id, u);
    }
    BeginRemovalsKeeps(l, Sorted(orphans));
    RemovalsShrink(l, Sorted(orphans));
    var r := BeginRemovals(l, Sorted(orphans));
    assert r.links == l.links && r.slot == l.slot;
    forall u | u in r.env.made
      ensures u in r.pending.at <==>
        (u in s.pending.at || (u !in s.ops.at[id].preexisting && !Linked(s, u) && !SignedInElse(s.ops.at, id, u)))
    {
      assert u in l.env.users && (u in orphans <==> !Known(l, id, u));
      KnownIs(l, id, u);
      assert u in r.pending.at.Keys <==> u in l.pending.at.Keys || u in Sorted(orphans);
    }
  }

  lemma KnownIs(s: State, id: OpId, u: UserId)
    requires id in s.ops.at
    ensures Known(s, id, u) <==> (u in s.pending.at || u in s.ops.at[id].preexisting || Linked(s, u) || SignedInElse(s.ops.at, id, u))
  {
    hide HasLink;
  }

  /** Unmarking an attempt that does not hold the slot loses a user exactly if the user came after its start
      snapshot, is covered by nothing, is outside no other marked attempt's snapshot, and was left alone because
      another attempt is signed in as it: that attempt, then, is committed and its link was removed, or it does not
      own the user. */
  lemma UnmarkLoses(s: State, id: OpId, u: UserId)
    requires Base(s) && s.env.login.Idle? && InOrder(s, s.slot, {}) && s.slot.None? && id in s.ops.at && s.ops.at[id].reconcile
    requires var (t, ok) := ReconcileOrphans(s, id); ok && u in t.env.made
    ensures Orphan(ReconcileOrphans(s, id).0, u) <==>
      && u !in s.ops.at[id].preexisting && SignedInElse(s.ops.at, id, u) && !CoveredIn(s, u)
      && (forall o :: o in s.ops.at && o != id && s.ops.at[o].reconcile ==> u in s.ops.at[o].preexisting)
  {
    hide ReconcileOrphans, HasLink, Base, Created, SignedInElse;
    ReconcileUnmarks(s, id);
    var t := ReconcileOrphans(s, id).0;
    UnmarkedOwners(s, id, t, u);
    assert Counted(s.ops.at, s.links, s.pending.at, s.slot, u);
  }

  lemma UnmarkedOwners(s: State, id: OpId, t: State, u: UserId)
    requires id in s.ops.at && t.ops == s.ops.(at := s.ops.at[id := s.ops.at[id].(reconcile := false)])
    ensures OwnedIn(t.ops.at, u) == OwnedIn(s.ops.at, u)
    ensures MarkedIn(t.ops.at, u) <==> exists o :: o in s.ops.at && o != id && s.ops.at[o].reconcile && u !in s.ops.at[o].preexisting
    ensures forall o :: SignedInElse(t.ops.at, o, u) == SignedInElse(s.ops.at, o, u)
  {
    if OwnedIn(s.ops.at, u) {
      var o :| o in s.ops.at && Heir(s.ops.at[o], u) && s.ops.at[o].createdByAttempt;
      assert Heir(t.ops.at[o], u) && t.ops.at[o].createdByAttempt;
    }
    if OwnedIn(t.ops.at, u) {
      var o :| o in t.ops.at && Heir(t.ops.at[o], u) && t.ops.at[o].createdByAttempt;
      assert Heir(s.ops.at[o], u) && s.ops.at[o].createdByAttempt;
    }
    forall o | SignedInElse(s.ops.at, o, u)
      ensures SignedInElse(t.ops.at, o, u)
    {
      var x :| x in s.ops.at && x != o && s.ops.at[x].userId == Some(u) && (s.ops.at[x].state.Checking? || s.ops.at[x].state.Connected?);
      assert x in t.ops.at && t.ops.at[x].userId == Some(u) && (t.ops.at[x].state.Checking? || t.ops.at[x].state.Connected?);
    }
    if o :| o in s.ops.at && o != id && s.ops.at[o].reconcile && u !in s.ops.at[o].preexisting {
      assert t.ops.at[o].reconcile && u !in t.ops.at[o].preexisting;
    }
  }

  // ---- restarts of Bridge -------------------------------------------------------------------------

  /** Reconciling attempt id leaves u alone. */
  ghost predicate Spares(ops: map<OpId, Operation>, id: OpId, u: UserId)
    requires id in ops
  {
    u in ops[id].preexisting || SignedInElse(ops, id, u)
  }

  /** Reconciling one of ids does not leave u alone. */
  ghost predicate Targets(ops: map<OpId, Operation>, ids: seq<OpId>, u: UserId) {
    exists id :: id in ids && id in ops && ops[id].reconcile && !Spares(ops, id, u)
  }

  /** What the pass over the marked attempts ids leaves of attempts, links and slot. */
  ghost predicate PassUnmarks(s: State, ids: seq<OpId>, t: State) {
    && t.links == s.links && t.slot == s.slot && t.ops.at.Keys == s.ops.at.Keys
    && (forall id :: id in s.ops.at ==> t.ops.at[id] == s.ops.at[id].(reconcile := s.ops.at[id].reconcile && id !in ids))
  }

  /** And of user u, when Bridge listed its users every time. */
  ghost predicate PassTakes(s: State, ids: seq<OpId>, t: State, u: UserId) {
    && Shrinks(s, t)
    && (u in t.env.made ==> (u in t.pending.at <==> (u in s.pending.at || (!Linked(s, u) && Targets(s.ops.at, ids, u)))))
  }

  lemma {:induction false} PassLoses(s: State, ids: seq<OpId>, u: UserId)
    requires Base(s) && s.env.login.Idle? && ReconcileFlagged(s, ids).1
    ensures PassUnmarks(s, ids, ReconcileFlagged(s, ids).0) && PassTakes(s, ids, ReconcileFlagged(s, ids).0, u)
    decreases ids
  {
    hide ReconcileOrphans, Base, OpsKept, LoginMoves, RemovalsMove, Logins, HasLink;
    if ids != [] {
      if ids[0] in s.ops.at && s.ops.at[ids[0]].reconcile {
        ReconcileOrphansKeeps(s, ids[0]);
        ReconcileUnmarks(s, ids[0]);
        var t := ReconcileOrphans(s, ids[0]).0;
        PassLoses(t, ids[1..], u);
        UnmarkedOwners(s, ids[0], t, u);
        PassStep(s, ids, t, ReconcileFlagged(s, ids).0, u);
      } else {
        PassLoses(s, ids[1..], u);
        PassSkips(s, ids, ReconcileFlagged(s, ids).0, u);
      }
    }
  }

  lemma PassStep(s: State, ids: seq<OpId>, t: State, r: State, u: UserId)
    requires ids != [] && ids[0] in s.ops.at && s.ops.at[ids[0]].reconcile
    requires Unmarked(s, ids[0], t) && PassUnmarks(t, ids[1..], r) && PassTakes(t, ids[1..], r, u)
    requires forall o :: SignedInElse(t.ops.at, o, u) == SignedInElse(s.ops.at, o, u)
    ensures PassUnmarks(s, ids, r) && PassTakes(s, ids, r, u)
  {
    hide HasLink, SignedInElse, Targets, PassUnmarks, PassTakes;
    PassMarks(s, ids, t, r);
    TargetsSplit(s.ops.at, ids, t.ops.at, u);
    PassUser(s, ids, t, r, u);
  }

  lemma PassMarks(s: State, ids: seq<OpId>, t: State, r: State)
    requires ids != [] && ids[0] in s.ops.at && Unmarked(s, ids[0], t) && PassUnmarks(t, ids[1..], r)
    ensures PassUnmarks(s, ids, r)
  {
    hide HasLink, SignedInElse, Shrinks;
    assert ids == [ids[0]] + ids[1..];
  }

  lemma PassUser(s: State, ids: seq<OpId>, t: State, r: State, u: UserId)
    requires ids != [] && ids[0] in s.ops.at && Unmarked(s, ids[0], t) && PassTakes(t, ids[1..], r, u)
    requires Targets(s.ops.at, ids, u) <==> !Spares(s.ops.at, ids[0], u) || Targets(t.ops.at, ids[1..], u)
    ensures PassTakes(s, ids, r, u)
  {
    hide HasLink, SignedInElse, Targets;
  }

  /** A user that reconciling ids removes is removed for the first of them or for the rest. */
  lemma TargetsSplit(ops: map<OpId, Operation>, ids: seq<OpId>, later: map<OpId, Operation>, u: UserId)
    requires ids != [] && ids[0] in ops && ops[ids[0]].reconcile && later == ops[ids[0] := ops[ids[0]].(reconcile := false)]
    requires forall o :: SignedInElse(later, o, u) == SignedInElse(ops, o, u)
    ensures Targets(ops, ids, u) <==> !Spares(ops, ids[0], u) || Targets(later, ids[1..], u)
  {
    hide SignedInElse;
    if Targets(ops, ids, u) {
      var id :| id in ids && id in ops && ops[id].reconcile && !Spares(ops, id, u);
      if id != ids[0] {
        assert id in ids[1..] && id in later && later[id].reconcile && !Spares(later, id, u);
      }
    }
    if Targets(later, ids[1..], u) {
      var id :| id in ids[1..] && id in later && later[id].reconcile && !Spares(later, id, u);
      assert id in ids && id in ops && ops[id].reconcile && !Spares(ops, id, u);
    }
  }

  lemma PassSkips(s: State, ids: seq<OpId>, r: State, u: UserId)
    requires ids != [] && !(ids[0] in s.ops.at && s.ops.at[ids[0]].reconcile)
    requires PassUnmarks(s, ids[1..], r) && PassTakes(s, ids[1..], r, u)
    ensures PassUnmarks(s, ids, r) && PassTakes(s, ids, r, u)
  {
    hide HasLink, SignedInElse, Shrinks;
    assert ids == [ids[0]] + ids[1..];
  }

  /** Removals that are asked for again stay while Bridge has the user. */
  lemma RetryKeepsPending(s: State, x: UserId, u: UserId)
    requires Base(s) && s.env.login.Idle?
    ensures var t := RetryRemoval(s, x); Shrinks(s, t) && (u in t.env.made ==> (u in t.pending.at <==> u in s.pending.at))
  {
    hide BeginRemoval, ListUsers, OpsOk, OpsKept, LinksOk, CallsOk, RemovalsMove;
    if x in s.pending.at {
      ListUsersKeeps(s);
      ListShrinks(s);
      var (t, users) := ListUsers(s);
      if users.Some? && x in users.value {
        PendingIsFree(t, x);
        BeginRemovalKeeps(t, x, t.pending.at[x].reason);
        RemovalShrinks(t, x, t.pending.at[x].reason);
        assert BeginRemoval(t, x, t.pending.at[x].reason).pending.at.Keys == t.pending.at.Keys + {x};
      }
    }
  }

  lemma {:induction false} RetriesKeepPending(s: State, us: seq<UserId>, u: UserId)
    requires Base(s) && s.env.login.Idle?
    ensures var t := RetryRemovals(s, us); Shrinks(s, t) && (u in t.env.made ==> (u in t.pending.at <==> u in s.pending.at))
    decreases us
  {
    hide RetryRemoval, Base, Housekeeping;
    if us != [] {
      RetryRemovalKeeps(s, us[0]);
      RetryKeepsPending(s, us[0], u);
      RetriesKeepPending(RetryRemoval(s, us[0]), us[1..], u);
    }
  }

  /** A reconciliation with no attempt active and every listing answered frees the slot and loses a user exactly if
      nothing covers it and every marked attempt leaves it alone. */
  lemma ReconcileLoses(s: State, u: UserId)
    requires CoreAt(s, s.env.clock) && s.env.login.Idle? && (Holder(s).None? || !Active(Holder(s).value.state))
    requires var (t, ok) := ReconcileAll(s); ok && u in t.env.made
    ensures var t := ReconcileAll(s).0;
      Orphan(t, u) <==> (!CoveredIn(s, u) && forall id :: id in s.ops.at && s.ops.at[id].reconcile ==> Spares(s.ops.at, id, u))
    ensures var t := ReconcileAll(s).0; t.slot.None? && !MarkedIn(t.ops.at, u) && OwnedIn(t.ops.at, u) == OwnedIn(s.ops.at, u)
  {
    hide ReconcileFlagged, CoreAt, Base, HasLink, OpsKept, OpsFlow, RemovalsMove, LoginMoves, Logins, Loses, SignedInElse;
    CoreHasBase(s, s.env.clock);
    ReconcileFlaggedKeeps(s, s.ops.order);
    var f := ReconcileFlagged(s, s.ops.order).0;
    SameHolder(s, f);
    PassLoses(s, s.ops.order, u);
    ReconciledFrees(f);
    AllListed(s, s.env.clock);
    PassOwners(s, f, u);
  }

  /** A restart of Bridge with no attempt active, and every listing answered, loses a user exactly if nothing
      covers it and every marked attempt leaves it alone. Under an ended attempt that is not marked yet none is marked,
      so the restart loses whatever that sign-in created and nothing else covers. */
  lemma RestartLoses(s: State, u: UserId)
    requires CoreAt(s, s.env.clock) && s.env.login.Idle? && (Holder(s).None? || !Active(Holder(s).value.state))
    requires var t := AfterRestart(s); t.env.fails == s.env.fails && u in t.env.made
    ensures Orphan(AfterRestart(s), u) <==>
      !CoveredIn(s, u) && forall id :: id in s.ops.at && s.ops.at[id].reconcile ==> Spares(s.ops.at, id, u)
  {
    hide ReconcileAll, RetryRemovals, CoreAt, Base, HasLink, OpsKept, OpsFlow, RemovalsMove, LoginMoves, Logins, Flow, SignedInElse,
         OwnedIn, MarkedIn;
    var reset := s.(proc := s.proc.(reconcileFailures := 0, nextReconcileAt := 0));
    CountersSet(s, s.env.clock, 0, 0);
    ReconcileAllKeeps(reset, s.env.clock);
    var r := ReconcileAll(reset).0;
    CoreHasBase(r, s.env.clock);
    RetryRemovalsKeeps(r, s.pending.order);
    RetryFails(r, s.pending.order);
    FailsCount(reset);
    RetriesKeepPending(r, s.pending.order, u);
    ReconcileLoses(reset, u);
    assert AfterRestart(s).links == r.links && AfterRestart(s).slot == r.slot && AfterRestart(s).ops == r.ops;
  }

  /** A reconciliation in which a listing fails is counted. */
  lemma FailsCount(s: State)
    requires CoreAt(s, s.env.clock)
    ensures var (t, ok) := ReconcileAll(s); s.env.fails <= t.env.fails && (ok || s.env.fails < t.env.fails)
  {
    hide ReconcileFlagged, Reconciled, CoreAt, Base, OpsKept, RemovalsMove, LoginMoves, Logins;
    CoreHasBase(s, s.env.clock);
    ReconcileFlaggedKeeps(s, s.ops.order);
    var (f, ok) := ReconcileFlagged(s, s.ops.order);
    HousekeepingFails(s, f);
    ReconciledFails(f, ok);
  }

  lemma RetryFails(s: State, us: seq<UserId>)
    requires Base(s)
    ensures s.env.fails <= RetryRemovals(s, us).env.fails
  {
    hide RetryRemovals, Base;
    RetryRemovalsKeeps(s, us);
    HousekeepingFails(s, RetryRemovals(s, us));
  }

  lemma ReconciledFails(s: State, ok: bool)
    ensures Reconciled(s, ok).env.fails == s.env.fails
  {
    hide Loses;
  }

  lemma ReconciledFrees(s: State)
    requires Holder(s).None? || !Active(Holder(s).value.state)
    ensures var t := Reconciled(s, true);
      t.slot.None? && t.ops == s.ops && t.links == s.links && t.pending == s.pending && t.env == s.env.(slipped := t.env.slipped)
  {
    hide Loses;
  }

  lemma AllListed(s: State, at: nat)
    requires CoreAt(s, at)
    ensures forall id :: id in s.ops.at ==> id in s.ops.order
  {
    hide SlotOk, LoginOk, ProcOk, LeasesOk, SealOk, JournalOk, LinksOk, PendingOk, CallsOk;
  }

  /** After the pass nothing is marked and the owners are the same. */
  lemma PassOwners(s: State, f: State, u: UserId)
    requires f.ops.at.Keys == s.ops.at.Keys
    requires forall id :: id in s.ops.at ==> f.ops.at[id] == s.ops.at[id].(reconcile := false)
    ensures OwnedIn(f.ops.at, u) == OwnedIn(s.ops.at, u) && !MarkedIn(f.ops.at, u)
  {
    if OwnedIn(s.ops.at, u) {
      var o :| o in s.ops.at && Heir(s.ops.at[o], u) && s.ops.at[o].createdByAttempt;
      assert Heir(f.ops.at[o], u) && f.ops.at[o].createdByAttempt;
    }
    if OwnedIn(f.ops.at, u) {
      var o :| o in f.ops.at && Heir(f.ops.at[o], u) && f.ops.at[o].createdByAttempt;
      assert Heir(s.ops.at[o], u) && s.ops.at[o].createdByAttempt;
    }
  }

  // ---- forgetting ---------------------------------------------------------------------------------

  /** An attempt that tick forgets has ended or is committed, and the user it was signed in as, if a sign-in created
      it, is linked, being removed, or accounted for by an attempt that stays. */
  lemma ForgottenIsSettled(s: State, m: Move, id: OpId)
    requires Inv(s) && Accounted(s) && m.step.DoTick? && id in s.ops.at && id !in Do(s, m).ops.at && Clear(Do(s, m).env)
    ensures var q := s.(env := s.env.(tape := m.tape)); var b := TickWork(TickGate(q)).0; var t := Do(s, m);
      && id in b.ops.at && (Ended(b.ops.at[id].state) || b.ops.at[id].committed)
      && (b.ops.at[id].userId.Some? && b.ops.at[id].userId.value in t.env.made ==> Accountable(t, b.ops.at[id].userId.value))
  {
    hide Inv, Accounted, Tick, TickWork, TickGate, Counted, Prunable, Do, Core;
    var q := s.(env := s.env.(tape := m.tape));
    TapeKeeps(s, m.tape);
    StepCounts(s, m);
    AccountedOrder(Do(s, m));
    if s.env.dead {
      DeadStays(s, m);
    }
    ApplyTick(s, m);
    ForgetsPrunable(q, id);
    InvIsCore(TickGate(q));
    ForgottenHasEnded(TickGate(q), id);
  }

  lemma ApplyTick(s: State, m: Move)
    requires m.step.DoTick? && !s.env.dead
    ensures Do(s, m) == Tick(s.(env := s.env.(tape := m.tape)))
  {
    hide Tick;
  }

  /** What tick forgets it found prunable after its work. */
  lemma ForgetsPrunable(q: State, id: OpId)
    requires Inv(q) && id in q.ops.at && id !in Tick(q).ops.at
    ensures var g := TickGate(q); var b := TickWork(g).0;
      Inv(g) && g.gate.snapshot.None? && id in b.ops.at && Prunable(b, id, g.env.clock)
  {
    hide Inv, Tick, TickWork, TickGate, Prune, Persist, Moves, Drifts, Prunable;
    if q.proc.closed || (q.gate.snapshot.Some? && q.env.clock < q.gate.expiresAt) {
      TickIdles(q);
    }
    TickGateKeeps(q);
    var g := TickGate(q);
    TickIsWork(q);
    InvIsCore(g);
    TickWorkKeeps(g);
    var b := TickWork(g).0;
    GateKeys(q, g, b);
    CoreHasBase(b, g.env.clock);
    assert b.ops.Wf() by { BaseListed(b); }
    PruneForgets(b, b.ops.order, g.env.clock);
    var c := Prune(b, b.ops.order, g.env.clock);
    PersistOnlyDisk(c);
    PersistOnlyDisk(c.(proc := c.proc.(recovering := true)));
    ForgetsAre(b, c, g.env.clock, id);
  }

  lemma BaseListed(s: State)
    requires Base(s)
    ensures s.ops.Wf()
  {
    hide LinksOk, PendingOk, CallsOk;
  }

  lemma ForgetsAre(b: State, c: State, now: nat, id: OpId)
    requires Forgets(b.ops, c.ops, b.slot, now, b.cfg.ttl) && id in b.ops.at && id !in c.ops.at
    ensures Prunable(b, id, now)
  {
  }

  lemma AccountedOrder(s: State)
    requires Accounted(s) && Clear(s.env)
    ensures InOrder(s, s.slot, {})
  {
  }

  lemma InvIsCore(s: State)
    requires Inv(s)
    ensures Core(s)
  {
  }

  lemma TickIdles(s: State)
    requires s.proc.closed || (s.gate.snapshot.Some? && s.env.clock < s.gate.expiresAt)
    ensures Tick(s) == s.(env := s.env.(lastTick := s.env.clock))
  {
    hide TickOpen, OpenGate;
  }

  lemma GateKeys(q: State, g: State, b: State)
    requires Moves(q.(env := q.env.(lastTick := q.env.clock)), g) && Moves(g, b)
    ensures b.ops.at.Keys == q.ops.at.Keys
  {
    hide OpFlow, CallsSpare, RemovalsKept, Logins;
  }

  // ---- restarts of the worker ---------------------------------------------------------------------

  /** The journal accounts for u: by a link, a removal, a connected attempt that must clean u up, or an attempt
      the next worker marks that started before u was there. */
  ghost predicate JournalCovers(j: Journal, u: UserId) {
    || HasLink(j.links, u) || u in j.reasons
    || (exists id :: id in j.ops.at && j.ops.at[id].state.Connected? && Heir(j.ops.at[id], u) && j.ops.at[id].createdByAttempt)
    || (exists id :: id in j.ops.at && (j.ops.at[id].reconcile || Active(j.ops.at[id].state)) && u !in j.ops.at[id].preexisting)
  }

  /** A new worker loses a user exactly if the journal it reads does not account for it. */
  lemma ReloadLoses(s: State, u: UserId)
    ensures Orphan(Reloaded(s), u) <==> u in s.env.made && !JournalCovers(s.disk, u)
    ensures Reloaded(s).env.slipped <==> s.env.slipped || exists v :: Orphan(Reloaded(s), v)
  {
    hide HasLink, Restored;
    var env := s.env.(running := false, login := Idle, dead := false);
    var t := Loaded(s.cfg, s.disk, env);
    forall id | id in s.disk.ops.at
      ensures (Heir(t.ops.at[id], u) && t.ops.at[id].createdByAttempt) <==>
        (s.disk.ops.at[id].state.Connected? && Heir(s.disk.ops.at[id], u) && s.disk.ops.at[id].createdByAttempt)
      ensures t.ops.at[id].reconcile == (s.disk.ops.at[id].reconcile || Active(s.disk.ops.at[id].state))
      ensures t.ops.at[id].preexisting == s.disk.ops.at[id].preexisting
    {
      RestoredParts(s.disk.ops.at[id], env.clock, u);
    }
    if JournalCovers(s.disk, u) {
      if id :| id in s.disk.ops.at && s.disk.ops.at[id].state.Connected? && Heir(s.disk.ops.at[id], u) && s.disk.ops.at[id].createdByAttempt {
        assert Heir(t.ops.at[id], u) && t.ops.at[id].createdByAttempt;
      }
      if id :| id in s.disk.ops.at && (s.disk.ops.at[id].reconcile || Active(s.disk.ops.at[id].state)) && u !in s.disk.ops.at[id].preexisting {
        assert t.ops.at[id].reconcile && u !in t.ops.at[id].preexisting;
      }
    }
    assert forall v :: Accountable(Noted(t), v) == Accountable(t, v);
    if v :| v in t.env.made && !Accountable(t, v) {
      assert Orphan(Reloaded(s), v);
    }
  }

  lemma RestoredParts(o: Operation, now: nat, u: UserId)
    ensures var r := Restored(o, now);
      && ((Heir(r, u) && r.createdByAttempt) <==> (o.state.Connected? && Heir(o, u) && o.createdByAttempt))
      && r.reconcile == (o.reconcile || Active(o.state)) && r.preexisting == o.preexisting
  {
  }
}
