/** BridgeController with its fields updated in place, one method per critical section and per helper. Every
    helper is proved to leave the state that BridgeSpec computes from the old one; every critical section is a step
    of BridgeMachine and keeps the invariant of the object, from its constructor on. */
module BridgeControllers {
  import opened Wrappers
  import opened Dicts
  import opened BridgeTypes
  import S = BridgeSpec
  import M = BridgeMachine
  import H = BridgeShape
  import I = BridgeInvariant
  import K = BridgeSections

  class BridgeController {
    const cfg: Config

    var operations: Dict<OpId, Operation>
    var links: map<LinkKey, Link>
    var pendingRemovals: Dict<UserId, Removal>
    var slot: Option<OpId>

    var sendLeases: set<LeaseId>
    var cancelledLeases: seq<LeaseId>
    var snapshot: Option<SnapshotId>
    var snapshotExpiresAt: nat
    var sealed: bool

    var started: bool
    var nativeLost: bool
    var recovering: bool
    var restarted: Option<bool>
    var closed: bool
    var nextStartAt: nat
    var reconcileFailures: nat
    var nextReconcileAt: nat
    var recoveryStreak: nat
    var lastRecoveryAt: Option<nat>
    var nextRecoveryAt: nat

    var journal: Journal
    /** The world behind the native adapter. */
    var native: Env

    function View(): State
      reads this
    {
      State(cfg, operations, links, pendingRemovals, slot,
                  Gate(sendLeases, cancelledLeases, snapshot, snapshotExpiresAt, sealed),
                  Proc(started, nativeLost, recovering, restarted, closed, nextStartAt, reconcileFailures,
                       nextReconcileAt, recoveryStreak, lastRecoveryAt, nextRecoveryAt),
                  journal, native)
    }

    /** What holds also in the middle of a critical section. */
    ghost predicate Wf()
      reads this
    {
      operations.Wf()
    }

    /** What holds between critical sections. */
    ghost predicate Valid()
      reads this
    {
      I.Inv(View())
    }

    /** The worker has not died in a native call. */
    predicate Lives()
      reads this
    {
      !native.dead
    }

    // ---- journal ----------------------------------------------------------------------------------

    /** A worker that starts from the journal of the one before. */
    constructor (cfg: Config, journal: Journal, native: Env)
      requires H.JournalOk(journal) && H.CallsOk(native.calls) && native.login.Idle? && !native.dead && native.made <= native.users
      ensures Valid() && Lives() && View() == S.Noted(S.Loaded(cfg, journal, native))
    {
      hide H.LinksOk, H.JournaledOk, H.CallsOk, S.Loses, I.Inv;
      this.cfg := cfg;
      operations := EmptyDict();
      links := map[];
      pendingRemovals := EmptyDict();
      slot := None;
      sendLeases, cancelledLeases, snapshot, snapshotExpiresAt, sealed := {}, [], None, 0, false;
      started, nativeLost, recovering, restarted, closed := false, false, false, None, false;
      nextStartAt, reconcileFailures, nextReconcileAt := 0, 0, 0;
      recoveryStreak, lastRecoveryAt, nextRecoveryAt := 0, None, 0;
      this.journal := journal;
      this.native := native;
      new;
      K.LoadedKeeps(cfg, journal, native);
      K.LoadedRest(cfg, journal, native);
      Load();
      assert View() == S.Loaded(cfg, journal, native);
      K.NotedKeeps(View());
      Note();
    }

    method Load()
      requires journal.ops.Wf()
      modifies this`operations, this`links, this`pendingRemovals
      ensures Wf()
      ensures operations == S.Loaded(cfg, journal, native).ops
      ensures links == journal.links
      ensures pendingRemovals == S.Loaded(cfg, journal, native).pending
    {
      hide S.Restored, Sorted;
      LoadOperations(native.clock);
      links := journal.links;
      LoadRemovals(native.clock);
      ghost var loaded := S.Loaded(cfg, journal, native);
      assert operations.at == loaded.ops.at;
      assert pendingRemovals.at == loaded.pending.at;
    }

    method LoadOperations(now: nat)
      requires journal.ops.Wf()
      modifies this`operations
      ensures operations.order == journal.ops.order && operations.at.Keys == journal.ops.at.Keys
      ensures forall id :: id in operations.at ==> operations.at[id] == S.Restored(journal.ops.at[id], now)
    {
      operations := EmptyDict();
      var todo := journal.ops.order;
      var i := 0;
      while i < |todo|
        invariant 0 <= i <= |todo|
        invariant operations.order == todo[..i]
        invariant forall id :: id in operations.at <==> id in todo[..i]
        invariant forall id :: id in operations.at ==> operations.at[id] == S.Restored(journal.ops.at[id], now)
      {
        var id := todo[i];
        var operation := journal.ops.at[id].(createdAt := now, endedAt := None, splitRequested := false);
        if Active(operation.state) {
          operation := operation.(state := Failed, errorCode := Some(Unavailable), reconcile := true);
        }
        operation := operation.(endedAt := Some(now));
        assert id !in todo[..i];
        operations := operations.Put(id, operation);
        i := i + 1;
      }
      assert todo[..i] == todo;
    }

    method LoadRemovals(now: nat)
      modifies this`pendingRemovals
      ensures pendingRemovals.order == Sorted(journal.reasons.Keys) && pendingRemovals.at.Keys == journal.reasons.Keys
      ensures forall u :: u in pendingRemovals.at ==> pendingRemovals.at[u] == Removal(journal.reasons[u], now, 0, false)
    {
      hide Sorted;
      pendingRemovals := EmptyDict();
      var users := Sorted(journal.reasons.Keys);
      var k := 0;
      while k < |users|
        invariant 0 <= k <= |users|
        invariant pendingRemovals.order == users[..k]
        invariant forall u :: u in pendingRemovals.at <==> u in users[..k]
        invariant forall u :: u in pendingRemovals.at ==> pendingRemovals.at[u] == Removal(journal.reasons[u], now, 0, false)
      {
        assert users[k] in journal.reasons.Keys;
        assert users[k] !in users[..k];
        pendingRemovals := pendingRemovals.Put(users[k], Removal(journal.reasons[users[k]], now, 0, false));
        k := k + 1;
      }
      assert users[..k] == users;
    }

    method Persist()
      requires Wf()
      modifies this`journal
      ensures Wf() && View() == S.Persist(old(View()))
    {
      if !native.dead {
        journal := S.Save(View());
      }
    }

    // ---- native calls -----------------------------------------------------------------------------

    method NativeCall() returns (ok: bool)
      modifies this`native
      ensures (View(), ok) == S.NativeCall(old(View()))
    {
      var (s, answer) := S.NativeCall(View());
      native, ok := s.env, answer;
    }

    method NativeListUsers() returns (users: Option<set<UserId>>)
      modifies this`native
      ensures (View(), users) == S.ListUsers(old(View()))
    {
      var (s, answer) := S.ListUsers(View());
      native, users := s.env, answer;
    }

    method NativeGetUser() returns (info: Option<UserInfo>)
      modifies this`native
      ensures (View(), info) == S.GetUser(old(View()))
    {
      var (s, answer) := S.GetUser(View());
      native, info := s.env, answer;
    }

    method NativeRemoveUser(u: UserId, newly: bool)
      modifies this`native
      ensures View() == S.CallRemove(old(View()), u, newly)
    {
      native := S.CallRemove(View(), u, newly).env;
    }

    method NativeLogin(id: OpId) returns (ok: bool)
      modifies this`native
      ensures (View(), ok) == S.CallLogin(old(View()), id)
    {
      var (s, answer) := S.CallLogin(View(), id);
      native, ok := s.env, answer;
    }

    method NativeStart() returns (ok: bool)
      modifies this`native
      ensures (View(), ok) == S.CallStart(old(View()))
    {
      var (s, answer) := S.CallStart(View());
      native, ok := s.env, answer;
    }

    method NativeRecover() returns (ok: bool)
      modifies this`native
      ensures (View(), ok) == S.CallRecover(old(View()))
    {
      var (s, answer) := S.CallRecover(View());
      native, ok := s.env, answer;
    }

    method NativeShutdown() returns (ok: bool)
      modifies this`native
      ensures (View(), ok) == S.CallShutdown(old(View()))
    {
      var (s, answer) := S.CallShutdown(View());
      native, ok := s.env, answer;
    }

    // ---- helpers ----------------------------------------------------------------------------------

    method SetOperation(id: OpId, operation: Operation)
      requires Wf() && id in operations.at
      modifies this`operations
      ensures Wf() && View() == S.SetOp(old(View()), id, operation)
    {
      operations := operations.(at := operations.at[id := operation]);
    }

    method End(id: OpId, state: OpState, code: Option<ErrorCode>)
      requires Wf() && id in operations.at
      modifies this`operations
      ensures Wf() && View() == S.End(old(View()), id, state, code)
    {
      SetOperation(id, operations.at[id].(state := state, errorCode := code, endedAt := Some(native.clock)));
    }

    method Release(id: OpId)
      modifies this`slot
      ensures View() == S.Release(old(View()), id)
    {
      if slot == Some(id) {
        slot := None;
      }
    }

    method BeginRemoval(u: UserId, reason: Reason)
      modifies this`pendingRemovals, this`native
      ensures View() == S.BeginRemoval(old(View()), u, reason)
    {
      var newly := u !in pendingRemovals.at;
      if newly {
        pendingRemovals := pendingRemovals.Put(u, Removal(reason, native.clock, 0, false));
      } else {
        var item := pendingRemovals.at[u].(since := native.clock);
        if reason.Unlink? {
          item := item.(reason := reason);
        }
        pendingRemovals := pendingRemovals.Put(u, item);
      }
      NativeRemoveUser(u, newly);
    }

    method RetryRemoval(u: UserId)
      modifies this`pendingRemovals, this`native
      ensures View() == S.RetryRemoval(old(View()), u)
    {
      if u !in pendingRemovals.at {
        return;
      }
      var users := NativeListUsers();
      if users.None? {
        return;
      }
      if u !in users.value {
        pendingRemovals := pendingRemovals.Drop(u);
        return;
      }
      BeginRemoval(u, pendingRemovals.at[u].reason);
    }

    method MarkHeirs(heirs: set<OpId>)
      requires Wf()
      modifies this`operations
      ensures Wf() && operations.order == old(operations.order)
      ensures operations.at.Keys == old(operations.at.Keys)
      ensures forall id :: id in operations.at ==>
        operations.at[id] == if id in heirs then old(operations.at[id]).(createdByAttempt := true) else old(operations.at[id])
    {
      ghost var before := operations.at;
      var todo := operations.order;
      var i := 0;
      while i < |todo|
        invariant 0 <= i <= |todo| && operations.order == todo && operations.at.Keys == before.Keys
        invariant forall k :: 0 <= k < i ==>
          operations.at[todo[k]] == if todo[k] in heirs then before[todo[k]].(createdByAttempt := true) else before[todo[k]]
        invariant forall k :: i <= k < |todo| ==> operations.at[todo[k]] == before[todo[k]]
      {
        if todo[i] in heirs {
          operations := operations.(at := operations.at[todo[i] := operations.at[todo[i]].(createdByAttempt := true)]);
        }
        i := i + 1;
      }
      assert forall id :: id in before ==> id in todo;
    }

    /** Gives the clean-up of u to the live attempts that use it; false when none do. */
    method HandOver(u: UserId, ended: Option<OpId>) returns (any: bool)
      requires Wf()
      modifies this`operations
      ensures Wf()
      ensures any == S.HasHeir(old(View()), u, ended)
      ensures View() == S.HandOver(old(View()), u, ended)
    {
      hide S.Handed, S.Heir;
      var heirs := set id | id in operations.at && Some(id) != ended && S.Heir(operations.at[id], u);
      any := heirs != {};
      assert any == S.HasHeir(View(), u, ended) by {
        if heir :| heir in operations.at && Some(heir) != ended && S.Heir(operations.at[heir], u) {
          assert heir in heirs;
        }
      }
      MarkHeirs(heirs);
      assert operations.at == S.Handed(old(operations.at), u, ended);
    }

    method DropAttemptUser(id: OpId)
      requires Wf() && id in operations.at
      modifies this`operations, this`pendingRemovals, this`native
      ensures Wf() && View() == S.DropAttemptUser(old(View()), id)
    {
      var operation := operations.at[id];
      if !operation.createdByAttempt || operation.userId.None? {
        return;
      }
      var u := operation.userId.value;
      if S.Linked(View(), u) {
        return;
      }
      ghost var before := View();
      var handed := HandOver(u, Some(id));
      if handed {
        return;
      }
      assert operations.at == before.ops.at;
      BeginRemoval(u, Attempt);
    }

    method StopAttempt(id: OpId, state: OpState, code: Option<ErrorCode>)
      requires Wf() && id in operations.at
      modifies this`operations, this`pendingRemovals, this`slot, this`native
      ensures Wf() && View() == S.StopAttempt(old(View()), id, state, code)
    {
      var loginFinished := operations.at[id].state.Checking?;
      End(id, state, code);
      if loginFinished {
        DropAttemptUser(id);
        Release(id);
        return;
      }
      var _ := NativeCall();
    }

    // ---- process and reconciliation ---------------------------------------------------------------

    method ReconcileOrphans(id: OpId) returns (ok: bool)
      requires Wf() && id in operations.at
      modifies this`operations, this`pendingRemovals, this`native
      ensures Wf() && (View(), ok) == S.ReconcileOrphans(old(View()), id)
    {
      hide S.BeginRemoval, S.ListUsers, S.Noted;
      var users := NativeListUsers();
      if users.None? {
        return false;
      }
      var orphans := Sorted(set u | u in users.value && !S.Known(View(), id, u));
      ghost var listed := View();
      var i := 0;
      while i < |orphans|
        invariant 0 <= i <= |orphans|
        invariant operations == listed.ops
        invariant S.BeginRemovals(View(), orphans[i..]) == S.BeginRemovals(listed, orphans)
      {
        BeginRemoval(orphans[i], Attempt);
        i := i + 1;
      }
      SetOperation(id, operations.at[id].(reconcile := false));
      Note();
      ok := true;
    }

    /** History: a user that nothing accounts for any more is lost. */
    method Note()
      modifies this`native
      ensures View() == S.Noted(old(View()))
    {
      hide S.Loses;
      native := S.Noted(View()).env;
    }

    method ReconcileFlagged() returns (ok: bool)
      requires Wf()
      modifies this`operations, this`pendingRemovals, this`native
      ensures Wf() && (View(), ok) == S.ReconcileFlagged(old(View()), old(operations.order))
    {
      hide S.ReconcileOrphans;
      ok := true;
      var todo := operations.order;
      ghost var before := View();
      var i := 0;
      while i < |todo|
        invariant 0 <= i <= |todo| && Wf()
        invariant S.ReconcileFlagged(before, todo).0 == S.ReconcileFlagged(View(), todo[i..]).0
        invariant S.ReconcileFlagged(before, todo).1 == (ok && S.ReconcileFlagged(View(), todo[i..]).1)
      {
        var id := todo[i];
        if id in operations.at && operations.at[id].reconcile {
          var reconciled := ReconcileOrphans(id);
          ok := reconciled && ok;
        }
        i := i + 1;
      }
    }

    /** The time of the holder's end is put off. */
    method PutOffHolder()
      requires Wf()
      modifies this`operations
      ensures Wf()
      ensures var s := old(View());
        View() == if S.Holder(s).Some? then S.SetOp(s, s.slot.value, S.Holder(s).value.(endedAt := Some(s.env.clock))) else s
    {
      if slot.Some? && slot.value in operations.at {
        SetOperation(slot.value, operations.at[slot.value].(endedAt := Some(native.clock)));
      }
    }

    /** After the marked attempts: the slot of an ended holder is freed, or a retry is scheduled. */
    method FreeSlot(ok: bool)
      requires Wf()
      modifies this
      ensures Wf() && View() == S.Reconciled(old(View()), ok)
    {
      hide S.Noted, S.SetOp, Min, Pow2;
      var holder := S.Holder(View());
      if ok && (holder.None? || !Active(holder.value.state)) {
        slot := None;
        Note();
      } else {
        PutOffHolder();
      }
      if ok {
        reconcileFailures := 0;
      } else {
        reconcileFailures := reconcileFailures + 1;
        nextReconcileAt := native.clock + Min(Pow2(reconcileFailures), RECONCILE_BACKOFF_CAP);
      }
    }

    method ReconcileAll() returns (ok: bool)
      requires Wf()
      modifies this
      ensures Wf() && (View(), ok) == S.ReconcileAll(old(View()))
    {
      hide S.ReconcileFlagged, S.Reconciled;
      ok := ReconcileFlagged();
      FreeSlot(ok);
    }

    method AfterRestart()
      requires Wf()
      modifies this
      ensures Wf() && View() == S.AfterRestart(old(View()))
    {
      hide S.ReconcileAll, S.RetryRemoval, S.Holder;
      var earlier := pendingRemovals.order;
      reconcileFailures := 0;
      nextReconcileAt := 0;
      var _ := ReconcileAll();
      ghost var reconciled := View();
      var i := 0;
      while i < |earlier|
        invariant 0 <= i <= |earlier| && Wf()
        invariant S.RetryRemovals(View(), earlier[i..]) == S.RetryRemovals(reconciled, earlier)
      {
        RetryRemoval(earlier[i]);
        i := i + 1;
      }
    }

    method EnsureStarted() returns (error: Option<ErrorCode>)
      requires Wf()
      modifies this
      ensures Wf() && (View(), error) == S.EnsureStarted(old(View()))
    {
      hide S.Alive, S.CallRecover, S.CallStart, S.AfterRestart;
      if S.Alive(View()) {
        return None;
      }
      if snapshot.Some? {
        return Some(MaintenanceBusy);
      }
      var ok;
      if started {
        ok := NativeRecover();
      } else {
        ok := NativeStart();
      }
      if !ok {
        started := false;
        return Some(Unavailable);
      }
      started, nativeLost := true, false;
      AfterRestart();
      error := None;
    }

    method Boot() returns (reply: Reply)
      requires Valid() && Lives()
      modifies this
      ensures Valid() && View() == M.Apply(old(View()), M.DoBoot)
      ensures reply == S.Boot(old(View())).1
    {
      hide I.Inv, K.Moves, K.Drifts, M.Apply;
      K.BootKeeps(View());
      K.AppliedBoot(View());
      K.InvIsWf(View());
      if !S.NeedsBridge(View()) {
        return Accepted;
      }
      var error := EnsureStarted();
      if error.Some? {
        return Refused(error.value);
      }
      Persist();
      reply := Accepted;
    }

    method Shutdown()
      requires Valid() && Lives()
      modifies this
      ensures Valid() && View() == M.Apply(old(View()), M.DoShutdown)
    {
      hide I.Inv, K.Moves, K.Drifts, M.Apply;
      K.ShutdownStepKeeps(View());
      K.AppliedShutdown(View());
      K.InvIsWf(View());
      if closed {
        return;
      }
      closed := true;
      if started {
        native := native.(running := false, login := Idle);
      }
      started := false;
    }

    // ---- sign-in ----------------------------------------------------------------------------------

    /** The attempt takes the slot, is journaled and only then reaches Bridge. */
    method SignIn(id: OpId, email: Email, preexisting: set<UserId>)
      requires Wf()
      modifies this
      ensures Wf() && View() == S.SignIn(old(View()), id, email, preexisting)
    {
      hide S.CallLogin, S.Save;
      PutWf(operations, id, NewOperation(id, email, native.clock, preexisting));
      operations := operations.Put(id, NewOperation(id, email, native.clock, preexisting));
      slot := Some(id);
      Persist();
      var ok := NativeLogin(id);
      if !ok {
        End(id, Failed, Some(Unavailable));
        Persist();
      }
    }

    method StartConnection(id: OpId, email: Email, password: string) returns (reply: Reply)
      requires Valid() && Lives()
      modifies this
      ensures Valid() && View() == M.Apply(old(View()), M.DoStart(id, email, password))
      ensures reply == S.StartConnection(old(View()), id, email, password).1
    {
      hide S.EnsureStarted, S.ListUsers, S.SignIn, S.BusyElsewhere, Lower, I.Inv, K.Moves, K.Drifts, M.Apply;
      K.StartKeeps(View(), id, email, password);
      K.AppliedStart(View(), id, email, password);
      K.InvIsWf(View());
      if !SafeEmail(email) || password == "" {
        return Refused(InvalidRequest);
      }
      if closed {
        return Refused(Unavailable);
      }
      if id in operations.at {
        return if Lower(operations.at[id].email) != Lower(email) then Refused(OperationConflict) else Accepted;
      }
      if S.Busy(View()) {
        return Refused(LoginBusy);
      }
      var error := EnsureStarted();
      if error.Some? {
        return Refused(error.value);
      }
      if S.Busy(View()) {
        return Refused(LoginBusy);
      }
      var users := NativeListUsers();
      if users.None? {
        return Refused(Unavailable);
      }
      SignIn(id, email, users.value);
      reply := Accepted;
    }

    method ContinueConnection(id: OpId, challenge: Challenge, secret: string) returns (reply: Reply)
      requires Valid() && Lives()
      modifies this
      ensures Valid() && View() == M.Apply(old(View()), M.DoContinue(id, challenge, secret))
      ensures reply == S.ContinueConnection(old(View()), id, challenge, secret).1
    {
      hide I.Inv, K.Moves, K.Drifts, M.Apply;
      K.ContinueKeeps(View(), id, challenge, secret);
      K.AppliedContinue(View(), id, challenge, secret);
      K.InvIsWf(View());
      if id !in operations.at {
        return Refused(NotFound);
      }
      if !S.Awaits(operations.at[id].state, challenge) || slot != Some(id) || secret == "" {
        return Refused(InvalidChallenge);
      }
      SetOperation(id, operations.at[id].(state := Authenticating, errorCode := None));
      Persist();
      var ok := NativeCall();
      if !ok {
        End(id, Failed, Some(Unavailable));
      }
      Persist();
      reply := Accepted;
    }

    method CancelConnection(id: OpId) returns (reply: Reply)
      requires Valid() && Lives()
      modifies this
      ensures Valid() && View() == M.Apply(old(View()), M.DoCancel(id))
      ensures reply == S.CancelConnection(old(View()), id).1
    {
      hide I.Inv, K.Moves, K.Drifts, M.Apply;
      K.CancelKeeps(View(), id);
      K.AppliedCancel(View(), id);
      K.InvIsWf(View());
      if id !in operations.at {
        return Refused(NotFound);
      }
      if operations.at[id].state.Connected? && !operations.at[id].committed {
        End(id, Cancelled, None);
        DropAttemptUser(id);
      } else if Active(operations.at[id].state) {
        StopAttempt(id, Cancelled, None);
      }
      Persist();
      reply := Accepted;
    }

    method CommitConnection(id: OpId, u: UserId, generation: Generation, previous: Option<Generation>) returns (reply: Reply)
      requires Valid() && Lives()
      modifies this
      ensures Valid() && View() == M.Apply(old(View()), M.DoCommit(id, u, generation, previous))
      ensures reply == S.CommitConnection(old(View()), id, u, generation, previous).1
    {
      hide I.Inv, K.Moves, K.Drifts, M.Apply;
      K.CommitKeeps(View(), id, u, generation, previous);
      K.AppliedCommit(View(), id, u, generation, previous);
      K.InvIsWf(View());
      if id !in operations.at {
        return Refused(NotFound);
      }
      var operation := operations.at[id];
      if !S.Admitted(View(), Some(operation)) {
        return Refused(MaintenanceBusy);
      }
      if !operation.state.Connected? || operation.userId != Some(u) {
        return Refused(NotConnected);
      }
      if u in pendingRemovals.at {
        return Refused(OperationConflict);
      }
      var key := LinkKey(u, Lower(operation.email));
      if key in links && links[key].generation != generation && previous != Some(links[key].generation) {
        return Refused(GenerationMismatch);
      }
      links := links[key := Link(u, operation.email, generation)];
      if !operation.committed {
        SetOperation(id, operation.(committed := true, endedAt := Some(native.clock)));
      }
      Persist();
      reply := Accepted;
    }

    method Credentials(u: UserId, id: Option<OpId>, generation: Option<Generation>, email: Email) returns (reply: Reply)
      requires Valid() && Lives()
      modifies this
      ensures Valid() && View() == M.Apply(old(View()), M.DoCredentials(u, id, generation, email))
      ensures reply == S.Credentials(old(View()), u, id, generation, email).1
    {
      hide I.Inv, K.Moves, K.Drifts, M.Apply;
      K.CredentialsKeeps(View(), u, id, generation, email);
      K.AppliedCredentials(View(), u, id, generation, email);
      K.InvIsWf(View());
      var (address, refused) := S.CredentialsOf(View(), u, id, generation, email);
      if refused.Some? {
        return Refused(refused.value);
      }
      if u in pendingRemovals.at {
        return Refused(NotConnected);
      }
      var error := EnsureStarted();
      if error.Some? {
        return Refused(error.value);
      }
      var info := NativeGetUser();
      if info.None? {
        return Refused(Unavailable);
      }
      if !S.Owns(info.value, u, address) {
        return Refused(AddressMismatch);
      }
      if !info.value.connected || !info.value.split {
        return Refused(NotConnected);
      }
      var mismatch := S.Next(View()).mismatch;
      var ok := NativeCall();
      reply := if mismatch then Refused(AddressMismatch) else if ok then Accepted else Refused(Unavailable);
    }

    method RemoveUser(u: UserId, generation: Generation, email: Email) returns (reply: Reply)
      requires Valid() && Lives()
      modifies this
      ensures Valid() && View() == M.Apply(old(View()), M.DoRemove(u, generation, email))
      ensures reply == S.RemoveUser(old(View()), u, generation, email).1
    {
      hide S.EnsureStarted, S.BeginRemoval, S.Save, S.Heir, S.Handed, I.Inv, K.Moves, K.Drifts, M.Apply;
      K.RemoveKeeps(View(), u, generation, email);
      K.AppliedRemove(View(), u, generation, email);
      K.InvIsWf(View());
      if !SafeEmail(email) {
        return Refused(InvalidRequest);
      }
      if !S.Admitted(View(), None) {
        return Refused(MaintenanceBusy);
      }
      var key := LinkKey(u, Lower(email));
      if key !in links {
        return if u in pendingRemovals.at then Removing else Removed;
      }
      if links[key].generation != generation {
        return Refused(GenerationMismatch);
      }
      var others := exists k | k in links :: k.user == u && k != key;
      if !others {
        var error := EnsureStarted();
        if error.Some? {
          return Refused(error.value);
        }
      }
      links := links - {key};
      if others {
        Persist();
        return Unlinked;
      }
      ghost var cut := View();
      var handed := HandOver(u, None);
      if handed {
        Persist();
        return Unlinked;
      }
      assert operations.at == cut.ops.at;
      if u !in pendingRemovals.at {
        BeginRemoval(u, Unlink);
      }
      Persist();
      reply := if u in pendingRemovals.at then Removing else Removed;
    }

    // ---- send leases and the snapshot gate --------------------------------------------------------

    method AcquireSendLease(l: LeaseId) returns (reply: Reply)
      requires Valid() && Lives()
      modifies this
      ensures Valid() && View() == M.Apply(old(View()), M.DoAcquire(l))
      ensures reply == S.AcquireLease(old(View()), l).1
    {
      hide I.Inv, K.Moves, K.Drifts, M.Apply;
      K.AcquireKeeps(View(), l);
      K.AppliedAcquire(View(), l);
      K.InvIsWf(View());
      if l in cancelledLeases {
        cancelledLeases := Without(cancelledLeases, l);
        return Refused(LeaseCancelled);
      }
      if l in sendLeases {
        return Accepted;
      }
      if closed {
        return Refused(Unavailable);
      }
      if !S.Admitted(View(), None) {
        return Refused(MaintenanceBusy);
      }
      sendLeases := sendLeases + {l};
      reply := Accepted;
    }

    /** Forgets the oldest cancelled leases. */
    method ForgetCancelled()
      modifies this`cancelledLeases
      ensures cancelledLeases == S.Newest(old(cancelledLeases), CANCELLED_LEASES_KEPT)
    {
      ghost var marked := cancelledLeases;
      while |cancelledLeases| > CANCELLED_LEASES_KEPT
        invariant |cancelledLeases| <= |marked| && cancelledLeases == marked[|marked| - |cancelledLeases|..]
        invariant |cancelledLeases| >= CANCELLED_LEASES_KEPT || cancelledLeases == marked
      {
        cancelledLeases := cancelledLeases[1..];
      }
    }

    method ReleaseSendLease(l: LeaseId) returns (reply: Reply)
      requires Valid() && Lives()
      modifies this`sendLeases, this`cancelledLeases
      ensures Valid() && View() == M.Apply(old(View()), M.DoRelease(l))
      ensures reply == S.ReleaseLease(old(View()), l).1
    {
      hide S.Newest, I.Inv, K.Moves, K.Drifts, M.Apply;
      K.ReleaseKeeps(View(), l);
      K.AppliedRelease(View(), l);
      K.InvIsWf(View());
      var released := l in sendLeases;
      sendLeases := sendLeases - {l};
      if !released {
        if l !in cancelledLeases {
          cancelledLeases := cancelledLeases + [l];
        }
        ForgetCancelled();
      }
      reply := Released(released);
    }

    method SnapshotBegin(id: SnapshotId) returns (reply: Reply)
      requires Valid() && Lives()
      modifies this
      ensures Valid() && View() == M.Apply(old(View()), M.DoBegin(id))
      ensures reply == S.SnapshotBegin(old(View()), id).1
    {
      hide I.Inv, K.Moves, K.Drifts, M.Apply;
      K.BeginKeeps(View(), id);
      K.AppliedBegin(View(), id);
      K.InvIsWf(View());
      var until := native.clock + cfg.snapshotTtl;
      if snapshot.Some? {
        if snapshot.value == id {
          return Accepted;
        }
        if native.clock < snapshotExpiresAt {
          return Refused(OperationConflict);
        }
        snapshot, snapshotExpiresAt := Some(id), until;
        return Accepted;
      }
      if closed {
        return Refused(Unavailable);
      }
      snapshot, snapshotExpiresAt, sealed := Some(id), until, false;
      reply := Draining;
    }

    method Unlock()
      modifies this`snapshot, this`snapshotExpiresAt, this`sealed
      ensures View() == S.Unlocked(old(View()))
    {
      snapshot, snapshotExpiresAt, sealed := None, 0, false;
    }

    method SettleHolder()
      requires Wf()
      modifies this
      ensures Wf() && View() == S.SettleHolder(old(View()))
    {
      if S.Holder(View()).None? {
        return;
      }
      var id := slot.value;
      if Active(operations.at[id].state) {
        StopAttempt(id, Expired, None);
      }
      if !Active(operations.at[id].state) {
        SetOperation(id, operations.at[id].(reconcile := true));
      }
    }

    /** Bridge quits, if it was started. */
    method StopForSnapshot() returns (ok: bool)
      modifies this`started, this`native
      ensures var s := old(View());
        (View(), ok) == if s.proc.started then S.CallShutdown(s.(proc := s.proc.(started := false))) else (s, true)
    {
      hide S.CallShutdown;
      ok := true;
      if started {
        started := false;
        ok := NativeShutdown();
      }
    }

    /** The rest of snapshot_begin after its wait. */
    method FinishDrain() returns (reply: Reply)
      requires Wf()
      modifies this
      ensures Wf() && (View(), reply) == S.Drained(old(View()))
    {
      hide S.SettleHolder, S.CallShutdown, S.Persist, S.Unlocked;
      SettleHolder();
      var ok := StopForSnapshot();
      if !ok {
        started, nativeLost := true, true;
        Unlock();
        return Refused(Unavailable);
      }
      sealed := true;
      Persist();
      reply := Accepted;
    }

    /** One wake-up of the drain that snapshot_begin(id) waits in, with its deadline. */
    method DrainRound(id: SnapshotId, deadline: nat) returns (reply: Reply)
      requires Valid() && Lives()
      modifies this
      ensures Valid() && View() == M.Apply(old(View()), M.DoDrainRound(id, deadline))
      ensures reply == S.DrainRound(old(View()), id, deadline).1
    {
      hide S.Drained, S.LoginActive, S.Unlocked, I.Inv, K.Moves, K.Drifts, M.Apply;
      K.DrainKeeps(View(), id, deadline);
      K.AppliedDrain(View(), id, deadline);
      K.InvIsWf(View());
      if snapshot != Some(id) {
        return Refused(OperationConflict);
      }
      if sendLeases == {} && !S.LoginActive(View()) {
        reply := FinishDrain();
        return;
      }
      if deadline <= native.clock {
        Unlock();
        return Refused(SnapshotBusy);
      }
      reply := Draining;
    }

    method OpenGate()
      requires Wf()
      modifies this
      ensures Wf() && View() == S.OpenGate(old(View()))
    {
      hide S.EnsureStarted, S.NeedsBridge, S.Persist, S.Unlocked;
      Unlock();
      if S.NeedsBridge(View()) {
        var error := EnsureStarted();
        if error.Some? {
          nextStartAt := native.clock + cfg.recoverySeconds;
        }
      }
      Persist();
    }

    method SnapshotEnd(id: SnapshotId) returns (reply: Reply)
      requires Valid() && Lives()
      modifies this
      ensures Valid() && View() == M.Apply(old(View()), M.DoEnd(id))
      ensures reply == S.SnapshotEnd(old(View()), id).1
    {
      hide I.Inv, K.Moves, K.Drifts, M.Apply;
      K.EndGateKeeps(View(), id);
      K.AppliedEnd(View(), id);
      K.InvIsWf(View());
      if snapshot.None? {
        return EndedGate(false);
      }
      if snapshot.value != id {
        return Refused(OperationConflict);
      }
      OpenGate();
      reply := EndedGate(true);
    }

    method SnapshotRenew(id: SnapshotId) returns (reply: Reply)
      requires Valid() && Lives()
      modifies this
      ensures Valid() && View() == M.Apply(old(View()), M.DoRenew(id))
      ensures reply == S.SnapshotRenew(old(View()), id).1
    {
      hide I.Inv, K.Moves, K.Drifts, M.Apply;
      K.RenewKeeps(View(), id);
      K.AppliedRenew(View(), id);
      K.InvIsWf(View());
      if snapshot != Some(id) {
        return Refused(OperationConflict);
      }
      snapshotExpiresAt := native.clock + cfg.snapshotTtl;
      reply := Accepted;
    }

    // ---- timers -----------------------------------------------------------------------------------

    method Expire(now: nat)
      requires Wf()
      modifies this
      ensures Wf() && View() == S.Expire(old(View()), old(operations.order), now)
    {
      var todo := operations.order;
      ghost var before := View();
      var i := 0;
      while i < |todo|
        invariant 0 <= i <= |todo| && Wf()
        invariant S.Expire(View(), todo[i..], now) == S.Expire(before, todo, now)
      {
        var id := todo[i];
        if id in operations.at && operations.at[id].createdAt + cfg.ttl <= now {
          if Active(operations.at[id].state) {
            StopAttempt(id, Expired, None);
          } else if operations.at[id].state.Connected? && !operations.at[id].committed {
            End(id, Expired, None);
            DropAttemptUser(id);
          }
        }
        i := i + 1;
      }
    }

    method RemovalTimers(now: nat, canRecover: bool) returns (recover: bool)
      requires Wf()
      modifies this
      ensures Wf() && (View(), recover) == S.RemovalTimers(old(View()), old(pendingRemovals.order), now, canRecover)
    {
      hide S.RetryRemoval;
      recover := false;
      var todo := pendingRemovals.order;
      ghost var before := View();
      var i := 0;
      while i < |todo|
        invariant 0 <= i <= |todo| && Wf()
        invariant S.RemovalTimers(before, todo, now, canRecover).0 == S.RemovalTimers(View(), todo[i..], now, canRecover).0
        invariant S.RemovalTimers(before, todo, now, canRecover).1 == (recover || S.RemovalTimers(View(), todo[i..], now, canRecover).1)
      {
        var u := todo[i];
        if u in pendingRemovals.at && pendingRemovals.at[u].since + REMOVAL_RETRY_SECONDS <= now {
          var item := pendingRemovals.at[u];
          if item.reason.Attempt? && !item.stuck {
            if item.recoveries < MAX_REMOVAL_RECOVERIES {
              if canRecover {
                pendingRemovals := pendingRemovals.Put(u, item.(recoveries := item.recoveries + 1, since := now));
                recover := true;
              }
            } else {
              pendingRemovals := pendingRemovals.Put(u, item.(stuck := true));
              RetryRemoval(u);
            }
          } else {
            RetryRemoval(u);
          }
        }
        i := i + 1;
      }
    }

    method TickProcess(now: nat) returns (recover: bool)
      requires Wf()
      modifies this
      ensures Wf() && (View(), recover) == S.TickProcess(old(View()), now)
    {
      hide S.Alive, S.NeedsBridge, S.EnsureStarted;
      recover := false;
      if started && !S.Alive(View()) {
        if S.NeedsBridge(View()) || slot.Some? {
          recover := true;
        } else {
          started, nativeLost := false, false;
        }
      } else if !started && S.NeedsBridge(View()) && now >= nextStartAt {
        var error := EnsureStarted();
        if error.Some? {
          nextStartAt := now + cfg.recoverySeconds;
        }
      }
    }

    method TickRecovery(now: nat) returns (recover: bool)
      requires Wf()
      modifies this
      ensures Wf() && (View(), recover) == S.TickRecovery(old(View()), now)
    {
      hide S.RemovalTimers, S.TickProcess, S.Alive, S.ReconcilePending, S.ReconcileAll;
      var canRecover := now >= nextRecoveryAt;
      recover := RemovalTimers(now, canRecover);
      if S.HolderDue(View(), now) {
        SetOperation(slot.value, operations.at[slot.value].(reconcile := true));
        recover := true;
      }
      var restart := TickProcess(now);
      if restart {
        recover := true;
      }
      if !recover && S.Alive(View()) && S.ReconcilePending(View()) && now >= nextReconcileAt {
        var reconciled := ReconcileAll();
        if !reconciled && reconcileFailures >= MAX_RECONCILE_FAILURES {
          recover := true;
        }
      }
      if recover && !canRecover {
        recover := false;
      }
    }

    method Prune(now: nat)
      requires Wf()
      modifies this`operations
      ensures Wf() && View() == S.Prune(old(View()), old(operations.order), now)
    {
      var todo := operations.order;
      ghost var before := View();
      var i := 0;
      while i < |todo|
        invariant 0 <= i <= |todo| && Wf()
        invariant S.Prune(View(), todo[i..], now) == S.Prune(before, todo, now)
      {
        if todo[i] in operations.at && S.Prunable(View(), todo[i], now) {
          DropWf(operations, todo[i]);
          operations := operations.Drop(todo[i]);
        }
        i := i + 1;
      }
    }

    /** tick with the gate open. */
    method TickOpen()
      requires Wf()
      modifies this
      ensures Wf() && View() == S.TickOpen(old(View()))
    {
      hide S.Expire, S.TickRecovery, S.Prune, S.Persist;
      var now := native.clock;
      Expire(now);
      var recover := false;
      if !recovering {
        recover := TickRecovery(now);
      }
      Prune(now);
      if recover {
        recovering := true;
      }
      Persist();
    }

    /** The critical section of tick; when it sets recovering, the same thread goes on with RecoverNative. */
    method Tick()
      requires Valid() && Lives()
      modifies this
      ensures Valid() && View() == M.Apply(old(View()), M.DoTick)
    {
      hide S.OpenGate, S.TickOpen, I.Inv, K.Moves, K.Drifts, M.Apply;
      K.TickKeeps(View());
      K.AppliedTick(View());
      K.InvIsWf(View());
      native := native.(lastTick := native.clock);
      if closed {
        return;
      }
      if snapshot.Some? {
        if native.clock < snapshotExpiresAt {
          return;
        }
        OpenGate();
      }
      TickOpen();
    }

    /** The backoff of recoveries is stamped. */
    method StampRecovery()
      modifies this`recoveryStreak, this`lastRecoveryAt, this`nextRecoveryAt
      ensures View() == S.Stamped(old(View()))
    {
      var now := native.clock;
      if lastRecoveryAt.Some? && now < lastRecoveryAt.value + RECOVERY_BACKOFF_CAP {
        recoveryStreak := recoveryStreak + 1;
      } else {
        recoveryStreak := 0;
      }
      lastRecoveryAt := Some(now);
      nextRecoveryAt := now + Min(cfg.recoverySeconds * Pow2(recoveryStreak), RECOVERY_BACKOFF_CAP);
    }

    /** _recover before it takes the lock again. */
    method RecoverNative()
      requires Valid() && Lives() && recovering && restarted.None?
      modifies this
      ensures Valid() && View() == M.Apply(old(View()), M.DoRecoverNative)
    {
      hide S.CallRecover, S.Stamped, I.Inv, K.Moves, K.Drifts, M.Apply;
      K.RecoverNativeKeeps(View());
      K.AppliedRecoverNative(View());
      StampRecovery();
      var ok := NativeRecover();
      restarted := Some(ok);
    }

    /** _recover under the lock. */
    method RecoverFinish()
      requires Valid() && Lives() && restarted.Some?
      modifies this
      ensures Valid() && View() == M.Apply(old(View()), M.DoRecoverFinish)
    {
      hide S.AfterRestart, S.Persist, S.SetOp, I.Inv, K.Moves, K.Drifts, M.Apply;
      K.RecoverFinishKeeps(View());
      K.AppliedRecoverFinish(View());
      K.InvIsWf(View());
      ghost var unlocked := View().(proc := View().proc.(recovering := false, restarted := None,
        started := restarted.value && !closed, nativeLost := false));
      recovering := false;
      started := restarted.value && !closed;
      nativeLost := false;
      restarted := None;
      assert View() == unlocked;
      if started {
        AfterRestart();
      } else {
        PutOffHolder();
      }
      Persist();
    }

    // ---- events -----------------------------------------------------------------------------------

    method Check(id: OpId)
      requires Wf() && id in operations.at
      modifies this
      ensures Wf() && View() == S.Check(old(View()), id)
    {
      var operation := operations.at[id];
      var info := NativeGetUser();
      if info.None? || operation.userId.None? {
        return;
      }
      if !S.Owns(info.value, operation.userId.value, operation.email) {
        End(id, Failed, Some(AddressMismatch));
        DropAttemptUser(id);
        Release(id);
        return;
      }
      if !info.value.connected {
        return;
      }
      if info.value.split {
        SetOperation(id, operation.(state := Connected, errorCode := None));
        Release(id);
        return;
      }
      if !operation.splitRequested {
        SetOperation(id, operation.(splitRequested := true));
        var _ := NativeCall();
      }
    }

    method OnLoginError(code: LoginErrorCode)
      requires Wf()
      modifies this
      ensures Wf() && View() == S.OnLoginError(old(View()), code)
    {
      if S.Holder(View()).None? {
        return;
      }
      var id := slot.value;
      if code.TfaError? || code.TwoPasswordsError? {
        if Active(operations.at[id].state) {
          SetOperation(id, operations.at[id].(state := if code.TfaError? then Needs2fa else NeedsSecondPassword,
                                              errorCode := Some(InvalidChallenge)));
        }
        return;
      }
      if Active(operations.at[id].state) {
        End(id, Failed, Some(S.LoginErrorResult(code)));
      }
      Release(id);
    }

    method OnLoginFinished(finished: bool, user: Option<UserId>)
      requires Wf()
      modifies this
      ensures Wf() && View() == S.OnLoginFinished(old(View()), finished, user)
    {
      if S.Holder(View()).None? || user.None? {
        return;
      }
      var id := slot.value;
      var operation := operations.at[id].(userId := user,
                                          createdByAttempt := finished && user.value !in operations.at[id].preexisting);
      if Active(operation.state) {
        SetOperation(id, operation.(state := Checking));
        Check(id);
      } else {
        SetOperation(id, operation);
        DropAttemptUser(id);
        Release(id);
      }
    }

    method OnUserChanged(u: UserId)
      requires Wf()
      modifies this
      ensures Wf() && View() == S.OnUserChanged(old(View()), u)
    {
      if u in pendingRemovals.at {
        var users := NativeListUsers();
        if users.Some? && u !in users.value {
          pendingRemovals := pendingRemovals.Drop(u);
        }
      }
      var todo := operations.order;
      ghost var before := View();
      var i := 0;
      while i < |todo|
        invariant 0 <= i <= |todo| && Wf()
        invariant S.CheckAll(View(), todo[i..], u) == S.CheckAll(before, todo, u)
      {
        if todo[i] in operations.at && operations.at[todo[i]].state.Checking? && operations.at[todo[i]].userId == Some(u) {
          Check(todo[i]);
        }
        i := i + 1;
      }
    }

    method OnEvent(ev: Event)
      requires Wf()
      modifies this
      ensures Wf() && View() == S.OnEvent(old(View()), ev)
    {
      var holder := S.Holder(View());
      match ev {
      case NeedsTwoFactorEvent =>
        if holder.Some? && Active(holder.value.state) {
          SetOperation(slot.value, holder.value.(state := Needs2fa));
        }
      case NeedsSecondPasswordEvent =>
        if holder.Some? && Active(holder.value.state) {
          SetOperation(slot.value, holder.value.(state := NeedsSecondPassword));
        }
      case LoginErrorEvent(code) =>
        OnLoginError(code);
      case HumanVerificationEvent =>
        if holder.Some? && Active(holder.value.state) {
          StopAttempt(slot.value, Failed, Some(VerificationRequired));
        }
      case FinishedEvent(user) =>
        OnLoginFinished(true, user);
      case AlreadyLoggedInEvent(user) =>
        OnLoginFinished(false, user);
      case UserChangedEvent(u) =>
        OnUserChanged(u);
      case StreamEndedEvent =>
        nativeLost := true;
      case NoKeychainEvent =>
      }
      Persist();
    }

    /** Bridge's event stream delivers ev; after its terminal event a sign-in is over in Bridge. */
    method Deliver(ev: Event)
      requires Valid() && Lives()
      modifies this
      ensures Valid() && View() == M.Apply(old(View()), M.Deliver(ev))
    {
      hide I.Inv, K.Moves, K.Drifts, S.OnEvent;
      K.DeliveredKeeps(View(), ev);
      K.AppliedEvent(View(), ev);
      K.InvIsWf(View());
      if M.CanSend(native, ev) {
        if M.Terminal(ev) {
          native := native.(login := Idle);
        }
        OnEvent(ev);
      }
    }
  }
}
