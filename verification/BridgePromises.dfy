/** What the controller promises of sign-ins, links, attempts and removals, over whole runs. */
module BridgePromises {
  import opened Wrappers
  import opened Dicts
  import opened BridgeTypes
  import opened BridgeSpec
  import opened BridgeMachine
  import opened BridgeShape
  import opened BridgeInvariant
  import opened BridgeSections
  import opened BridgeFrames

  // ---- runs ---------------------------------------------------------------------------------------

  /** The state after the first k moves. */
  function After(s: State, moves: seq<Move>, k: nat): State
    requires k <= |moves|
  {
    Run(s, moves[..k])
  }

  lemma AfterStep(s: State, moves: seq<Move>, k: nat)
    requires k < |moves|
    ensures After(s, moves, k + 1) == Do(After(s, moves, k), moves[k])
  {
    assert moves[..k + 1][..k] == moves[..k];
  }

  /** The invariant holds along every run from a state that has it. */
  lemma {:induction false} AfterKeeps(s: State, moves: seq<Move>, k: nat)
    requires Inv(s) && k <= |moves|
    ensures Inv(After(s, moves, k))
  {
    hide Inv, Do;
    if k == 0 {
      assert moves[..0] == [];
    } else {
      AfterKeeps(s, moves, k - 1);
      AfterStep(s, moves, k - 1);
      StepKeeps(After(s, moves, k - 1), moves[k - 1]);
    }
  }

  // ---- the sign-in slot ---------------------------------------------------------------------------

  /** At most one attempt is active, it holds the slot, the slot names a known attempt and never a connected
      one, and every sign-in reached Bridge journaled, as the slot holder, with nothing else outstanding. */
  ghost predicate SlotProtocol(s: State) {
    && (forall a, b :: a in s.ops.at && b in s.ops.at && Active(s.ops.at[a].state) && Active(s.ops.at[b].state) ==> a == b)
    && (forall a :: a in s.ops.at && Active(s.ops.at[a].state) ==> s.slot == Some(a))
    && (s.slot.Some? ==> s.slot.value in s.ops.at && !s.ops.at[s.slot.value].state.Connected?)
    && (forall c :: c in s.env.calls && c.CalledLogin? ==> c.journaled && !c.busy)
  }

  lemma SlotProtocolHolds(cfg: Config, clock: nat, users: set<UserId>, moves: seq<Move>)
    ensures SlotProtocol(Run(Init(cfg, clock, users), moves))
  {
    hide Run, Init, DiskOk;
    RunKeeps(cfg, clock, users, moves);
    var s := Run(Init(cfg, clock, users), moves);
    assert forall c :: c in s.env.calls ==> CallOk(c);
  }

  /** native.login is reached only by starting an attempt nobody knows, once, and the attempt is then known. */
  lemma LoginOnlyForNew(s: State, m: Move)
    requires Inv(s)
    ensures var t := Do(s, m);
      Logins(t.env.calls) == Logins(s.env.calls) ||
      (m.step.DoStart? && m.step.id !in s.ops.at && m.step.id in t.ops.at && !Busy(s) &&
       Logins(t.env.calls) == Logins(s.env.calls) + [m.step.id])
  {
    hide CoreAt, DiskOk, Logins, Apply, Framed;
    if s.env.dead && !m.step.Reload? {
      DeadStays(s, m);
    } else if m.step.DoStart? {
      TapeKeeps(s, m.tape);
      assert Do(s, m) == StartConnection(s.(env := s.env.(tape := m.tape)), m.step.id, m.step.email, m.step.password).0 by { ApplyStart(s, m); }
      StartLogs(s.(env := s.env.(tape := m.tape)), m.step.id, m.step.email, m.step.password);
    } else if m.step.Reload? {
      assert Do(s, m) == Reloaded(s.(env := s.env.(tape := m.tape))) by { ApplyReload(s, m); }
    } else {
      Frames(s, m);
      assert Logins(Do(s, m).env.calls) == Logins(s.env.calls) by { FramedLogins(s, m.step, Do(s, m)); }
    }
  }

  /** Nothing happens between the death of a worker and the start of the next one. */
  lemma DeadStays(s: State, m: Move)
    requires s.env.dead && !m.step.Reload?
    ensures Do(s, m) == s.(env := s.env.(tape := m.tape))
  {
  }

  lemma ApplyStart(s: State, m: Move)
    requires m.step.DoStart? && !s.env.dead
    ensures Do(s, m) == StartConnection(s.(env := s.env.(tape := m.tape)), m.step.id, m.step.email, m.step.password).0
  {
    hide StartConnection;
  }

  lemma ApplyReload(s: State, m: Move)
    requires m.step.Reload?
    ensures Do(s, m) == Reloaded(s.(env := s.env.(tape := m.tape)))
  {
    hide Reloaded;
  }

  lemma FramedLogins(s: State, step: Step, t: State)
    requires Framed(s, step, t) && !step.DoStart?
    ensures Logins(t.env.calls) == Logins(s.env.calls)
  {
    hide Logins, OpFlow, CallsSpare, RemovalsKept;
  }

  lemma StartLogs(s: State, id: OpId, email: Email, password: string)
    requires Inv(s)
    ensures var t := StartConnection(s, id, email, password).0;
      Logins(t.env.calls) == Logins(s.env.calls) ||
      (id !in s.ops.at && id in t.ops.at && !Busy(s) && Logins(t.env.calls) == Logins(s.env.calls) + [id])
  {
    hide EnsureStarted, ListUsers, SignIn, CoreAt, DiskOk, Flow, Moves, Housekeeping, Logins;
    if id !in s.ops.at && !Busy(s) {
      EnsureStartedKeeps(s, s.env.clock);
      var (t, error) := EnsureStarted(s);
      KeepsInv(s, t);
      FlowNoLogin(s, t);
      if error.None? && !Busy(t) {
        CoreHasBase(t, s.env.clock);
        ListUsersKeeps(t);
        var (l, users) := ListUsers(t);
        HousekeepingInv(t, l);
        HousekeepingFlows(t, l);
        FlowNoLogin(t, l);
        if users.Some? {
          RunningIsNotDead(l, l.env.clock);
          assert !Busy(l);
          StartedStays(s, t, error);
          SignInKeeps(l, id, email, users.value);
        }
      }
    }
  }

  /** While an attempt is remembered it reaches native.login no second time, whatever happens, also across
      restarts of the worker. */
  lemma {:induction false} NoSecondLogin(s: State, moves: seq<Move>, id: OpId, k: nat)
    requires Inv(s) && k <= |moves|
    requires forall i :: 0 <= i < k ==> id in After(s, moves, i).ops.at
    ensures var before, now := Logins(s.env.calls), Logins(After(s, moves, k).env.calls);
      before <= now && id !in now[|before|..]
  {
    hide Inv, Do, Logins;
    if k == 0 {
      assert moves[..0] == [];
    } else {
      NoSecondLogin(s, moves, id, k - 1);
      AfterKeeps(s, moves, k - 1);
      AfterStep(s, moves, k - 1);
      LoginOnlyForNew(After(s, moves, k - 1), moves[k - 1]);
    }
  }

  /** No sign-in reaches Bridge while an attempt is still marked for reconciliation. */
  lemma {:induction false} NoLoginBeforeReconciled(s: State, moves: seq<Move>, k: nat)
    requires Inv(s) && k <= |moves|
    requires forall i :: 0 <= i < k ==> ReconcilePending(After(s, moves, i))
    ensures Logins(After(s, moves, k).env.calls) == Logins(s.env.calls)
  {
    hide Inv, Do, Logins, BusyElsewhere, ReconcilePending;
    if k == 0 {
      assert moves[..0] == [];
    } else {
      NoLoginBeforeReconciled(s, moves, k - 1);
      AfterKeeps(s, moves, k - 1);
      AfterStep(s, moves, k - 1);
      PendingIsBusy(After(s, moves, k - 1));
      LoginOnlyForNew(After(s, moves, k - 1), moves[k - 1]);
    }
  }

  lemma PendingIsBusy(s: State)
    requires ReconcilePending(s)
    ensures Busy(s)
  {
  }

  // ---- crashes ------------------------------------------------------------------------------------

  /** Wherever the worker dies, between critical sections or at a native call inside one, a new worker starts
      from the journal in a state that has the whole invariant: with the links and attempts of the journal, its
      removals, no sign-in, and every attempt the journal has active ended and marked. */
  lemma CrashSafe(s: State)
    requires Inv(s)
    ensures var t := Reloaded(s);
      && Inv(t) && !t.env.dead && t.links == s.disk.links && t.slot.None? && t.ops.at.Keys == s.disk.ops.at.Keys && t.disk == s.disk
      && (forall u :: u in t.pending.at <==> u in s.disk.reasons)
      && (forall u :: u in t.pending.at ==> t.pending.at[u] == Removal(s.disk.reasons[u], s.env.clock, 0, false))
      && (forall id :: id in t.ops.at ==>
            && !Active(t.ops.at[id].state)
            && t.ops.at[id].reconcile == (s.disk.ops.at[id].reconcile || Active(s.disk.ops.at[id].state))
            && t.ops.at[id].email == s.disk.ops.at[id].email && t.ops.at[id].preexisting == s.disk.ops.at[id].preexisting
            && t.ops.at[id].committed == s.disk.ops.at[id].committed)
  {
    hide Inv, Loses, LinksOk, HasLink, JournaledOk;
    ReloadKeeps(s);
  }

  /** The journal of a worker that lives has the links and attempts of its memory. */
  lemma JournalInStep(s: State)
    requires Inv(s) && !s.env.dead
    ensures s.disk.links == s.links && s.disk.ops.at.Keys == s.ops.at.Keys
    ensures forall id :: id in s.ops.at ==>
      && s.disk.ops.at[id].email == s.ops.at[id].email && s.disk.ops.at[id].preexisting == s.ops.at[id].preexisting
      && s.disk.ops.at[id].committed == s.ops.at[id].committed
  {
    hide Core, JournalOk;
  }

  /** After a crash in the middle of a sign-in nothing signs in until Bridge's users were reconciled. */
  lemma NoLoginBeforeCrashReconciled(s: State, id: OpId, moves: seq<Move>, k: nat)
    requires Inv(s) && id in s.disk.ops.at && Active(s.disk.ops.at[id].state) && k <= |moves|
    requires forall i :: 0 < i < k ==> ReconcilePending(After(Reloaded(s), moves, i))
    ensures Logins(After(Reloaded(s), moves, k).env.calls) == Logins(s.env.calls)
  {
    hide Inv, Do, Logins, Loaded, Loses;
    CrashSafe(s);
    var t := Reloaded(s);
    assert t.env.calls == s.env.calls by { LoadedRest(s.cfg, s.disk, s.env.(running := false, login := Idle, dead := false)); }
    if k > 0 {
      assert After(t, moves, 0) == t by { assert moves[..0] == []; }
      assert t.ops.at[id].reconcile;
      assert ReconcilePending(After(t, moves, 0));
      NoLoginBeforeReconciled(t, moves, k);
    } else {
      assert moves[..0] == [];
    }
  }

  // ---- links --------------------------------------------------------------------------------------

  /** No step but a commit or a removal touches the links of the journal, whatever dies on the way. */
  lemma DurableLinks(s: State, m: Move)
    requires Inv(s) && !m.step.DoCommit? && !m.step.DoRemove?
    ensures Do(s, m).disk.links == s.disk.links
  {
    hide Core, DiskOk, Framed, Reloaded, OpFlow, Do;
    if s.env.dead && !m.step.Reload? {
      DeadStays(s, m);
    } else if m.step.Reload? {
      ApplyReload(s, m);
      TapeKeeps(s, m.tape);
      CrashSafe(s.(env := s.env.(tape := m.tape)));
    } else {
      Frames(s, m);
      FramedJournal(s, m.step, Do(s, m));
      JournalInStep(s);
    }
  }

  lemma FramedJournal(s: State, step: Step, t: State)
    requires Framed(s, step, t) && !step.DoCommit? && !step.DoRemove?
    ensures JournalMoves(s.disk, s.links, s.ops.at, t.disk) && t.links == s.links
  {
    hide Logins, OpFlow, CallsSpare, RemovalsKept;
  }

  lemma CommitSurvives(s: State, m: Move)
    requires m.step.DoCommit?
    ensures Do(s, m).env.dead == s.env.dead
  {
    hide Save;
  }

  /** The links are those of the journal, which are those of memory as long as the worker lives: a link changes
      its generation only through a commit that names the current one, goes only through a removal that names
      it, and appears only through a commit of a signed-in attempt of its user and address. */
  lemma LinkDiscipline(s: State, m: Move, key: LinkKey)
    requires Inv(s)
    ensures var t := Do(s, m); var before, after := s.disk.links, t.disk.links;
      && (key in before && key in after && after[key].generation != before[key].generation ==>
            m.step.DoCommit? && m.step.user == key.user && m.step.generation == after[key].generation &&
            m.step.previous == Some(before[key].generation))
      && (key in before && key !in after ==>
            m.step.DoRemove? && key == LinkKey(m.step.user, Lower(m.step.email)) && m.step.generation == before[key].generation)
      && (key !in before && key in after ==>
            m.step.DoCommit? && m.step.user == key.user && m.step.generation == after[key].generation &&
            m.step.id in s.ops.at && s.ops.at[m.step.id].state.Connected? && s.ops.at[m.step.id].userId == Some(key.user) &&
            Lower(s.ops.at[m.step.id].email) == key.address && key.user !in s.pending.at)
  {
    hide Inv, Do;
    var t := Do(s, m);
    if s.env.dead && !m.step.Reload? {
      DeadStays(s, m);
    } else if m.step.DoCommit? {
      StepKeeps(s, m);
      CommitSurvives(s, m);
      JournalInStep(s);
      JournalInStep(t);
      CommitLinks(s, m);
    } else if m.step.DoRemove? {
      TapeKeeps(s, m.tape);
      StepKeeps(s, m);
      var q := s.(env := s.env.(tape := m.tape));
      ApplyRemove(s, m);
      RemoveLinks(q, m.step.user, m.step.generation, m.step.email);
      RemoveKeeps(q, m.step.user, m.step.generation, m.step.email);
      JournalInStep(s);
      if !t.env.dead {
        JournalInStep(t);
      }
    } else {
      DurableLinks(s, m);
    }
  }

  lemma ApplyRemove(s: State, m: Move)
    requires m.step.DoRemove? && !s.env.dead
    ensures Do(s, m) == RemoveUser(s.(env := s.env.(tape := m.tape)), m.step.user, m.step.generation, m.step.email).0
  {
    hide RemoveUser;
  }

  lemma CommitLinks(s: State, m: Move)
    requires m.step.DoCommit?
    ensures var t := Do(s, m);
      t.links == s.links ||
      (m.step.id in s.ops.at &&
       var op := s.ops.at[m.step.id]; var key := LinkKey(m.step.user, Lower(op.email));
       op.state.Connected? && op.userId == Some(m.step.user) && m.step.user !in s.pending.at &&
       t.links == s.links[key := Link(m.step.user, op.email, m.step.generation)] &&
       (key in s.links && s.links[key].generation != m.step.generation ==> m.step.previous == Some(s.links[key].generation)))
  {
    hide Save;
  }

  lemma RemoveLinks(s: State, u: UserId, generation: Generation, email: Email)
    requires Inv(s)
    ensures var t := RemoveUser(s, u, generation, email).0; var key := LinkKey(u, Lower(email));
      t.links == s.links || (key in s.links && s.links[key].generation == generation && t.links == s.links - {key})
  {
    hide EnsureStarted, CoreAt, DiskOk, Flow, Save, BeginRemoval, HasHeir, HasLink;
    EnsureStartedKeeps(s, s.env.clock);
    var t := EnsureStarted(s).0;
    FlowLinks(s, t);
    var key := LinkKey(u, Lower(email));
    BeginRemovalLinks(t.(links := t.links - {key}), u);
    BeginRemovalLinks(s.(links := s.links - {key}), u);
  }

  lemma BeginRemovalLinks(s: State, u: UserId)
    ensures BeginRemoval(s, u, Unlink).links == s.links
  {
    hide BeginRemoval;
    BeginRemovalEntry(s, u, Unlink);
  }

  lemma CallFrame(s: State)
    ensures NativeCall(s).0 == s.(env := NativeCall(s).0.env)
  {
    hide Accountable;
  }

  /** A removal is opened, or its time is renewed; an unlink makes it one. */
  lemma BeginRemovalEntry(s: State, u: UserId, reason: Reason)
    ensures var t := BeginRemoval(s, u, reason);
      && t == s.(pending := t.pending, env := t.env)
      && t.pending.at == s.pending.at[u := t.pending.at[u]]
      && t.pending.at[u] == if u in s.pending.at
           then s.pending.at[u].(since := s.env.clock, reason := if reason.Unlink? then Unlink else s.pending.at[u].reason)
           else Removal(reason, s.env.clock, 0, false)
  {
    hide NativeCall, Linked, Held;
    var item := if u in s.pending.at
                then s.pending.at[u].(since := s.env.clock, reason := if reason.Unlink? then Unlink else s.pending.at[u].reason)
                else Removal(reason, s.env.clock, 0, false);
    CallFrame(RemoveLogged(s.(pending := s.pending.Put(u, item)), u, u !in s.pending.at));
  }

  lemma ListFrame(s: State)
    ensures ListUsers(s).0 == s.(env := ListUsers(s).0.env)
  {
    hide NativeCall;
    CallFrame(s);
  }

  /** A link stays as it is through every run in which nobody names its generation. */
  lemma {:induction false} LinkStays(s: State, moves: seq<Move>, key: LinkKey, k: nat)
    requires Inv(s) && k <= |moves| && key in s.disk.links
    requires forall i :: 0 <= i < k ==>
      match moves[i].step
      case DoCommit(_, _, generation, previous) => previous != Some(s.disk.links[key].generation)
      case DoRemove(_, generation, _) => generation != s.disk.links[key].generation
      case _ => true
    ensures key in After(s, moves, k).disk.links && After(s, moves, k).disk.links[key].generation == s.disk.links[key].generation
  {
    hide Inv, Do;
    if k == 0 {
      assert moves[..0] == [];
    } else {
      LinkStays(s, moves, key, k - 1);
      AfterKeeps(s, moves, k - 1);
      AfterStep(s, moves, k - 1);
      LinkDiscipline(After(s, moves, k - 1), moves[k - 1], key);
    }
  }

  // ---- committed attempts -------------------------------------------------------------------------

  /** Attempt id is committed in the journal, and in memory as long as the worker lives. */
  ghost predicate Committed(s: State, id: OpId) {
    && id in s.disk.ops.at && s.disk.ops.at[id].committed && s.disk.ops.at[id].state.Connected?
    && (!s.env.dead ==> id in s.ops.at && s.ops.at[id].committed && s.ops.at[id].state.Connected?)
  }

  lemma CommittedIs(s: State, id: OpId)
    requires Inv(s) && id in s.disk.ops.at
    ensures Committed(s, id) <==> s.disk.ops.at[id].committed
  {
    hide SlotOk, LoginOk, ProcOk, SealOk, LeasesOk, LinksOk, PendingOk, CallsOk;
    assert JournaledOk(s.disk.ops.at[id]);
    if !s.env.dead {
      assert OpOk(s.ops.at[id], s.env.clock);
    }
  }

  /** A committed attempt is connected and stays so for as long as it is remembered. */
  lemma CommittedStays(s: State, m: Move, id: OpId)
    requires Inv(s) && id in s.disk.ops.at && s.disk.ops.at[id].committed && id in Do(s, m).disk.ops.at
    ensures Committed(Do(s, m), id)
  {
    hide Inv, Framed, Reloaded, Do, Committed;
    StepKeeps(s, m);
    var t := Do(s, m);
    CommittedIs(t, id);
    if s.env.dead && !m.step.Reload? {
      DeadStays(s, m);
    } else if m.step.Reload? {
      ApplyReload(s, m);
      TapeKeeps(s, m.tape);
      CrashSafe(s.(env := s.env.(tape := m.tape)));
    } else {
      JournalInStep(s);
      if m.step.DoCommit? {
        CommitSurvives(s, m);
        JournalInStep(t);
        CommitKeepsCommitted(s, m, id);
      } else if m.step.DoRemove? {
        TapeKeeps(s, m.tape);
        ApplyRemove(s, m);
        RemoveKeeps(s.(env := s.env.(tape := m.tape)), m.step.user, m.step.generation, m.step.email);
        if !t.env.dead {
          JournalInStep(t);
          Frames(s, m);
          FramedFlows(s, m.step, t, id);
        }
      } else {
        Frames(s, m);
        FramedJournal(s, m.step, t);
      }
    }
  }

  lemma CommitKeepsCommitted(s: State, m: Move, id: OpId)
    requires m.step.DoCommit? && id in s.ops.at && s.ops.at[id].committed
    ensures id in Do(s, m).ops.at && Do(s, m).ops.at[id].committed
  {
    hide Save;
  }

  lemma FramedFlows(s: State, step: Step, t: State, id: OpId)
    requires Framed(s, step, t) && !step.DoCommit? && id in s.ops.at && id in t.ops.at
    ensures OpFlow(s.ops.at[id], t.ops.at[id], s.env.clock, t.env.clock, s.env.fails < t.env.fails || RecoveryFailed(s, step))
  {
    hide Logins, OpFlow, CallsSpare, RemovalsKept;
  }

  lemma {:induction false} CommittedStaysOverRuns(s: State, moves: seq<Move>, id: OpId, k: nat)
    requires Inv(s) && k <= |moves| && id in s.disk.ops.at && s.disk.ops.at[id].committed
    requires forall i :: 0 <= i <= k ==> id in After(s, moves, i).disk.ops.at
    ensures Committed(After(s, moves, k), id)
  {
    hide Inv, Do;
    if k == 0 {
      assert moves[..0] == [];
      CommittedIs(s, id);
    } else {
      CommittedStaysOverRuns(s, moves, id, k - 1);
      AfterKeeps(s, moves, k - 1);
      AfterStep(s, moves, k - 1);
      CommittedStays(After(s, moves, k - 1), moves[k - 1], id);
    }
  }

  lemma MovesAt(s: State, t: State, id: OpId)
    requires Moves(s, t) && id in t.ops.at
    ensures id in s.ops.at && OpFlow(s.ops.at[id], t.ops.at[id], s.env.clock, t.env.clock, s.env.fails < t.env.fails)
  {
    hide OpFlow, Logins;
  }

  /** An attempt that tick is about to forget has ended or is committed: an attempt ends no earlier than it was
      created, so one old enough to be forgotten is old enough to expire first. */
  lemma ForgottenHasEnded(s: State, id: OpId)
    requires Core(s) && s.gate.snapshot.None?
    requires var b := TickWork(s).0; id in b.ops.at && Prunable(b, id, s.env.clock)
    ensures var op := TickWork(s).0.ops.at[id]; Ended(op.state) || op.committed
  {
    hide CoreAt, TickWork, OpFlow;
    var now := s.env.clock;
    TickWorkKeeps(s);
    WorkSettles(s);
    var b := TickWork(s).0;
    CoreHasBase(b, now);
    CoreHasBase(s, now);
    OpsOkAt(b.ops, b.env.clock, id);
    MovesAt(s, b, id);
    OpsOkListed(s.ops, now, id);
    assert b.cfg == s.cfg;
  }

  lemma OpsOkListed(ops: Dict<OpId, Operation>, clock: nat, id: OpId)
    requires OpsOk(ops, clock) && id in ops.at
    ensures id in ops.order
  {
  }

  // ---- recoveries ---------------------------------------------------------------------------------

  /** The move recovers Bridge. */
  predicate Recovers(s: State, m: Move) {
    m.step.DoRecoverNative? && s.proc.recovering && s.proc.restarted.None? && !s.env.dead
  }

  lemma RecoverySpacing(s: State, m: Move)
    requires Inv(s) && !m.step.Reload?
    ensures var t := Do(s, m);
      if Recovers(s, m)
      then t.proc.lastRecoveryAt == Some(s.env.clock) &&
           (s.proc.lastRecoveryAt.Some? ==> s.proc.lastRecoveryAt.value + Min(s.cfg.recoverySeconds, RECOVERY_BACKOFF_CAP) <= s.env.clock)
      else t.proc.lastRecoveryAt == s.proc.lastRecoveryAt
  {
    hide Base, SlotOk, LoginOk, LeasesOk, SealOk, DiskOk, Framed, Do;
    if m.step.DoRecoverNative? {
      RecoverStamps(s, m);
    } else {
      Frames(s, m);
      FramedRecovery(s, m.step, Do(s, m));
    }
  }

  lemma RecoverStamps(s: State, m: Move)
    requires m.step.DoRecoverNative?
    ensures Do(s, m).proc.lastRecoveryAt == if Recovers(s, m) then Some(s.env.clock) else s.proc.lastRecoveryAt
  {
    hide Accountable;
  }

  lemma FramedRecovery(s: State, step: Step, t: State)
    requires Framed(s, step, t) && !step.DoRecoverNative?
    ensures t.proc.lastRecoveryAt == s.proc.lastRecoveryAt
  {
    hide Logins, OpFlow, CallsSpare, RemovalsKept;
  }

  lemma {:induction false} RecoveryRemembered(s: State, moves: seq<Move>, i: nat, k: nat)
    requires Inv(s) && i < k <= |moves| && Recovers(After(s, moves, i), moves[i])
    requires forall n :: i <= n < k ==> !moves[n].step.Reload?
    ensures var last := After(s, moves, k).proc.lastRecoveryAt; last.Some? && After(s, moves, i).env.clock <= last.value
    ensures After(s, moves, k).cfg == After(s, moves, i).cfg
  {
    hide Inv, Do, Framed;
    AfterKeeps(s, moves, k - 1);
    AfterStep(s, moves, k - 1);
    RecoverySpacing(After(s, moves, k - 1), moves[k - 1]);
    Frames(After(s, moves, k - 1), moves[k - 1]);
    assert After(s, moves, k).cfg == After(s, moves, k - 1).cfg by { FramedCfg(After(s, moves, k - 1), moves[k - 1].step, After(s, moves, k)); }
    if k > i + 1 {
      RecoveryRemembered(s, moves, i, k - 1);
      if Recovers(After(s, moves, k - 1), moves[k - 1]) {
        assert After(s, moves, k - 1).proc.lastRecoveryAt.value <= After(s, moves, k - 1).env.clock;
      }
    }
  }

  lemma FramedCfg(s: State, step: Step, t: State)
    requires Framed(s, step, t)
    ensures t.cfg == s.cfg
  {
    hide Logins, OpFlow, CallsSpare, RemovalsKept;
  }

  /** Two recoveries of Bridge by one worker are at least min(recovery_seconds, 300) apart. */
  lemma RecoveriesApart(s: State, moves: seq<Move>, i: nat, j: nat)
    requires Inv(s) && i < j < |moves| && Recovers(After(s, moves, i), moves[i]) && Recovers(After(s, moves, j), moves[j])
    requires forall n :: i <= n < j ==> !moves[n].step.Reload?
    ensures After(s, moves, i).env.clock + Min(After(s, moves, i).cfg.recoverySeconds, RECOVERY_BACKOFF_CAP) <= After(s, moves, j).env.clock
  {
    hide Inv, Do, Framed;
    RecoveryRemembered(s, moves, i, j);
    AfterKeeps(s, moves, j);
    RecoverySpacing(After(s, moves, j), moves[j]);
  }
}
