/** What each step leaves alone. */
module BridgeFrames {
  import opened Wrappers
  import opened Dicts
  import opened BridgeTypes
  import opened BridgeSpec
  import opened BridgeMachine
  import opened BridgeShape
  import opened BridgeInvariant
  import opened BridgeSections

  /** Attempts that both states know have flowed from s to t. */
  ghost predicate Flows(s: State, t: State, late: bool) {
    forall id :: id in s.ops.at && id in t.ops.at ==> OpFlow(s.ops.at[id], t.ops.at[id], s.env.clock, t.env.clock, late)
  }

  /** A recovery ends without Bridge. */
  predicate RecoveryFailed(s: State, step: Step) {
    step.DoRecoverFinish? && s.proc.restarted.Some? && (!s.proc.restarted.value || s.proc.closed)
  }

  /** The steps that change each part of the state. */
  ghost predicate Framed(s: State, step: Step, t: State) {
    && t.cfg == s.cfg && s.env.clock <= t.env.clock && s.env.fails <= t.env.fails
    && (t.links == s.links || step.DoCommit? || step.DoRemove?)
    && ((t.gate.leases == s.gate.leases && t.gate.cancelled == s.gate.cancelled) || step.DoAcquire? || step.DoRelease?)
    && (GateMoves(s, t) || step.DoBegin? || step.DoRecoverNative?)
    && (Logins(t.env.calls) == Logins(s.env.calls) || step.DoStart?)
    && (t.slot == s.slot || t.slot.None? || step.DoStart?)
    && (Flows(s, t, s.env.fails < t.env.fails || RecoveryFailed(s, step)) || step.DoCommit?)
    && (forall id :: id in t.ops.at && id !in s.ops.at ==> step.DoStart? && id == step.id)
    && (forall id :: id in s.ops.at && id !in t.ops.at ==> step.DoTick?)
    && (t.env.lastTick == s.env.lastTick || step.DoTick?)
    && (t.proc.recovering == s.proc.recovering || step.DoTick? || step.DoRecoverFinish?)
    && (t.proc.restarted == s.proc.restarted || step.DoRecoverNative? || step.DoRecoverFinish?)
    && (t.proc.closed == s.proc.closed || step.DoShutdown?)
    && (step.DoRecoverNative? ||
        (t.proc.lastRecoveryAt == s.proc.lastRecoveryAt && t.proc.nextRecoveryAt == s.proc.nextRecoveryAt &&
         t.proc.recoveryStreak == s.proc.recoveryStreak))
    && (s.env.dead ==> t.env.dead) && s.env.calls <= t.env.calls
    && (JournalMoves(s.disk, s.links, s.ops.at, t.disk) || step.DoCommit? || step.DoRemove?)
    && (CallsSpare(s.links, s.env.calls, t.env.calls) || step.DoRemove?)
    && (t.env.dead || RemovalsKept(s.pending.at, t.pending.at, s.env.calls, t.env.calls))
  }

  lemma MovesFramed(s: State, step: Step, t: State)
    requires Moves(s, t)
    ensures Framed(s, step, t)
  {
    hide OpFlow, Logins, CallsSpare, RemovalsKept;
    Later(s, t, s.env.fails < t.env.fails, s.env.fails < t.env.fails || RecoveryFailed(s, step));
  }

  lemma FramedFrom(s: State, tape: seq<Answer>, step: Step, t: State)
    requires Framed(s.(env := s.env.(tape := tape)), step, t)
    ensures Framed(s, step, t)
  {
    hide OpFlow, Logins, CallsSpare, RemovalsKept;
  }

  lemma Later(s: State, t: State, early: bool, late: bool)
    requires Flows(s, t, early) && (early ==> late)
    ensures Flows(s, t, late)
  {
  }

  lemma SameOps(s: State, t: State)
    requires t.ops == s.ops && s.env.clock <= t.env.clock
    ensures forall late :: Flows(s, t, late)
  {
  }

  lemma RemoveFramed(s: State, u: UserId, generation: Generation, email: Email)
    requires Inv(s)
    ensures Framed(s, DoRemove(u, generation, email), RemoveUser(s, u, generation, email).0)
  {
    hide RemoveUser, OpFlow, Logins, CoreAt, DiskOk, CallsSpare, RemovalsKept;
    RemoveKeeps(s, u, generation, email);
    var t := RemoveUser(s, u, generation, email).0;
    Later(s, t, s.env.fails < t.env.fails, s.env.fails < t.env.fails || RecoveryFailed(s, DoRemove(u, generation, email)));
  }

  /** A new attempt enters; the others flow. */
  lemma StartFramed(s: State, id: OpId, email: Email, password: string)
    requires Inv(s)
    ensures Framed(s, DoStart(id, email, password), StartConnection(s, id, email, password).0)
  {
    hide EnsureStarted, ListUsers, SignIn, CoreAt, DiskOk, Flow, Moves, Housekeeping, Framed, Logins;
    MovesReflexive(s);
    MovesFramed(s, DoStart(id, email, password), s);
    if id !in s.ops.at && !Busy(s) {
      EnsureStartedKeeps(s, s.env.clock);
      var (t, error) := EnsureStarted(s);
      KeepsInv(s, t);
      MovesFramed(s, DoStart(id, email, password), t);
      if error.None? && !Busy(t) {
        CoreHasBase(t, s.env.clock);
        ListUsersKeeps(t);
        var (l, users) := ListUsers(t);
        HousekeepingInv(t, l);
        MovesTransitive(s, t, l);
        MovesFramed(s, DoStart(id, email, password), l);
        if users.Some? {
          FlowKeys(s, t);
          assert !Busy(l);
          StartedStays(s, t, error);
          RunningIsNotDead(l, l.env.clock);
          SignInFlows(s, l, id, email, users.value);
          SignInFramed(s, l, id, email, password, users.value);
        }
      }
    }
  }

  /** What a new attempt leaves of the others. */
  ghost predicate Entered(s: State, t: State, id: OpId) {
    && t.cfg == s.cfg && t.links == s.links && t.gate == s.gate
    && s.env.clock <= t.env.clock && s.env.fails <= t.env.fails && t.env.lastTick == s.env.lastTick
    && (t.env.running ==> s.env.running) && t.slot == Some(id) && t.proc == s.proc && t.ops.at.Keys == s.ops.at.Keys + {id}
    && (s.env.dead ==> t.env.dead) && t.pending == s.pending && JournalMoves(s.disk, s.links, s.ops.at, t.disk)
    && s.env.calls <= t.env.calls && (forall i :: |s.env.calls| <= i < |t.env.calls| ==> t.env.calls[i].CalledLogin?)
    && (forall o :: o in s.ops.at ==> OpFlow(s.ops.at[o], t.ops.at[o], s.env.clock, t.env.clock, s.env.fails < t.env.fails))
    && (var op := t.ops.at[id];
        && s.env.clock <= op.createdAt <= t.env.clock && op.userId.None?
        && (Active(op.state) || (Ended(op.state) && op.endedAt.Some? && op.createdAt <= op.endedAt.value <= t.env.clock)))
  }

  /** Writing memory with more attempts or fewer, and the same links and commits. */
  lemma SavedCommits(s: State, t: State)
    requires t.links == s.links
    requires forall id :: id in t.ops.at && id in s.ops.at ==> t.ops.at[id].committed == s.ops.at[id].committed
    ensures JournalMoves(s.disk, s.links, s.ops.at, Save(t))
  {
    forall id | id in Save(t).ops.at && id in s.ops.at
      ensures Save(t).ops.at[id].committed == s.ops.at[id].committed
    {
      assert Save(t).ops.at[id] == Written(t.ops.at[id]);
    }
  }

  lemma CallLoginEnv(s: State, id: OpId)
    requires Inv(LoginLogged(s, id))
    ensures var t := CallLogin(s, id).0;
      t == s.(env := t.env) && s.env.clock <= t.env.clock && s.env.fails <= t.env.fails && t.env.lastTick == s.env.lastTick &&
      (t.env.running ==> s.env.running) && (s.env.dead ==> t.env.dead) && t.env.calls == LoginLogged(s, id).env.calls
  {
    hide CoreAt, DiskOk, NativeCall, LoginLogged, Logins, OpsKept, Base;
    LoggedClock(s, id);
    CoreHasBase(LoginLogged(s, id), s.env.clock);
    NativeCallKeeps(LoginLogged(s, id));
  }

  lemma SignInEnters(s: State, id: OpId, email: Email, preexisting: set<UserId>)
    requires Inv(s) && !Busy(s) && id !in s.ops.at && s.proc.started && !s.env.dead
    ensures Entered(s, SignIn(s, id, email, preexisting), id)
  {
    hide CoreAt, DiskOk, CallLogin, BusyElsewhere, Logins, Save, LoginLogged, OpFlow, JournalMoves;
    EnterKeeps(s, id, email, preexisting);
    var t := Persist(s.(ops := s.ops.Put(id, NewOperation(id, email, s.env.clock, preexisting)), slot := Some(id)));
    LoggedKeeps(t, id);
    LoggedClock(t, id);
    CallLoginEnv(t, id);
    SameFlow();
    SavedCommits(s, t.(disk := s.disk));
    SavedCommits(s, End(CallLogin(t, id).0, id, Failed, Some(Unavailable)));
  }

  lemma SameFlow()
    ensures forall o, c, d, late :: c <= d ==> OpFlow(o, o, c, d, late)
  {
  }

  /** Others flow through a sign-in as they flowed up to it. */
  lemma SignInFlows(s: State, l: State, id: OpId, email: Email, preexisting: set<UserId>)
    requires Moves(s, l) && Inv(l) && !Busy(l) && id !in l.ops.at && l.proc.started && !l.env.dead
    ensures var r := SignIn(l, id, email, preexisting); Entered(l, r, id) && Flows(s, r, s.env.fails < r.env.fails)
  {
    hide SignIn, CoreAt, DiskOk, Logins, BusyElsewhere, OpFlow, CallsSpare, RemovalsKept;
    SignInEnters(l, id, email, preexisting);
    var r := SignIn(l, id, email, preexisting);
    forall o | o in s.ops.at && o in r.ops.at
      ensures OpFlow(s.ops.at[o], r.ops.at[o], s.env.clock, r.env.clock, s.env.fails < r.env.fails)
    {
      OpFlowTransitive(s.ops.at[o], l.ops.at[o], r.ops.at[o], s.env.clock, l.env.clock, r.env.clock,
                       s.env.fails < l.env.fails, l.env.fails < r.env.fails);
      OpFlowLater(s.ops.at[o], r.ops.at[o], s.env.clock, r.env.clock, s.env.fails < l.env.fails || l.env.fails < r.env.fails,
                  s.env.fails < r.env.fails);
    }
  }

  lemma OpFlowTransitive(o: Operation, p: Operation, q: Operation, c: nat, d: nat, e: nat, early: bool, late: bool)
    requires OpFlow(o, p, c, d, early) && OpFlow(p, q, d, e, late) && c <= d <= e
    ensures OpFlow(o, q, c, e, early || late)
  {
  }

  lemma OpFlowLater(o: Operation, p: Operation, c: nat, d: nat, early: bool, late: bool)
    requires OpFlow(o, p, c, d, early) && (early ==> late)
    ensures OpFlow(o, p, c, d, late)
  {
  }

  lemma SignInFramed(s: State, l: State, id: OpId, email: Email, password: string, preexisting: set<UserId>)
    requires Moves(s, l) && Inv(l)
    requires var r := SignIn(l, id, email, preexisting); Entered(l, r, id) && Flows(s, r, s.env.fails < r.env.fails)
    ensures Framed(s, DoStart(id, email, password), SignIn(l, id, email, preexisting))
  {
    hide SignIn, CoreAt, DiskOk, Logins, OpFlow, CallsSpare, RemovalsKept;
    var r := SignIn(l, id, email, preexisting);
    SameCommits(s.ops, l.ops, s.env.clock, l.env.clock, s.env.fails < l.env.fails);
    LoginsSpare(s.links, l.env.calls, r.env.calls, l.pending.at);
    CallsSpareTransitive(s.links, s.env.calls, l.env.calls, r.env.calls);
    if !r.env.dead {
      RemovalsKeptTransitive(s.pending.at, l.pending.at, r.pending.at, s.env.calls, l.env.calls, r.env.calls);
    }
  }

  lemma LoginsSpare(links: map<LinkKey, Link>, c: seq<Call>, d: seq<Call>, p: map<UserId, Removal>)
    requires c <= d && forall i :: |c| <= i < |d| ==> d[i].CalledLogin?
    ensures CallsSpare(links, c, d) && RemovalsKept(p, p, c, d)
  {
    hide HasLink;
  }

  lemma CommitFramed(s: State, id: OpId, u: UserId, generation: Generation, previous: Option<Generation>)
    ensures Framed(s, DoCommit(id, u, generation, previous), CommitConnection(s, id, u, generation, previous).0)
  {
    hide OpFlow, Logins, Persist, CallsSpare, RemovalsKept, Flows, Lower;
    SameOps(s, s);
    SameCalls(s);
    CommitIs(s, id, u, generation, previous);
  }

  lemma CommitIs(s: State, id: OpId, u: UserId, generation: Generation, previous: Option<Generation>)
    ensures var t := CommitConnection(s, id, u, generation, previous).0;
      t == s.(ops := t.ops, links := t.links, disk := t.disk) && t.ops.at.Keys == s.ops.at.Keys
  {
    hide Save, Lower;
  }

  lemma GateFramed(s: State, step: Step, t: State)
    requires t == s.(gate := t.gate) && (step.DoAcquire? || step.DoRelease? || step.DoBegin?)
    requires step.DoBegin? || GateMoves(s, t)
    requires step.DoBegin? ==> t.gate.leases == s.gate.leases && t.gate.cancelled == s.gate.cancelled
    ensures Framed(s, step, t)
  {
    hide Logins;
    SameOps(s, t);
  }

  lemma LeaseMoves(s: State, l: LeaseId)
    ensures var t := AcquireLease(s, l).0; t == s.(gate := t.gate) && GateMoves(s, t)
    ensures var t := ReleaseLease(s, l).0; t == s.(gate := t.gate) && GateMoves(s, t)
  {
  }

  lemma BeginMoves(s: State, id: SnapshotId)
    ensures var t := SnapshotBegin(s, id).0;
      t == s.(gate := t.gate) && t.gate.leases == s.gate.leases && t.gate.cancelled == s.gate.cancelled
  {
  }

  lemma ShutdownFramed(s: State)
    ensures Framed(s, DoShutdown, Shutdown(s))
  {
    hide Logins;
    SameOps(s, Shutdown(s));
  }

  /** Attempts flow up to the point where tick forgets some. */
  lemma PrunedFramed(s: State, b: State, now: nat, recover: bool)
    requires Moves(s, b) && b.ops.Wf()
    ensures var c := Prune(b, b.ops.order, now);
      Framed(s, DoTick, Persist(if recover then c.(proc := c.proc.(recovering := true)) else c))
  {
    hide Prune, OpFlow, Logins, Save, CallsSpare, RemovalsKept;
    PruneForgets(b, b.ops.order, now);
    SameCommits(s.ops, b.ops, s.env.clock, b.env.clock, s.env.fails < b.env.fails);
    var c := Prune(b, b.ops.order, now);
    SavedCommits(s, c);
    SavedCommits(s, c.(proc := c.proc.(recovering := true)));
  }

  /** The state tick works on, past the gate. */
  function TickGate(s: State): State {
    var t := s.(env := s.env.(lastTick := s.env.clock));
    if t.gate.snapshot.Some? then OpenGate(t) else t
  }

  lemma TickGateKeeps(s: State)
    requires Inv(s)
    ensures Inv(TickGate(s)) && TickGate(s).gate.snapshot.None? && Moves(s.(env := s.env.(lastTick := s.env.clock)), TickGate(s))
  {
    hide CoreAt, DiskOk, OpenGate, Moves;
    StampKeeps(s);
    var t := s.(env := s.env.(lastTick := s.env.clock));
    MovesReflexive(t);
    if t.gate.snapshot.Some? {
      OpenGateKeeps(t);
    }
  }

  lemma LastTickFramed(s: State, t: State)
    requires Framed(s.(env := s.env.(lastTick := s.env.clock)), DoTick, t)
    ensures Framed(s, DoTick, t)
  {
    hide OpFlow, Logins, CallsSpare, RemovalsKept;
  }

  lemma TickFramed(s: State)
    requires Inv(s)
    ensures Framed(s, DoTick, Tick(s))
  {
    hide CoreAt, DiskOk, Moves, Drifts, Framed, TickWork, Expire, TickRecovery, Prune, OpenGate, Save;
    var t := s.(env := s.env.(lastTick := s.env.clock));
    MovesReflexive(t);
    MovesFramed(t, DoTick, t);
    LastTickFramed(s, t);
    if !t.proc.closed && (t.gate.snapshot.None? || t.gate.expiresAt <= t.env.clock) {
      TickGateKeeps(s);
      var g := TickGate(s);
      TickWorkKeeps(g);
      var (b, recover) := TickWork(g);
      MovesTransitive(t, g, b);
      assert b.ops.Wf() by { CoreHasBase(b, g.env.clock); OpsOkWf(b.ops, b.env.clock); }
      PrunedFramed(t, b, g.env.clock, recover);
      TickIsWork(s);
      LastTickFramed(s, Tick(s));
    }
  }

  /** tick, when it does something, in three parts. */
  lemma TickIsWork(s: State)
    requires !s.proc.closed && (s.gate.snapshot.None? || s.gate.expiresAt <= s.env.clock)
    ensures var g := TickGate(s); var (b, recover) := TickWork(g); var c := Prune(b, b.ops.order, g.env.clock);
      Tick(s) == Persist(if recover then c.(proc := c.proc.(recovering := true)) else c)
  {
    hide Expire, TickRecovery, Prune, OpenGate, Save;
  }

  lemma RecoverNativeFramed(s: State)
    requires Inv(s)
    ensures Framed(s, DoRecoverNative, RecoverNative(s))
  {
    hide CoreAt, DiskOk, OpFlow, Logins, CallsSpare, RemovalsKept, Flows, RecoverNative, EnvMoves;
    SameOps(s, s);
    SameCalls(s);
    CoreHasBase(s, s.env.clock);
    RecoverNativeIs(s);
    EnvGrows(s.env, RecoverNative(s).env);
    SameOps(s, RecoverNative(s));
  }

  lemma EnvGrows(e: Env, f: Env)
    requires EnvMoves(e, f)
    ensures e.clock <= f.clock && e.fails <= f.fails && e.lastTick == f.lastTick && (e.dead ==> f.dead)
  {
    hide Logins;
  }

  /** The unlocked half of a recovery touches Bridge and the timers of recoveries only. */
  lemma RecoverNativeIs(s: State)
    requires Base(s)
    ensures var t := RecoverNative(s);
      && t == s.(env := t.env, proc := s.proc.(restarted := t.proc.restarted, recoveryStreak := t.proc.recoveryStreak,
                                               lastRecoveryAt := t.proc.lastRecoveryAt, nextRecoveryAt := t.proc.nextRecoveryAt))
      && EnvMoves(s.env, t.env) && t.env.calls == s.env.calls
  {
    hide Turn, OpsOk, LinksOk, PendingOk, CallsOk, OpsKept, RemovalsMove, LoginMoves, Logins, Stamped;
    if s.proc.recovering && s.proc.restarted.None? {
      StampedProc(s);
      TurnKeeps(Popped(s), Next(s));
      TurnIgnoresProc(Popped(s), Stamped(s).proc, Next(s));
    }
  }

  lemma RecoverFinishFramed(s: State)
    requires Inv(s)
    ensures Framed(s, DoRecoverFinish, RecoverFinish(s))
  {
    hide AfterRestart, DiskOk, OpFlow, Logins, Persist, OpsOk, LinksOk, PendingOk, CallsOk, LeasesOk, AllQuiet, OpsKept, Base,
         CallsSpare, RemovalsKept;
    SameOps(s, s);
    SameCalls(s);
    if s.proc.restarted.Some? {
      var started := s.proc.restarted.value && !s.proc.closed;
      var t := s.(proc := s.proc.(recovering := false, restarted := None, started := started, nativeLost := false));
      if started {
        assert CoreAt(t, s.env.clock) && t.env.login.Idle? by { FinishCore(s); }
        AfterRestartKeeps(t, s.env.clock);
        FlowIsMoves(t, AfterRestart(t));
        PersistMoves(t, AfterRestart(t));
        MovesFramed(t, DoRecoverFinish, Persist(AfterRestart(t)));
      } else if Holder(t).Some? {
        PutOffFlows(t);
        var q := SetOp(t, t.slot.value, Holder(t).value.(endedAt := Some(t.env.clock)));
        PersistOnlyDisk(q);
        PersistedCommits(s, q);
      } else {
        PersistOnlyDisk(t);
        PersistedCommits(s, t);
        SameOps(s, RecoverFinish(s));
      }
    }
  }

  lemma SameCalls(s: State)
    ensures CallsSpare(s.links, s.env.calls, s.env.calls) && RemovalsKept(s.pending.at, s.pending.at, s.env.calls, s.env.calls)
  {
  }

  lemma PersistedCommits(s: State, t: State)
    requires t.links == s.links && t.disk == s.disk
    requires forall id :: id in t.ops.at && id in s.ops.at ==> t.ops.at[id].committed == s.ops.at[id].committed
    ensures JournalMoves(s.disk, s.links, s.ops.at, Persist(t).disk)
  {
    hide Save;
    SavedCommits(s, t);
  }

  lemma FinishCore(s: State)
    requires Inv(s) && s.proc.restarted.Some?
    ensures var started := s.proc.restarted.value && !s.proc.closed;
      var t := s.(proc := s.proc.(recovering := false, restarted := None, started := started, nativeLost := false));
      CoreAt(t, s.env.clock) && t.env.login.Idle?
  {
    hide OpsOk, SlotOk, LinksOk, PendingOk, CallsOk, LeasesOk, DiskOk, AllQuiet, JournalOk;
  }

  lemma PutOffFlows(s: State)
    requires Holder(s).Some?
    ensures var t := SetOp(s, s.slot.value, Holder(s).value.(endedAt := Some(s.env.clock)));
      forall id :: id in s.ops.at ==> id in t.ops.at && OpFlow(s.ops.at[id], t.ops.at[id], s.env.clock, s.env.clock, true)
  {
  }

  /** Every step but a restart of the worker leaves alone what is not its own. */
  lemma Frames(s: State, m: Move)
    requires Inv(s) && !m.step.Reload?
    ensures Framed(s, m.step, Do(s, m))
  {
    hide Inv, Moves, Drifts, Framed, Turn, Boot, StartConnection, ContinueConnection, CancelConnection, CommitConnection, Credentials,
         RemoveUser, AcquireLease, ReleaseLease, SnapshotBegin, DrainRound, SnapshotEnd, SnapshotRenew, Tick, RecoverNative,
         RecoverFinish, Delivered, Shutdown;
    TapeKeeps(s, m.tape);
    var t := s.(env := s.env.(tape := m.tape));
    var r := Apply(t, m.step);
    assert Framed(t, m.step, r) by {
      if t.env.dead {
        MovesReflexive(t);
        MovesFramed(t, m.step, t);
      } else {
        match m.step
        case World(turn) => WorldKeeps(t, turn); MovesFramed(t, m.step, r);
        case DoBoot => BootKeeps(t); MovesFramed(t, m.step, r);
        case DoStart(id, email, password) => StartFramed(t, id, email, password);
        case DoContinue(id, challenge, secret) => ContinueKeeps(t, id, challenge, secret); MovesFramed(t, m.step, r);
        case DoCancel(id) => CancelKeeps(t, id); MovesFramed(t, m.step, r);
        case DoCommit(id, user, generation, previous) => CommitFramed(t, id, user, generation, previous);
        case DoCredentials(user, attempt, current, email) =>
          CredentialsKeeps(t, user, attempt, current, email); MovesFramed(t, m.step, r);
        case DoRemove(user, generation, email) => RemoveFramed(t, user, generation, email);
        case DoAcquire(lease) => LeaseMoves(t, lease); GateFramed(t, m.step, r);
        case DoRelease(lease) => LeaseMoves(t, lease); GateFramed(t, m.step, r);
        case DoBegin(snapshot) => BeginMoves(t, snapshot); GateFramed(t, m.step, r);
        case DoDrainRound(snapshot, deadline) => DrainKeeps(t, snapshot, deadline); MovesFramed(t, m.step, r);
        case DoEnd(snapshot) => EndGateKeeps(t, snapshot); MovesFramed(t, m.step, r);
        case DoRenew(snapshot) => RenewKeeps(t, snapshot); MovesFramed(t, m.step, r);
        case DoTick => TickFramed(t);
        case DoRecoverNative => RecoverNativeFramed(t);
        case DoRecoverFinish => RecoverFinishFramed(t);
        case Deliver(event) => DeliveredKeeps(t, event); MovesFramed(t, m.step, r);
        case DoShutdown => ShutdownFramed(t);
      }
    }
    FramedFrom(s, m.tape, m.step, r);
  }
}
