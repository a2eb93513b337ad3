/** How long the snapshot gate stays closed. */
module BridgeGateTimes {
  import opened Wrappers
  import opened Dicts
  import opened BridgeTypes
  import opened BridgeSpec
  import opened BridgeMachine
  import opened BridgeShape
  import opened BridgeInvariant
  import opened BridgeSections
  import opened BridgeFrames
  import opened BridgePromises

  // ---- steps that leave the gate alone ------------------------------------------------------------

  /** The steps that may close the gate, open it or change whose it is and how long. */
  predicate GateStep(step: Step) {
    step.DoBegin? || step.DoDrainRound? || step.DoEnd? || step.DoRenew? || step.DoTick? || step.Reload?
  }

  /** The same gate, for the same time. */
  ghost predicate SameGate(s: State, t: State) {
    t.gate.snapshot == s.gate.snapshot && t.gate.expiresAt == s.gate.expiresAt
  }

  lemma FlowGate(s: State, t: State)
    requires Flow(s, t)
    ensures SameGate(s, t)
  {
  }

  lemma PersistGates(s: State)
    ensures SameGate(s, Persist(s))
  {
  }

  lemma EnsureGate(s: State)
    requires Core(s)
    ensures SameGate(s, EnsureStarted(s).0)
  {
    hide EnsureStarted, CoreAt, Flow;
    EnsureStartedKeeps(s, s.env.clock);
    FlowGate(s, EnsureStarted(s).0);
  }

  lemma CallGate(s: State)
    ensures NativeCall(s).0.gate == s.gate && ListUsers(s).0.gate == s.gate && GetUser(s).0.gate == s.gate
    ensures forall id :: CallLogin(s, id).0.gate == s.gate
  {
    hide Accountable, BusyElsewhere;
  }

  lemma RpcGate(s: State, step: Step)
    requires Inv(s) && (step.DoBoot? || step.DoStart? || step.DoContinue? || step.DoCredentials? || step.DoRemove?)
    ensures SameGate(s, Apply(s, step))
  {
    hide EnsureStarted, NativeCall, ListUsers, GetUser, CallLogin, Core, DiskOk, Busy, NeedsBridge, Awaits, Save, Owns, CredentialsOf, Linked, Held,
         HasHeir, Handed, Lower, SafeEmail;
    CoreFrom(s);
    EnsureGate(s);
    var t := EnsureStarted(s).0;
    CallGate(t);
    match step
    case DoStart(id, email, password) =>
      var (l, users) := ListUsers(t);
      if users.Some? {
        CallGate(Persist(l.(ops := l.ops.Put(id, NewOperation(id, email, l.env.clock, users.value)), slot := Some(id))));
      }
    case DoContinue(id, challenge, secret) =>
      if id in s.ops.at {
        CallGate(Persist(SetOp(s, id, s.ops.at[id].(state := Authenticating, errorCode := None))));
      }
    case DoCredentials(_, _, _, _) =>
      CallGate(GetUser(t).0);
    case DoRemove(u, generation, email) =>
      RemoveGate(s, u, generation, email);
    case _ =>
  }

  lemma CoreFrom(s: State)
    requires Inv(s)
    ensures Core(s)
  {
  }

  lemma RemoveGate(s: State, u: UserId, generation: Generation, email: Email)
    requires Inv(s)
    ensures SameGate(s, RemoveUser(s, u, generation, email).0)
  {
    hide EnsureStarted, BeginRemoval, HasHeir, Handed, Save, Lower, SafeEmail, Core, DiskOk;
    CoreFrom(s);
    EnsureGate(s);
    var t := EnsureStarted(s).0;
    var key := LinkKey(u, Lower(email));
    BeginRemovalEntry(t.(links := t.links - {key}), u, Unlink);
  }

  lemma CancelGate(s: State, id: OpId)
    requires Inv(s)
    ensures SameGate(s, CancelConnection(s, id).0)
  {
    hide StopAttempt, DropAttemptUser, CoreAt, DiskOk, Flow, Save;
    if id in s.ops.at {
      if s.ops.at[id].state.Connected? && !s.ops.at[id].committed {
        GiveUpKeeps(s, id, Cancelled, s.env.clock);
        FlowGate(s, DropAttemptUser(End(s, id, Cancelled, None), id));
      } else if Active(s.ops.at[id].state) {
        StopAttemptKeeps(s, id, Cancelled, None, s.env.clock);
        FlowGate(s, StopAttempt(s, id, Cancelled, None));
      }
    }
  }

  lemma RecoverGate(s: State)
    requires Inv(s)
    ensures SameGate(s, RecoverNative(s)) && SameGate(s, RecoverFinish(s))
  {
    hide AfterRestart, Flow, Save, RecoverNative, Inv, EnvMoves;
    BaseFrom(s);
    RecoverNativeIs(s);
    if s.proc.restarted.Some? && s.proc.restarted.value && !s.proc.closed {
      var t := s.(proc := s.proc.(recovering := false, restarted := None, started := true, nativeLost := false));
      FinishCore(s);
      AfterRestartKeeps(t, s.env.clock);
      FlowGate(t, AfterRestart(t));
    }
  }

  lemma BaseFrom(s: State)
    requires Inv(s)
    ensures Base(s)
  {
  }

  /** An event of Bridge does not touch the gate. */
  lemma EventGate(s: State, ev: Event)
    requires Inv(s)
    ensures SameGate(s, Delivered(s, ev))
  {
    hide CoreAt, OnLoginError, OnLoginFinished, OnUserChanged, StopAttempt, DiskOk, Save, Flow;
    if CanSend(s.env, ev) {
      var at := s.env.clock;
      var q := if Terminal(ev) then s.(env := s.env.(login := Idle)) else s;
      OverKeeps(s, at);
      if !s.env.login.Idle? {
        SendingMeansSignIn(s, at);
      }
      match ev
      case LoginErrorEvent(code) =>
        LoginErrorKeeps(q, code, at);
        FlowGate(q, OnLoginError(q, code));
      case HumanVerificationEvent =>
        if Active(Holder(s).value.state) {
          StopAttemptKeeps(s, s.slot.value, Failed, Some(VerificationRequired), at);
          FlowGate(s, StopAttempt(s, s.slot.value, Failed, Some(VerificationRequired)));
        }
      case FinishedEvent(user) =>
        LoginFinishedKeeps(q, true, user, at);
        FlowGate(q, OnLoginFinished(q, true, user));
      case AlreadyLoggedInEvent(user) =>
        LoginFinishedKeeps(q, false, user, at);
        FlowGate(q, OnLoginFinished(q, false, user));
      case UserChangedEvent(u) =>
        UserChangedKeeps(s, u, at);
        FlowGate(s, OnUserChanged(s, u));
      case _ =>
    }
  }

  lemma OthersKeepGate(s: State, m: Move)
    requires Inv(s) && !GateStep(m.step)
    ensures SameGate(s, Do(s, m))
  {
    hide Inv, Turn, Boot, StartConnection, ContinueConnection, CancelConnection, Credentials, RemoveUser, RecoverNative, RecoverFinish,
         Delivered, Save, Admitted;
    TapeKeeps(s, m.tape);
    var q := s.(env := s.env.(tape := m.tape));
    if !s.env.dead {
      match m.step
      case World(turn) => TurnGate(q, turn);
      case DoCancel(id) => CancelGate(q, id);
      case DoCommit(_, _, _, _) =>
      case DoAcquire(_) =>
      case DoRelease(_) =>
      case DoRecoverNative => RecoverGate(q);
      case DoRecoverFinish => RecoverGate(q);
      case Deliver(event) => EventGate(q, event);
      case DoShutdown =>
      case _ => RpcGate(q, m.step);
    }
  }

  lemma TurnGate(s: State, a: Answer)
    ensures SameGate(s, Turn(s, a))
  {
    hide Accountable;
  }

  // ---- the lifetime of the gate -------------------------------------------------------------------

  /** Snapshot id takes the gate with this move, or prolongs it: a begin that does not find it its own already, or
      a renewal. */
  ghost predicate Takes(s: State, m: Move, id: SnapshotId) {
    !s.env.dead && Do(s, m).gate.snapshot == Some(id) && ((m.step == DoBegin(id) && s.gate.snapshot != Some(id)) || m.step == DoRenew(id))
  }

  /** What opens the gate of snapshot id or gives it away: its own end, a drain of it that is refused, and from time
      until on a tick or a begin. */
  ghost predicate Ends(s: State, m: Move, id: SnapshotId, until: nat) {
    || m.step == DoEnd(id)
    || (m.step.DoDrainRound? && m.step.snapshot == id && DrainRound(s.(env := s.env.(tape := m.tape)), id, m.step.deadline).1.Refused?)
    || (until <= s.env.clock && (m.step.DoTick? || m.step.DoBegin?))
  }

  /** The gate is snapshot id's until at least the given time. */
  ghost predicate HeldUntil(s: State, id: SnapshotId, until: nat, lifetime: nat) {
    s.gate.snapshot == Some(id) && until <= s.gate.expiresAt && s.cfg.snapshotTtl == lifetime
  }

  lemma TakesHolds(s: State, m: Move, id: SnapshotId)
    requires Takes(s, m, id)
    ensures var t := Do(s, m); t.gate.snapshot == Some(id) && t.gate.expiresAt == s.env.clock + s.cfg.snapshotTtl && t.env.clock == s.env.clock
    ensures Do(s, m).cfg == s.cfg && Do(s, m).env.dead == s.env.dead
  {
  }

  lemma DrainHolds(s: State, id: SnapshotId, deadline: nat)
    requires Inv(s) && s.gate.snapshot.Some? && (id == s.gate.snapshot.value ==> !DrainRound(s, id, deadline).1.Refused?)
    ensures SameGate(s, DrainRound(s, id, deadline).0)
  {
    hide SettleHolder, CallShutdown, LoginActive, Save, Inv;
    SettleGate(s);
    StopGate(SettleHolder(s));
  }

  lemma SettleGate(s: State)
    requires Inv(s)
    ensures SettleHolder(s).gate == s.gate
  {
    hide StopAttempt, CoreAt, DiskOk, OpsFlow;
    if Holder(s).Some? && Active(Holder(s).value.state) {
      StopAttemptKeeps(s, s.slot.value, Expired, None, s.env.clock);
    }
  }

  lemma StopGate(s: State)
    ensures CallShutdown(s.(proc := s.proc.(started := false))).0.gate == s.gate
  {
    hide Accountable;
  }

  /** A tick before the gate's time does nothing at all. */
  lemma EarlyTick(s: State, m: Move)
    requires m.step.DoTick? && s.gate.snapshot.Some? && s.env.clock < s.gate.expiresAt && !s.env.dead
    ensures Do(s, m) == s.(env := s.env.(tape := m.tape, lastTick := s.env.clock))
  {
    hide TickOpen, OpenGate;
  }

  lemma HoldsStep(s: State, m: Move, id: SnapshotId, until: nat, lifetime: nat)
    requires Inv(s) && HeldUntil(s, id, until, lifetime) && until <= s.env.clock + lifetime
    requires !m.step.Reload? && !Ends(s, m, id, until)
    ensures var t := Do(s, m);
      HeldUntil(t, id, until, lifetime) && s.env.clock <= t.env.clock &&
      (m.step != DoRenew(id) ==> t.gate.expiresAt == s.gate.expiresAt)
  {
    hide Inv, Framed, Tick, DrainRound;
    Frames(s, m);
    FramedCfg(s, m.step, Do(s, m));
    assert s.env.clock <= Do(s, m).env.clock by { FramedClock(s, m.step, Do(s, m)); }
    if s.env.dead {
      DeadStays(s, m);
    } else if !GateStep(m.step) {
      OthersKeepGate(s, m);
    } else if m.step.DoTick? {
      EarlyTick(s, m);
    } else if m.step.DoDrainRound? {
      TapeKeeps(s, m.tape);
      DrainHolds(s.(env := s.env.(tape := m.tape)), m.step.snapshot, m.step.deadline);
    }
  }

  lemma FramedClock(s: State, step: Step, t: State)
    requires Framed(s, step, t)
    ensures s.env.clock <= t.env.clock
  {
    hide Logins, OpFlow, CallsSpare, RemovalsKept;
  }

  lemma {:induction false} HoldsRun(s: State, moves: seq<Move>, id: SnapshotId, until: nat, lifetime: nat, k: nat)
    requires Inv(s) && k <= |moves| && HeldUntil(s, id, until, lifetime) && until <= s.env.clock + lifetime
    requires forall i :: 0 <= i < k ==> !moves[i].step.Reload? && !Ends(After(s, moves, i), moves[i], id, until)
    ensures var t := After(s, moves, k);
      HeldUntil(t, id, until, lifetime) && s.env.clock <= t.env.clock &&
      ((forall i :: 0 <= i < k ==> moves[i].step != DoRenew(id)) ==> t.gate.expiresAt == s.gate.expiresAt)
  {
    hide Inv, Do, HeldUntil, Ends;
    if k == 0 {
      assert moves[..0] == [];
    } else {
      HoldsRun(s, moves, id, until, lifetime, k - 1);
      AfterKeeps(s, moves, k - 1);
      AfterStep(s, moves, k - 1);
      HoldsStep(After(s, moves, k - 1), moves[k - 1], id, until, lifetime);
    }
  }

  /** Once a snapshot has taken or renewed the gate at time c, the gate is its own through every run, at least until
      c + snapshot_ttl: before then only its own end or a failed drain opens it, and a tick does nothing. */
  lemma GateLasts(s: State, m: Move, id: SnapshotId, moves: seq<Move>, k: nat)
    requires Inv(s) && Takes(s, m, id) && k <= |moves|
    requires forall i :: 0 <= i < k ==>
      !moves[i].step.Reload? && !Ends(After(Do(s, m), moves, i), moves[i], id, s.env.clock + s.cfg.snapshotTtl)
    ensures var t := After(Do(s, m), moves, k);
      && t.gate.snapshot == Some(id)
      && forall tape :: !t.env.dead && t.env.clock < s.env.clock + s.cfg.snapshotTtl ==>
           Do(t, Move(DoTick, tape)) == t.(env := t.env.(tape := tape, lastTick := t.env.clock))
  {
    hide Inv, Do, Ends;
    StepKeeps(s, m);
    TakesHolds(s, m, id);
    HoldsRun(Do(s, m), moves, id, s.env.clock + s.cfg.snapshotTtl, s.cfg.snapshotTtl, k);
    var t := After(Do(s, m), moves, k);
    forall tape | !t.env.dead && t.env.clock < s.env.clock + s.cfg.snapshotTtl
      ensures Do(t, Move(DoTick, tape)) == t.(env := t.env.(tape := tape, lastTick := t.env.clock))
    {
      EarlyTick(t, Move(DoTick, tape));
    }
  }

  /** And no longer, unless it is renewed: from c + snapshot_ttl on a tick opens it, or a begin takes it over. */
  lemma GateLapses(s: State, m: Move, id: SnapshotId, moves: seq<Move>, k: nat, next: Move)
    requires Inv(s) && Takes(s, m, id) && k <= |moves|
    requires forall i :: 0 <= i < k ==> moves[i].step != DoRenew(id)
    requires forall i :: 0 <= i < k ==>
      !moves[i].step.Reload? && !Ends(After(Do(s, m), moves, i), moves[i], id, s.env.clock + s.cfg.snapshotTtl)
    requires var t := After(Do(s, m), moves, k); !t.env.dead && s.env.clock + s.cfg.snapshotTtl <= t.env.clock
    ensures var t := After(Do(s, m), moves, k); var r := Do(t, next);
      && (next.step.DoTick? && !t.proc.closed ==> r.gate.snapshot.None?)
      && (next.step.DoBegin? ==> r.gate.snapshot == Some(next.step.snapshot))
  {
    hide Inv, Do, Ends;
    StepKeeps(s, m);
    TakesHolds(s, m, id);
    HoldsRun(Do(s, m), moves, id, s.env.clock + s.cfg.snapshotTtl, s.cfg.snapshotTtl, k);
    AfterKeeps(Do(s, m), moves, k);
    Lapsed(After(Do(s, m), moves, k), next);
  }

  lemma Lapsed(s: State, m: Move)
    requires Inv(s) && !s.env.dead && s.gate.snapshot.Some? && s.gate.expiresAt <= s.env.clock
    ensures m.step.DoTick? && !s.proc.closed ==> Do(s, m).gate.snapshot.None?
    ensures m.step.DoBegin? ==> Do(s, m).gate.snapshot == Some(m.step.snapshot)
  {
    hide Inv, Tick;
    if m.step.DoTick? && !s.proc.closed {
      TapeKeeps(s, m.tape);
      TickOpens(s.(env := s.env.(tape := m.tape)));
    }
  }

  lemma TickOpens(s: State)
    requires Inv(s) && !s.proc.closed && s.gate.snapshot.Some? && s.gate.expiresAt <= s.env.clock
    ensures Tick(s).gate.snapshot.None?
  {
    hide CoreAt, DiskOk, Moves, Drifts, Framed, TickWork, Prune, OpenGate, Save, Tick;
    TickGateKeeps(s);
    var g := TickGate(s);
    TickWorkKeeps(g);
    var (b, recover) := TickWork(g);
    PruneFrame(b, g.env.clock);
    TickIsWork(s);
  }

  /** A begin by the snapshot that holds the gate already does not prolong it. */
  lemma RepeatDoesNotProlong(s: State, m: Move, id: SnapshotId)
    requires m.step == DoBegin(id) && s.gate.snapshot == Some(id)
    ensures Do(s, m) == s.(env := s.env.(tape := m.tape))
  {
  }

  /** The end of its own snapshot opens the gate, and its answer says so; a stopped Bridge that links need is then
      started, or that has failed and the next try is recovery_seconds later. Any other end leaves all as it is. */
  lemma EndOpens(s: State, m: Move)
    requires Inv(s) && m.step.DoEnd? && !s.env.dead
    ensures var q := s.(env := s.env.(tape := m.tape)); var (t, reply) := SnapshotEnd(q, m.step.snapshot);
      && Do(s, m) == t
      && (if s.gate.snapshot == Some(m.step.snapshot) then
            && reply == EndedGate(true) && t.gate.snapshot.None?
            && (s.links != map[] ==>
                  t.proc.started || (s.env.fails < t.env.fails && t.proc.nextStartAt == t.env.clock + t.cfg.recoverySeconds))
          else t == q && reply == if s.gate.snapshot.None? then EndedGate(false) else Refused(OperationConflict))
  {
    hide OpenGate, Inv;
    TapeKeeps(s, m.tape);
    var q := s.(env := s.env.(tape := m.tape));
    OpenGateKeeps(q);
    if s.links != map[] {
      OpenStarts(q);
    }
  }

  lemma OpenStarts(s: State)
    requires Inv(s) && s.links != map[]
    ensures var t := OpenGate(s);
      t.proc.started || (s.env.fails < t.env.fails && t.proc.nextStartAt == t.env.clock + t.cfg.recoverySeconds)
  {
    hide EnsureStarted, CoreAt, DiskOk, Flow, Save;
    UnlockKeeps(s, s.env.clock);
    var u := Unlocked(s);
    EnsureStartedKeeps(u, s.env.clock);
    StartFails(u, s.env.clock);
    assert NeedsBridge(u);
    var (r, error) := EnsureStarted(u);
    var q := if error.Some? then r.(proc := r.proc.(nextStartAt := r.env.clock + r.cfg.recoverySeconds)) else r;
    assert OpenGate(s) == Persist(q);
    PersistRest(q);
  }

  lemma PersistRest(s: State)
    ensures var t := Persist(s); t.proc == s.proc && t.env == s.env && t.cfg == s.cfg
  {
    hide Save;
  }

  lemma StartFails(s: State, at: nat)
    requires CoreAt(s, at) && s.gate.snapshot.None?
    ensures var (t, error) := EnsureStarted(s); if error.None? then t.proc.started else s.env.fails < t.env.fails
  {
    hide AfterRestart, CallStart, CallRecover, CoreAt, Flow;
    EnsureStartedKeeps(s, at);
    RestartKeeps(s, at);
  }

  // ---- the drain ----------------------------------------------------------------------------------

  /** Nothing is left to wait for: no lease is held, no attempt is active or waits for its commit within its
      lifetime, nothing recovers, and no removal of an attempt's user goes on that still blocks sign-ins. */
  ghost predicate Drainable(s: State) {
    && s.gate.leases == {} && !s.proc.recovering
    && (forall id :: id in s.ops.at && s.env.clock < s.ops.at[id].createdAt + s.cfg.ttl ==>
          !Active(s.ops.at[id].state) && (s.ops.at[id].state.Connected? ==> s.ops.at[id].committed))
    && (forall u :: u in s.pending.at ==> s.pending.at[u].reason.Unlink? || s.pending.at[u].stuck)
  }

  lemma DrainableIs(s: State)
    requires Inv(s)
    ensures Drainable(s) <==> s.gate.leases == {} && !LoginActive(s)
  {
    hide OpsOk, LinksOk, PendingOk, CallsOk, LoginOk, ProcOk, LeasesOk, SealOk, DiskOk, JournalOk;
    if s.gate.leases == {} && !LoginActive(s) {
      forall id | id in s.ops.at && s.env.clock < s.ops.at[id].createdAt + s.cfg.ttl
        ensures !Active(s.ops.at[id].state) && (s.ops.at[id].state.Connected? ==> s.ops.at[id].committed)
      {
        assert !Finalizing(s, s.ops.at[id]);
      }
    }
  }

  /** A drain waits until nothing is left to wait for, or its deadline; it then leaves the slot free or its holder
      marked, so that the restart looks for the user of a sign-in cut short. If Bridge does not stop, the gate opens
      and the process counts as lost. */
  lemma DrainWaits(s: State, id: SnapshotId, deadline: nat)
    requires Inv(s) && s.gate.snapshot == Some(id)
    ensures var (t, reply) := DrainRound(s, id, deadline);
      && (reply == Draining <==> !Drainable(s) && s.env.clock < deadline)
      && (reply == Refused(SnapshotBusy) <==> !Drainable(s) && deadline <= s.env.clock)
      && (reply == Refused(Unavailable) ==> t.gate.snapshot.None? && t.proc.started && t.proc.nativeLost)
      && (reply == Accepted ==> Drainable(s) && (t.slot.Some? ==> t.slot.value in t.ops.at && t.ops.at[t.slot.value].reconcile))
  {
    hide SettleHolder, CallShutdown, LoginActive, Save, CoreAt, DiskOk;
    DrainableIs(s);
    SettleMarks(s);
    ShutdownIs(SettleHolder(s));
  }

  lemma ShutdownIs(s: State)
    ensures var t := CallShutdown(s.(proc := s.proc.(started := false))).0; t.ops == s.ops && t.slot == s.slot
  {
    hide Accountable;
  }

  lemma SettleMarks(s: State)
    requires Inv(s)
    ensures var t := SettleHolder(s); t.slot.Some? ==> t.slot.value in t.ops.at && t.ops.at[t.slot.value].reconcile
  {
    hide StopAttempt, CoreAt, DiskOk, OpsFlow;
    HolderKnown(s);
    if Holder(s).Some? && Active(Holder(s).value.state) {
      StopAttemptKeeps(s, s.slot.value, Expired, None, s.env.clock);
    }
  }

  lemma HolderKnown(s: State)
    requires Inv(s)
    ensures s.slot.Some? ==> Holder(s).Some?
  {
    hide Base, LoginOk, ProcOk, LeasesOk, SealOk, DiskOk, JournalOk;
  }
}
