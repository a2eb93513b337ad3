/** What a tick does: lifetimes end, the past is forgotten, and Bridge is started or recovered when it is needed. */
module BridgeTicks {
  import opened Wrappers
  import opened Dicts
  import opened BridgeTypes
  import opened BridgeSpec
  import opened BridgeMachine
  import opened BridgeShape
  import opened BridgeInvariant
  import opened BridgeSections
  import opened BridgeFrames
  import opened BridgePromises

  /** The tick does its work: the worker is neither dead nor shut down, and the gate is open or its time has passed. */
  predicate Works(s: State) {
    !s.env.dead && !s.proc.closed && (s.gate.snapshot.None? || s.gate.expiresAt <= s.env.clock)
  }

  lemma TickParts(s: State, m: Move)
    requires Inv(s) && Works(s) && m.step.DoTick?
    ensures var g := TickGate(s.(env := s.env.(tape := m.tape))); var (b, recover) := TickWork(g); var t := Do(s, m);
      && Inv(g) && g.gate.snapshot.None? && CoreAt(b, g.env.clock) && s.env.clock <= g.env.clock && b.cfg == s.cfg && g.cfg == s.cfg
      && t.ops == Prune(b, b.ops.order, g.env.clock).ops && t.slot == b.slot && t.links == b.links && b.links == s.links
      && t.env == b.env && t.proc == b.proc.(recovering := b.proc.recovering || recover) && t.gate.snapshot.None?
      && g.proc.recovering == s.proc.recovering && s.env.fails <= g.env.fails && g.proc.nextRecoveryAt == s.proc.nextRecoveryAt
  {
    hide CoreAt, DiskOk, OpsFlow, EnvMoves, TickWork, Prune, OpenGate, Tick, Save, RemovalsKept, CallsSpare;
    TapeKeeps(s, m.tape);
    var q := s.(env := s.env.(tape := m.tape));
    TickGateKeeps(q);
    var g := TickGate(q);
    TickWorkKeeps(g);
    var b := TickWork(g).0;
    PruneFrame(b, g.env.clock);
    TickIsWork(q);
    GateClock(q.(env := q.env.(lastTick := q.env.clock)), g);
    GateClock(g, b);
  }

  lemma GateClock(s: State, t: State)
    requires Moves(s, t)
    ensures s.env.clock <= t.env.clock && t.cfg == s.cfg && t.links == s.links && s.env.fails <= t.env.fails
    ensures t.proc.recovering == s.proc.recovering && t.proc.nextRecoveryAt == s.proc.nextRecoveryAt
  {
  }

  // ---- attempts -----------------------------------------------------------------------------------

  lemma {:induction false} PruneAll(s: State, ids: seq<OpId>, now: nat)
    requires s.ops.Wf()
    ensures var t := Prune(s, ids, now); t == s.(ops := t.ops)
    ensures var t := Prune(s, ids, now); forall id :: id in t.ops.at && id in ids ==> id in s.ops.at && !Prunable(s, id, now)
    ensures forall id :: id in Prune(s, ids, now).ops.at ==> id in s.ops.at && Prune(s, ids, now).ops.at[id] == s.ops.at[id]
    decreases ids
  {
    if ids != [] {
      assert ids == [ids[0]] + ids[1..];
      if ids[0] in s.ops.at && Prunable(s, ids[0], now) {
        DropWf(s.ops, ids[0]);
        PruneAll(s.(ops := s.ops.Drop(ids[0])), ids[1..], now);
      } else {
        PruneAll(s, ids[1..], now);
      }
    }
  }

  /** After a tick no attempt past its lifetime is active or waits for its commit, and none that ended or was
      committed a lifetime ago is remembered, but for the slot's holder and those marked for reconciliation. */
  lemma TickSettles(s: State, m: Move, id: OpId)
    requires Inv(s) && Works(s) && m.step.DoTick? && id in Do(s, m).ops.at
    ensures var op := Do(s, m).ops.at[id];
      && id in s.ops.at
      && (op.createdAt + s.cfg.ttl <= s.env.clock ==> Ended(op.state) || op.committed)
      && (!Active(op.state) && op.endedAt.Some? && op.endedAt.value + s.cfg.ttl <= s.env.clock ==> Do(s, m).slot == Some(id) || op.reconcile)
  {
    hide CoreAt, DiskOk, TickWork, Prune, TickGate, Do;
    TickParts(s, m);
    var g := TickGate(s.(env := s.env.(tape := m.tape)));
    CoreOfInv(g);
    WorkSettles(g);
    TickWorkKeeps(g);
    var b := TickWork(g).0;
    WfOf(b, g.env.clock);
    PruneAll(b, b.ops.order, g.env.clock);
    SameOrder(g, b);
    TapeKeeps(s, m.tape);
    TickGateOrder(s.(env := s.env.(tape := m.tape)));
    WfOf(g, g.env.clock) by { CoreOfInv(g); }
  }

  lemma CoreOfInv(s: State)
    requires Inv(s)
    ensures Core(s) && CoreAt(s, s.env.clock)
  {
  }

  lemma WfOf(s: State, at: nat)
    requires CoreAt(s, at)
    ensures s.ops.Wf()
  {
    hide LoginOk, ProcOk, LeasesOk, SealOk, JournalOk, SlotOk, LinksOk, PendingOk, CallsOk;
  }

  lemma SameOrder(s: State, t: State)
    requires Moves(s, t)
    ensures t.ops.order == s.ops.order && t.ops.at.Keys == s.ops.at.Keys
  {
    hide OpFlow;
  }

  lemma TickGateOrder(s: State)
    requires Inv(s)
    ensures TickGate(s).ops.at.Keys == s.ops.at.Keys
  {
    hide CoreAt, DiskOk, OpenGate, Moves;
    TickGateKeeps(s);
    SameOrder(s.(env := s.env.(lastTick := s.env.clock)), TickGate(s));
  }

  // ---- Bridge -------------------------------------------------------------------------------------

  lemma {:induction false} ExpireLeavesProc(s: State, ids: seq<OpId>, now: nat, at: nat)
    requires CoreAt(s, at)
    ensures var t := Expire(s, ids, now); t.proc == s.proc && t.links == s.links && CoreAt(t, at) && s.env.fails <= t.env.fails
    ensures var t := Expire(s, ids, now); (t.env.running ==> s.env.running) || !s.proc.started
  {
    hide CoreAt, Expire, OpsFlow;
    ExpireKeeps(s, ids, now, at);
    ExpireRuns(s, ids, now);
  }

  lemma {:induction false} ExpireRuns(s: State, ids: seq<OpId>, now: nat)
    ensures Expire(s, ids, now).env.running ==> s.env.running
    decreases ids
  {
    hide StopAttempt, DropAttemptUser, End;
    if ids != [] {
      if ids[0] in s.ops.at {
        StopRuns(s, ids[0]);
        GiveUpRuns(s, ids[0]);
      }
      ExpireRuns(ExpireOne(s, ids[0], now), ids[1..], now);
    }
  }

  lemma StopRuns(s: State, id: OpId)
    requires id in s.ops.at
    ensures StopAttempt(s, id, Expired, None).env.running ==> s.env.running
  {
    hide DropAttemptUser, NativeCall;
    DropRuns(End(s, id, Expired, None), id);
    CallRuns(End(s, id, Expired, None));
  }

  lemma GiveUpRuns(s: State, id: OpId)
    requires id in s.ops.at
    ensures DropAttemptUser(End(s, id, Expired, None), id).env.running ==> s.env.running
  {
    hide DropAttemptUser;
    DropRuns(End(s, id, Expired, None), id);
  }

  lemma DropRuns(s: State, id: OpId)
    requires id in s.ops.at
    ensures DropAttemptUser(s, id).env.running ==> s.env.running
  {
    hide NativeCall, Linked, Held, HasHeir;
    var op := s.ops.at[id];
    if op.userId.Some? {
      var v := op.userId.value;
      var item := if v in s.pending.at then s.pending.at[v].(since := s.env.clock, reason := s.pending.at[v].reason)
                  else Removal(Attempt, s.env.clock, 0, false);
      CallRuns(RemoveLogged(s.(pending := s.pending.Put(v, item)), v, v !in s.pending.at));
    }
  }

  lemma CallRuns(s: State)
    ensures NativeCall(s).0.env.running ==> s.env.running
  {
    hide Accountable;
  }

  lemma TimersLeave(s: State, now: nat, canRecover: bool)
    requires Base(s)
    ensures var t := RemovalTimers(s, s.pending.order, now, canRecover).0;
      t.proc == s.proc && t.links == s.links && t.slot == s.slot && t.cfg == s.cfg && (t.env.running ==> s.env.running) &&
      s.env.fails <= t.env.fails && t.gate == s.gate
  {
    hide Base, RemovalTimers, OpsKept, RemovalsMove, LoginMoves;
    RemovalTimersKeep(s, s.pending.order, now, canRecover);
  }

  /** What tick finds when it looks after the process. */
  function Found(s: State, now: nat): State {
    var a := RemovalTimers(s, s.pending.order, now, now >= s.proc.nextRecoveryAt).0;
    if HolderDue(a, now) then MarkHolder(a) else a
  }

  lemma FoundIs(s: State, now: nat)
    requires CoreAt(s, now)
    ensures var b := Found(s, now);
      b.proc == s.proc && b.links == s.links && b.cfg == s.cfg && (b.env.running ==> s.env.running) && s.env.fails <= b.env.fails &&
      CoreAt(b, now) && b.gate == s.gate && s.env.clock <= b.env.clock
  {
    hide CoreAt, Base, RemovalTimers, HolderDue, MarkHolder, Housekeeping, Flow;
    CoreHasBase(s, now);
    TimersLeave(s, now, now >= s.proc.nextRecoveryAt);
    RemovalTimersKeep(s, s.pending.order, now, now >= s.proc.nextRecoveryAt);
    var a := RemovalTimers(s, s.pending.order, now, now >= s.proc.nextRecoveryAt).0;
    HousekeepingKeeps(s, a, now);
    HousekeepingFlows(s, a);
    FlowClock(s, a);
    if HolderDue(a, now) {
      HolderDueHasHolder(a, now);
      MarkHolderKeeps(a, now);
      MarkLeaves(a);
    }
  }

  lemma MarkLeaves(s: State)
    requires Holder(s).Some?
    ensures MarkHolder(s) == s.(ops := MarkHolder(s).ops)
  {
  }

  /** A stopped Bridge that links need is started by the tick, from the time its last failure set: afterwards it is
      started, or starting it has failed and the next try is recovery_seconds later. */
  lemma TickStarts(s: State, m: Move)
    requires Inv(s) && Works(s) && m.step.DoTick? && s.gate.snapshot.None? && !s.proc.started && !s.proc.recovering
    requires s.links != map[] && s.proc.nextStartAt <= s.env.clock
    ensures var t := Do(s, m);
      t.proc.started || (s.env.fails < t.env.fails && t.proc.nextStartAt == s.env.clock + s.cfg.recoverySeconds)
  {
    hide CoreAt, DiskOk, Expire, TickRecovery, TickGate, Do, Prune;
    TickParts(s, m);
    var g := s.(env := s.env.(tape := m.tape, lastTick := s.env.clock));
    assert TickGate(s.(env := s.env.(tape := m.tape))) == g by { OpenGateIsNone(s, m); }
    CoreOfInv(g);
    ExpireLeavesProc(g, g.ops.order, g.env.clock, g.env.clock);
    var a := Expire(g, g.ops.order, g.env.clock);
    ExpireKeeps(g, g.ops.order, g.env.clock, g.env.clock);
    FlowIsMoves(g, a);
    RecoveryStarts(a, g.env.clock);
  }

  lemma OpenGateIsNone(s: State, m: Move)
    requires s.gate.snapshot.None?
    ensures TickGate(s.(env := s.env.(tape := m.tape))) == s.(env := s.env.(tape := m.tape, lastTick := s.env.clock))
  {
  }

  lemma RecoveryStarts(s: State, now: nat)
    requires CoreAt(s, now) && s.gate.snapshot.None? && now <= s.env.clock
    requires !s.proc.started && s.links != map[] && s.proc.nextStartAt <= now
    ensures var t := TickRecovery(s, now).0;
      t.proc.started || (s.env.fails < t.env.fails && t.proc.nextStartAt == now + s.cfg.recoverySeconds)
  {
    hide CoreAt, RemovalTimers, HolderDue, MarkHolder, TickProcess, ReconcileAll, Alive, ReconcilePending, Flow;
    var b := Found(s, now);
    FoundIs(s, now);
    ProcessStarts(b, now);
    TickProcessKeeps(b, now);
    var c := TickProcess(b, now).0;
    if Alive(c) {
      AliveIsStarted(c);
      if ReconcilePending(c) {
        ReconcileLeaves(c);
      }
    }
  }

  lemma AliveIsStarted(s: State)
    ensures Alive(s) ==> s.proc.started
  {
  }

  lemma ReconcileLeaves(s: State)
    ensures ReconcileAll(s).0.proc.started == s.proc.started
  {
    hide ReconcileOrphans, Loses;
    FlaggedLeaves(s, s.ops.order);
  }

  lemma {:induction false} FlaggedLeaves(s: State, ids: seq<OpId>)
    ensures ReconcileFlagged(s, ids).0.proc == s.proc
    decreases ids
  {
    hide ReconcileOrphans;
    if ids != [] {
      if ids[0] in s.ops.at && s.ops.at[ids[0]].reconcile {
        OrphansLeave(s, ids[0]);
        FlaggedLeaves(ReconcileOrphans(s, ids[0]).0, ids[1..]);
      } else {
        FlaggedLeaves(s, ids[1..]);
      }
    }
  }

  lemma OrphansLeave(s: State, id: OpId)
    requires id in s.ops.at
    ensures ReconcileOrphans(s, id).0.proc == s.proc
  {
    hide BeginRemovals, ListUsers, Known, Loses;
    ListFrame(s);
    var (t, users) := ListUsers(s);
    if users.Some? {
      var orphans := set u | u in users.value && !Known(t, id, u);
      BeginsLeave(t, Sorted(orphans));
    }
  }

  lemma {:induction false} BeginsLeave(s: State, us: seq<UserId>)
    ensures BeginRemovals(s, us).proc == s.proc
    decreases us
  {
    hide BeginRemoval;
    if us != [] {
      BeginRemovalEntry(s, us[0], Attempt);
      BeginsLeave(BeginRemoval(s, us[0], Attempt), us[1..]);
    }
  }

  lemma ProcessStarts(s: State, now: nat)
    requires CoreAt(s, now) && s.gate.snapshot.None? && !s.proc.started && s.links != map[] && s.proc.nextStartAt <= now
    ensures var t := TickProcess(s, now).0;
      t.proc.started || (s.env.fails < t.env.fails && t.proc.nextStartAt == now + s.cfg.recoverySeconds)
  {
    hide AfterRestart, CallStart, CallRecover, CoreAt, Flow;
    EnsureStartedKeeps(s, now);
    RestartKeeps(s, now);
  }

  /** Before that time no tick starts it. */
  lemma TickWaits(s: State, m: Move)
    requires Inv(s) && Works(s) && m.step.DoTick? && s.gate.snapshot.None? && !s.proc.started && s.env.clock < s.proc.nextStartAt
    ensures !Do(s, m).proc.started
  {
    hide CoreAt, DiskOk, Expire, TickRecovery, TickGate, Do, Prune;
    TickParts(s, m);
    var g := s.(env := s.env.(tape := m.tape, lastTick := s.env.clock));
    OpenGateIsNone(s, m);
    CoreOfInv(g);
    ExpireLeavesProc(g, g.ops.order, g.env.clock, g.env.clock);
    RecoveryWaits(Expire(g, g.ops.order, g.env.clock), g.env.clock);
  }

  lemma RecoveryWaits(s: State, now: nat)
    requires CoreAt(s, now) && !s.proc.started && now < s.proc.nextStartAt
    ensures !TickRecovery(s, now).0.proc.started
  {
    hide CoreAt, RemovalTimers, HolderDue, MarkHolder, ReconcileAll, ReconcilePending, EnsureStarted, NeedsBridge;
    FoundIs(s, now);
  }

  /** A Bridge that was started, is needed and does not run is recovered by the tick, from the time the last recovery
      set. */
  lemma TickRecovers(s: State, m: Move)
    requires Inv(s) && Works(s) && m.step.DoTick? && s.gate.snapshot.None? && s.proc.started && !s.proc.recovering
    requires s.proc.nativeLost || !s.env.running
    requires s.links != map[] && s.proc.nextRecoveryAt <= s.env.clock
    ensures Do(s, m).proc.recovering
  {
    hide CoreAt, DiskOk, Expire, TickRecovery, TickGate, Do, Prune;
    TickParts(s, m);
    var g := s.(env := s.env.(tape := m.tape, lastTick := s.env.clock));
    OpenGateIsNone(s, m);
    CoreOfInv(g);
    ExpireLeavesProc(g, g.ops.order, g.env.clock, g.env.clock);
    var a := Expire(g, g.ops.order, g.env.clock);
    RecoveryWanted(a, g.env.clock);
  }

  lemma RecoveryWanted(s: State, now: nat)
    requires CoreAt(s, now) && s.proc.started && (s.proc.nativeLost || !s.env.running) && s.links != map[] && s.proc.nextRecoveryAt <= now
    ensures TickRecovery(s, now).1
  {
    hide CoreAt, RemovalTimers, HolderDue, MarkHolder, ReconcileAll, ReconcilePending, Flow, EnsureStarted;
    FoundIs(s, now);
  }

  // ---- the ended holder ---------------------------------------------------------------------------

  /** Without an active attempt expiry frees no slot, and changes of an ended attempt only the clean-up flag. */
  lemma {:induction false} ExpireSpares(s: State, ids: seq<OpId>, now: nat, h: OpId)
    requires h in s.ops.at && Ended(s.ops.at[h].state) && forall id :: id in s.ops.at ==> !Active(s.ops.at[id].state)
    ensures var t := Expire(s, ids, now);
      t.slot == s.slot && h in t.ops.at && t.ops.at[h] == s.ops.at[h].(createdByAttempt := t.ops.at[h].createdByAttempt)
    decreases ids
  {
    hide ExpireOne;
    if ids != [] {
      OneSpares(s, ids[0], now, h);
      ExpireSpares(ExpireOne(s, ids[0], now), ids[1..], now, h);
    }
  }

  lemma OneSpares(s: State, id: OpId, now: nat, h: OpId)
    requires h in s.ops.at && Ended(s.ops.at[h].state) && forall o :: o in s.ops.at ==> !Active(s.ops.at[o].state)
    ensures var t := ExpireOne(s, id, now);
      && t.slot == s.slot && h in t.ops.at && t.ops.at[h] == s.ops.at[h].(createdByAttempt := t.ops.at[h].createdByAttempt)
      && forall o :: o in t.ops.at ==> !Active(t.ops.at[o].state)
  {
    hide DropAttemptUser, StopAttempt;
    if id in s.ops.at {
      DropSpares(End(s, id, Expired, None), id);
    }
  }

  lemma DropSpares(s: State, id: OpId)
    requires id in s.ops.at
    ensures var t := DropAttemptUser(s, id); t.slot == s.slot && t.ops.at.Keys == s.ops.at.Keys
    ensures forall o :: o in s.ops.at ==>
      DropAttemptUser(s, id).ops.at[o] == s.ops.at[o].(createdByAttempt := DropAttemptUser(s, id).ops.at[o].createdByAttempt)
  {
    hide BeginRemoval, HandOver, Linked, HasHeir;
    var op := s.ops.at[id];
    if op.userId.Some? && op.createdByAttempt {
      HandSpares(s, op.userId.value, Some(id));
      BeginRemovalEntry(s, op.userId.value, Attempt);
    }
  }

  lemma HandSpares(s: State, v: UserId, ended: Option<OpId>)
    ensures var t := HandOver(s, v, ended); t.slot == s.slot && t.ops.at.Keys == s.ops.at.Keys
    ensures forall o :: o in s.ops.at ==>
      HandOver(s, v, ended).ops.at[o] == s.ops.at[o].(createdByAttempt := HandOver(s, v, ended).ops.at[o].createdByAttempt)
  {
    hide Handed, Heir;
  }

  /** A tick that finds the slot held for recovery_seconds by an attempt that has ended marks it for reconciliation,
      so that the restart looks for the user of its sign-in. */
  lemma TickMarks(s: State, m: Move, h: OpId)
    requires Inv(s) && Works(s) && m.step.DoTick? && s.gate.snapshot.None? && s.proc.started && !s.proc.recovering
    requires s.slot == Some(h) && h in s.ops.at && Ended(s.ops.at[h].state)
    requires s.ops.at[h].endedAt.Some? && s.ops.at[h].endedAt.value + s.cfg.recoverySeconds <= s.env.clock
    ensures var t := Do(s, m); t.slot == Some(h) && h in t.ops.at && t.ops.at[h].reconcile
  {
    hide CoreAt, DiskOk, Expire, TickRecovery, TickGate, Do, Prune;
    TickParts(s, m);
    var g := s.(env := s.env.(tape := m.tape, lastTick := s.env.clock));
    OpenGateIsNone(s, m);
    CoreOfInv(g);
    NoneActiveBeside(g, g.env.clock, h);
    ExpireSpares(g, g.ops.order, g.env.clock, h);
    ExpireKeeps(g, g.ops.order, g.env.clock, g.env.clock);
    ExpireLeavesProc(g, g.ops.order, g.env.clock, g.env.clock);
    var a := Expire(g, g.ops.order, g.env.clock);
    FlowIsMoves(g, a);
    ExpireCfg(g, a);
    MarkedInRecovery(a, g.env.clock, h);
    var b := TickWork(g).0;
    WfOf(b, g.env.clock);
    HolderIsKept(b, b.ops.order, g.env.clock, h);
  }

  lemma ExpireCfg(s: State, t: State)
    requires Flow(s, t)
    ensures t.cfg == s.cfg && t.gate == s.gate
  {
  }

  lemma NoneActiveBeside(s: State, at: nat, h: OpId)
    requires CoreAt(s, at) && s.slot == Some(h) && h in s.ops.at && Ended(s.ops.at[h].state)
    ensures forall id :: id in s.ops.at ==> !Active(s.ops.at[id].state)
  {
    hide Base, LoginOk, ProcOk, LeasesOk, SealOk, JournalOk;
  }

  lemma MarkedInRecovery(s: State, now: nat, h: OpId)
    requires CoreAt(s, now) && s.gate.snapshot.None? && s.proc.started && s.slot == Some(h) && h in s.ops.at && Ended(s.ops.at[h].state)
    requires s.ops.at[h].endedAt.Some? && s.ops.at[h].endedAt.value + s.cfg.recoverySeconds <= now
    ensures var t := TickRecovery(s, now).0; t.slot == Some(h) && h in t.ops.at && t.ops.at[h].reconcile
  {
    hide CoreAt, RemovalTimers, ReconcileAll, ReconcilePending, Base, OpKept, EnsureStarted, NeedsBridge;
    CoreHasBase(s, now);
    UserlessHolder(s, now);
    RemovalTimersKeep(s, s.pending.order, now, now >= s.proc.nextRecoveryAt);
    var a := RemovalTimers(s, s.pending.order, now, now >= s.proc.nextRecoveryAt).0;
    KeptAt(s.ops, a.ops, h);
    KeptEnd(s.ops.at[h], a.ops.at[h]);
    assert HolderDue(a, now);
  }

  lemma UserlessHolder(s: State, at: nat)
    requires CoreAt(s, at) && s.slot.Some?
    ensures s.slot.value in s.ops.at && (Ended(s.ops.at[s.slot.value].state) ==> s.ops.at[s.slot.value].userId.None?)
  {
    hide Base, LoginOk, ProcOk, LeasesOk, SealOk, JournalOk;
  }

  lemma KeptEnd(o: Operation, p: Operation)
    requires OpKept(o, p)
    ensures p.state == o.state && p.endedAt == o.endedAt && p.userId == o.userId
  {
  }

  lemma {:induction false} HolderIsKept(s: State, ids: seq<OpId>, now: nat, h: OpId)
    requires s.slot == Some(h) && h in s.ops.at
    ensures var t := Prune(s, ids, now); h in t.ops.at && t.ops.at[h] == s.ops.at[h]
    decreases ids
  {
    if ids != [] {
      if ids[0] in s.ops.at && Prunable(s, ids[0], now) {
        HolderIsKept(s.(ops := s.ops.Drop(ids[0])), ids[1..], now, h);
      } else {
        HolderIsKept(s, ids[1..], now, h);
      }
    }
  }

  // ---- what a tick leaves alone -------------------------------------------------------------------

  ghost predicate SameStates(s: State, t: State) {
    t.ops.at.Keys == s.ops.at.Keys && forall id :: id in s.ops.at ==> t.ops.at[id].state == s.ops.at[id].state
  }

  lemma KeptStates(s: State, t: State)
    requires Housekeeping(s, t)
    ensures SameStates(s, t)
  {
    hide RemovalsMove, EnvMoves, LoginMoves;
    assert forall id :: id in s.ops.at ==> OpKept(s.ops.at[id], t.ops.at[id]);
  }

  lemma ReconcileStates(s: State)
    requires Base(s)
    ensures SameStates(s, ReconcileAll(s).0)
  {
    hide ReconcileFlagged, Base, Housekeeping, Loses;
    ReconcileFlaggedKeeps(s, s.ops.order);
    KeptStates(s, ReconcileFlagged(s, s.ops.order).0);
  }

  lemma RestartStates(s: State, at: nat)
    requires CoreAt(s, at) && s.env.login.Idle?
    ensures SameStates(s, AfterRestart(s))
  {
    hide ReconcileAll, RetryRemovals, CoreAt, Base, Housekeeping, Flow;
    var reset := s.(proc := s.proc.(reconcileFailures := 0, nextReconcileAt := 0));
    CountersSet(s, at, 0, 0);
    CoreHasBase(reset, at);
    ReconcileStates(reset);
    ReconcileAllKeeps(reset, at);
    var r := ReconcileAll(reset).0;
    CoreHasBase(r, at);
    RetryRemovalsKeeps(r, s.pending.order);
    KeptStates(r, AfterRestart(s));
  }

  lemma EnsureStates(s: State, at: nat)
    requires CoreAt(s, at)
    ensures SameStates(s, EnsureStarted(s).0)
  {
    hide AfterRestart, CallRecover, CallStart, CoreAt, Flow;
    if !Alive(s) && s.gate.snapshot.None? {
      RestartKeeps(s, at);
      var (t, ok) := if s.proc.started then CallRecover(s) else CallStart(s);
      if ok {
        RestartStates(t.(proc := t.proc.(started := true, nativeLost := false)), at);
      }
    }
  }

  lemma RecoveryStates(s: State, now: nat)
    requires CoreAt(s, now) && s.gate.snapshot.None? && now <= s.env.clock
    ensures SameStates(s, TickRecovery(s, now).0)
  {
    hide CoreAt, RemovalTimers, HolderDue, MarkHolder, TickProcess, ReconcileAll, Alive, ReconcilePending, Flow, Housekeeping, Base;
    FoundIs(s, now);
    FoundStates(s, now);
    var b := Found(s, now);
    TickProcessKeeps(b, now);
    ProcessStates(b, now);
    CoreHasBase(TickProcess(b, now).0, now);
    ReconcileStates(TickProcess(b, now).0);
  }

  lemma FoundStates(s: State, now: nat)
    requires CoreAt(s, now)
    ensures SameStates(s, Found(s, now))
  {
    hide CoreAt, RemovalTimers, HolderDue, Housekeeping, Base;
    CoreHasBase(s, now);
    RemovalTimersKeep(s, s.pending.order, now, now >= s.proc.nextRecoveryAt);
    var a := RemovalTimers(s, s.pending.order, now, now >= s.proc.nextRecoveryAt).0;
    KeptStates(s, a);
    if HolderDue(a, now) {
      HolderDueHasHolder(a, now);
    }
  }

  lemma ProcessStates(s: State, now: nat)
    requires CoreAt(s, now)
    ensures SameStates(s, TickProcess(s, now).0)
  {
    hide EnsureStarted, CoreAt, NeedsBridge;
    EnsureStates(s, now);
  }

  /** Attempt id goes on as it did. */
  ghost predicate StaysYoung(s: State, t: State, id: OpId)
    requires id in s.ops.at
  {
    && t.cfg == s.cfg && t.ops.at.Keys == s.ops.at.Keys
    && t.ops.at[id].state == s.ops.at[id].state && t.ops.at[id].createdAt == s.ops.at[id].createdAt
  }

  lemma {:induction false} ExpireYoung(s: State, ids: seq<OpId>, now: nat, id: OpId)
    requires id in s.ops.at && now < s.ops.at[id].createdAt + s.cfg.ttl
    ensures StaysYoung(s, Expire(s, ids, now), id)
    decreases ids
  {
    hide ExpireOne;
    if ids != [] {
      OneYoung(s, ids[0], now, id);
      ExpireYoung(ExpireOne(s, ids[0], now), ids[1..], now, id);
    }
  }

  lemma OneYoung(s: State, o: OpId, now: nat, id: OpId)
    requires id in s.ops.at && now < s.ops.at[id].createdAt + s.cfg.ttl
    ensures StaysYoung(s, ExpireOne(s, o, now), id)
  {
    hide DropAttemptUser, StopAttempt;
    if o in s.ops.at && o != id {
      StopYoung(s, o, id);
      DropSpares(End(s, o, Expired, None), o);
      DropCfg(End(s, o, Expired, None), o);
    }
  }

  lemma StopYoung(s: State, o: OpId, id: OpId)
    requires o in s.ops.at && id in s.ops.at && id != o
    ensures StaysYoung(s, StopAttempt(s, o, Expired, None), id)
  {
    hide DropAttemptUser, NativeCall;
    var e := End(s, o, Expired, None);
    DropSpares(e, o);
    DropCfg(e, o);
    CallFrame(e);
  }

  lemma DropCfg(s: State, id: OpId)
    requires id in s.ops.at
    ensures DropAttemptUser(s, id).cfg == s.cfg
  {
    hide BeginRemoval, Linked, HasHeir, Handed;
    if s.ops.at[id].userId.Some? {
      BeginRemovalEntry(s, s.ops.at[id].userId.value, Attempt);
    }
  }

  /** A tick changes the state of no attempt within its lifetime, and forgets none of those, nor one that ended or was
      committed less than a lifetime ago. */
  lemma TickRemembers(s: State, m: Move, id: OpId)
    requires Inv(s) && Works(s) && m.step.DoTick? && s.gate.snapshot.None? && id in s.ops.at
    ensures var t := Do(s, m); var op := s.ops.at[id];
      && (s.env.clock < op.createdAt + s.cfg.ttl ==> id in t.ops.at && t.ops.at[id].state == op.state)
      && (op.endedAt.Some? && s.env.clock < op.endedAt.value + s.cfg.ttl ==> id in t.ops.at)
  {
    hide CoreAt, DiskOk, TickGate, Do, Prune, Expire, TickRecovery, OpFlow, Moves, Flow;
    TickParts(s, m);
    var g := s.(env := s.env.(tape := m.tape, lastTick := s.env.clock));
    OpenGateIsNone(s, m);
    CoreOfInv(g);
    TickWorkKeeps(g);
    var b := TickWork(g).0;
    WfOf(b, g.env.clock);
    OpOkOf(g, g.env.clock, id);
    SameOrder(g, b);
    MovesAt(g, b, id);
    EndIsLater(g.ops.at[id], b.ops.at[id], g.env.clock, b.env.clock, g.env.fails < b.env.fails);
    if !(b.ops.at[id].endedAt.Some? && b.ops.at[id].endedAt.value + b.cfg.ttl <= g.env.clock) {
      KeptByPrune(b, b.ops.order, g.env.clock, id);
    }
    if s.env.clock < s.ops.at[id].createdAt + s.cfg.ttl {
      ExpireYoung(g, g.ops.order, g.env.clock, id);
      ExpireKeeps(g, g.ops.order, g.env.clock, g.env.clock);
      var a := Expire(g, g.ops.order, g.env.clock);
      FlowIsMoves(g, a);
      RecoveryStates(a, g.env.clock);
    }
  }

  lemma OpOkOf(s: State, at: nat, id: OpId)
    requires CoreAt(s, at) && id in s.ops.at
    ensures OpOk(s.ops.at[id], s.env.clock)
  {
    hide LoginOk, ProcOk, LeasesOk, SealOk, JournalOk, SlotOk, LinksOk, PendingOk, CallsOk, OpOk;
  }

  lemma EndIsLater(o: Operation, p: Operation, c: nat, d: nat, late: bool)
    requires OpFlow(o, p, c, d, late)
    ensures p.createdAt == o.createdAt && (p.endedAt == o.endedAt || (p.endedAt.Some? && c <= p.endedAt.value))
  {
  }

  lemma {:induction false} KeptByPrune(s: State, ids: seq<OpId>, now: nat, id: OpId)
    requires id in s.ops.at && !(s.ops.at[id].endedAt.Some? && s.ops.at[id].endedAt.value + s.cfg.ttl <= now)
    ensures var t := Prune(s, ids, now); id in t.ops.at && t.ops.at[id] == s.ops.at[id]
    decreases ids
  {
    if ids != [] {
      if ids[0] in s.ops.at && Prunable(s, ids[0], now) {
        KeptByPrune(s.(ops := s.ops.Drop(ids[0])), ids[1..], now, id);
      } else {
        KeptByPrune(s, ids[1..], now, id);
      }
    }
  }

  // ---- a Bridge that does not answer --------------------------------------------------------------

  lemma SilentList(s: State)
    requires s.env.tape == [] && !s.env.dead
    ensures var (t, users) := ListUsers(s);
      users.None? && t == s.(env := t.env) && t.env.tape == [] && !t.env.dead && t.env.clock == s.env.clock && t.env.running == s.env.running
  {
    hide Accountable;
  }

  /** A listing that fails leaves every mark. */
  lemma {:induction false} FlaggedSilent(s: State, ids: seq<OpId>)
    requires s.env.tape == [] && !s.env.dead
    ensures var (t, ok) := ReconcileFlagged(s, ids);
      && t == s.(env := t.env) && t.env.clock == s.env.clock
      && (ok <==> forall i :: 0 <= i < |ids| ==> ids[i] !in s.ops.at || !s.ops.at[ids[i]].reconcile)
    decreases ids
  {
    hide ListUsers;
    if ids != [] {
      SilentList(s);
      FlaggedSilent(s, ids[1..]);
      FlaggedSilent(ListUsers(s).0, ids[1..]);
      assert ids == [ids[0]] + ids[1..];
    }
  }

  /** And puts off the end of the slot's holder to now, which spaces the next recovery. */
  lemma FailurePutsOff(s: State, h: OpId, id: OpId)
    requires s.env.tape == [] && !s.env.dead && s.ops.Wf() && s.slot == Some(h) && h in s.ops.at && id in s.ops.at && s.ops.at[id].reconcile
    ensures var (t, ok) := ReconcileAll(s);
      !ok && t.slot == Some(h) && t.ops == s.ops.(at := s.ops.at[h := s.ops.at[h].(endedAt := Some(s.env.clock))])
  {
    hide ReconcileFlagged, Min, Pow2, Loses;
    FlaggedSilent(s, s.ops.order);
    var i :| 0 <= i < |s.ops.order| && s.ops.order[i] == id;
  }

  lemma {:induction false} NothingExpires(s: State, ids: seq<OpId>, now: nat)
    requires forall id :: id in s.ops.at ==> now < s.ops.at[id].createdAt + s.cfg.ttl || Ended(s.ops.at[id].state) || s.ops.at[id].committed
    requires forall id :: id in s.ops.at && s.ops.at[id].committed ==> s.ops.at[id].state.Connected?
    ensures Expire(s, ids, now) == s
    decreases ids
  {
    hide StopAttempt, DropAttemptUser;
    if ids != [] {
      NothingExpires(s, ids[1..], now);
    }
  }

  /** A living Bridge that does not list its users while an attempt is marked is asked again after 2, 4, 8, ... and at
      most 60 seconds; from the fifth failure on it is recovered, from the time the last recovery set. */
  lemma TickRetries(s: State, m: Move, id: OpId)
    requires Inv(s) && Works(s) && m == Move(DoTick, []) && s.gate.snapshot.None? && !s.proc.recovering && Alive(s)
    requires s.slot.None? && s.pending == EmptyDict() && id in s.ops.at && s.ops.at[id].reconcile
    requires forall o :: o in s.ops.at ==> s.env.clock < s.ops.at[o].createdAt + s.cfg.ttl || Ended(s.ops.at[o].state) || s.ops.at[o].committed
    ensures var t := Do(s, m); var n := s.proc.reconcileFailures + 1;
      if s.env.clock < s.proc.nextReconcileAt then t.proc == s.proc
      else && t.proc.reconcileFailures == n && t.proc.nextReconcileAt == s.env.clock + Min(Pow2(n), 60)
           && (t.proc.recovering <==> n >= 5 && s.proc.nextRecoveryAt <= s.env.clock)
  {
    hide CoreAt, DiskOk, Expire, ReconcileFlagged, TickGate, Do, Prune, Pow2, Min;
    TickParts(s, m);
    var g := s.(env := s.env.(tape := m.tape, lastTick := s.env.clock));
    OpenGateIsNone(s, m);
    CommittedConnected(s);
    NothingExpires(g, g.ops.order, g.env.clock);
    FlaggedSilent(g, g.ops.order);
    var i := PlaceOf(s, id);
    assert ReconcilePending(g) && Alive(g);
  }

  lemma CommittedConnected(s: State)
    requires Inv(s)
    ensures forall id :: id in s.ops.at && s.ops.at[id].committed ==> s.ops.at[id].state.Connected?
  {
    hide LoginOk, ProcOk, LeasesOk, SealOk, JournalOk, SlotOk, LinksOk, PendingOk, CallsOk, DiskOk;
  }

  lemma PlaceOf(s: State, id: OpId) returns (i: nat)
    requires Inv(s) && id in s.ops.at
    ensures i < |s.ops.order| && s.ops.order[i] == id
  {
    CoreOfInv(s);
    WfOf(s, s.env.clock);
    i :| 0 <= i < |s.ops.order| && s.ops.order[i] == id;
  }

  /** The end of a recovery: it is over, Bridge is started if and only if its restart succeeded and the worker was not
      shut down meanwhile, and a lost stream is forgotten. After a failure the end of the slot's holder counts from
      now, which spaces the next recovery. */
  lemma RecoverEnds(s: State, m: Move)
    requires Inv(s) && !s.env.dead && m.step.DoRecoverFinish? && s.proc.restarted.Some?
    ensures var t := Do(s, m);
      && !t.proc.recovering && t.proc.restarted.None? && !t.proc.nativeLost && t.proc.started == (s.proc.restarted.value && !s.proc.closed)
      && (!t.proc.started && s.slot.Some? && s.slot.value in s.ops.at ==>
            t.slot == s.slot && s.slot.value in t.ops.at && t.ops.at[s.slot.value] == s.ops.at[s.slot.value].(endedAt := Some(s.env.clock)))
  {
    hide RecoverFinish, CoreAt, DiskOk;
    TapeKeeps(s, m.tape);
    var q := s.(env := s.env.(tape := m.tape));
    if s.proc.restarted.value && !s.proc.closed {
      RecoverySucceeds(q);
    } else {
      RecoveryFails(q);
    }
  }

  lemma RecoverySucceeds(s: State)
    requires Inv(s) && s.proc.restarted == Some(true) && !s.proc.closed
    ensures var p := RecoverFinish(s).proc; !p.recovering && p.restarted.None? && !p.nativeLost && p.started
  {
    hide AfterRestart, Save, CoreAt, Flow;
    FinishCore(s);
    var t := s.(proc := s.proc.(recovering := false, restarted := None, started := true, nativeLost := false));
    AfterRestartKeeps(t, s.env.clock);
    RestartProc(t, AfterRestart(t));
  }

  lemma RecoveryFails(s: State)
    requires s.proc.restarted.Some? && !(s.proc.restarted.value && !s.proc.closed)
    ensures var t := RecoverFinish(s);
      && t.proc == s.proc.(recovering := false, restarted := None, started := false, nativeLost := false) && t.slot == s.slot
      && (s.slot.Some? && s.slot.value in s.ops.at ==>
            s.slot.value in t.ops.at && t.ops.at[s.slot.value] == s.ops.at[s.slot.value].(endedAt := Some(s.env.clock)))
  {
    hide Save;
  }

  lemma RestartProc(s: State, t: State)
    requires Flow(s, t)
    ensures t.proc.recovering == s.proc.recovering && t.proc.restarted == s.proc.restarted
  {
  }
}
