/** How long a sign-in can hold the slot. */
module BridgeTiming {
  import opened Wrappers
  import opened Dicts
  import opened BridgeTypes
  import opened BridgeSpec
  import opened BridgeMachine
  import opened BridgeShape
  import opened BridgeInvariant
  import opened BridgeSections
  import opened BridgeFrames
  import opened BridgePromises

  function Max(a: nat, b: nat): nat {
    if a < b then b else a
  }

  /** After this long an ended holder is due for a recovery that is allowed. */
  function Patience(cfg: Config): nat {
    Max(cfg.recoverySeconds, RECOVERY_BACKOFF_CAP)
  }

  /** The worker lives, the gate is open and the last tick at most d seconds ago. */
  ghost predicate Attentive(s: State, d: nat) {
    !s.env.dead && s.gate.snapshot.None? && !s.proc.closed && s.env.lastTick <= s.env.clock <= s.env.lastTick + d
  }

  /** How far an ended attempt o has kept the clock from running, the last tick at time tick. */
  ghost predicate EndTimed(o: Operation, cfg: Config, proc: Proc, tick: nat, d: nat) {
    && o.endedAt.Some? && o.endedAt.value <= o.createdAt + cfg.ttl + 2 * d
    && (if proc.recovering then tick <= o.endedAt.value + Patience(cfg) + d
        else tick <= o.endedAt.value + Patience(cfg) && proc.nextRecoveryAt <= o.endedAt.value + RECOVERY_BACKOFF_CAP)
  }

  ghost predicate OpTimed(o: Operation, cfg: Config, proc: Proc, tick: nat, d: nat) {
    && (Active(o.state) ==> tick <= o.createdAt + cfg.ttl)
    && (Ended(o.state) ==> EndTimed(o, cfg, proc, tick, d))
  }

  ghost predicate Timed(s: State, d: nat) {
    && s.proc.restarted != Some(false)
    && (s.slot.Some? && s.slot.value in s.ops.at ==> OpTimed(s.ops.at[s.slot.value], s.cfg, s.proc, s.env.lastTick, d))
  }

  /** What is known of the recovery timer at any time. */
  lemma NextRecoveryBound(s: State)
    requires Inv(s)
    ensures s.proc.nextRecoveryAt <= s.env.clock + RECOVERY_BACKOFF_CAP
  {
    hide Base, SlotOk, LoginOk, LeasesOk, SealOk, DiskOk;
  }

  /** A holder that flows between two ticks stays in time. */
  lemma FlowTimed(o: Operation, p: Operation, cfg: Config, proc: Proc, tick: nat, c: nat, e: nat, d: nat)
    requires OpTimed(o, cfg, proc, tick, d) && OpFlow(o, p, c, e, false) && !o.state.Connected?
    requires tick <= c <= e <= tick + d && proc.nextRecoveryAt <= c + RECOVERY_BACKOFF_CAP
    ensures OpTimed(p, cfg, proc, tick, d)
  {
  }

  // ---- sign-ins -----------------------------------------------------------------------------------

  /** The attempt a sign-in has put into the slot. */
  ghost predicate NewHolder(s: State, t: State, id: OpId) {
    && t.slot == Some(id) && id in t.ops.at && t.proc.nextRecoveryAt == s.proc.nextRecoveryAt && !t.proc.recovering
    && var o := t.ops.at[id];
       s.env.clock <= o.createdAt <= t.env.clock &&
       (Active(o.state) || (Ended(o.state) && o.endedAt.Some? && o.createdAt <= o.endedAt.value <= t.env.clock))
  }

  lemma StartTimes(s: State, id: OpId, email: Email, password: string)
    requires Inv(s)
    ensures var t := StartConnection(s, id, email, password).0; t.slot == s.slot || t.slot.None? || NewHolder(s, t, id)
  {
    hide EnsureStarted, ListUsers, SignIn, CoreAt, DiskOk, Flow, Moves, Housekeeping, OpFlow;
    if id !in s.ops.at && !Busy(s) {
      EnsureStartedKeeps(s, s.env.clock);
      var (t, error) := EnsureStarted(s);
      KeepsInv(s, t);
      MovesHolder(s, t);
      if error.None? && !Busy(t) {
        CoreHasBase(t, s.env.clock);
        ListUsersKeeps(t);
        var (l, users) := ListUsers(t);
        HousekeepingInv(t, l);
        MovesTransitive(s, t, l);
        MovesHolder(s, l);
        if users.Some? {
          FlowKeys(s, t);
          assert !Busy(l);
          StartedStays(s, t, error);
          SignInEnters(l, id, email, users.value);
        }
      }
    }
  }

  lemma MovesHolder(s: State, t: State)
    requires Moves(s, t)
    ensures (t.slot == s.slot || t.slot.None?) && t.proc.nextRecoveryAt == s.proc.nextRecoveryAt && s.env.clock <= t.env.clock
    ensures t.proc.recovering == s.proc.recovering
  {
    hide OpsFlow, Logins, CallsSpare, RemovalsKept;
  }

  lemma NewHolderTimed(s: State, t: State, id: OpId, d: nat)
    requires Inv(s) && NewHolder(s, t, id) && s.env.lastTick <= s.env.clock && t.env.clock <= t.env.lastTick + d
    requires t.env.lastTick == s.env.lastTick && t.cfg == s.cfg
    ensures OpTimed(t.ops.at[id], t.cfg, t.proc, t.env.lastTick, d)
  {
    hide Inv;
    NextRecoveryBound(s);
  }

  // ---- ticks --------------------------------------------------------------------------------------

  /** An attempt that had ended before time now, long enough ago for a recovery, which is allowed. */
  ghost predicate LongEnded(o: Operation, p: Operation, cfg: Config, proc: Proc, now: nat) {
    && Ended(p.state) && p.endedAt == o.endedAt && p.endedAt.Some? && p.endedAt.value < now
    && p.endedAt.value + cfg.recoverySeconds <= now && proc.nextRecoveryAt <= now
  }

  /** The attempt that holds the slot after the work of a tick: expired if it was due, and being recovered if
      it had ended long ago. */
  lemma TickHolder(s: State)
    requires Core(s) && s.gate.snapshot.None? && !s.proc.recovering
    requires var b := TickWork(s).0; b.env.fails == s.env.fails && b.slot.Some? && b.slot.value in b.ops.at
    ensures var (b, recover) := TickWork(s); var h := b.slot.value; var p := b.ops.at[h];
      && s.slot == Some(h) && h in s.ops.at && !s.ops.at[h].state.Connected?
      && OpFlow(s.ops.at[h], p, s.env.clock, b.env.clock, false)
      && (Active(p.state) ==> s.env.clock < p.createdAt + s.cfg.ttl)
      && (LongEnded(s.ops.at[h], p, s.cfg, s.proc, s.env.clock) ==> recover)
  {
    hide CoreAt, Expire, TickRecovery, Flow, OpFlow, Moves, Base, Housekeeping, RemovalTimers;
    var now := s.env.clock;
    TickWorkKeeps(s);
    var (b, recover) := TickWork(s);
    var h := b.slot.value;
    var p := b.ops.at[h];
    MovesHolder(s, b);
    MovesAt(s, b, h);
    CoreHasBase(s, now);
    HolderExists(s.ops.at, s.slot);
    ExpireKeeps(s, s.ops.order, now, now);
    var a := Expire(s, s.ops.order, now);
    FlowIsMoves(s, a);
    MovesHolder(s, a);
    MovesProc(s, a);
    MovesAt(s, a, h) by { FlowKeys(s, a); }
    TickRecoveryKeeps(a, now);
    MovesAt(a, b, h);
    MovesHolder(a, b);
    FailsGrow(s, a, b);
    if Active(p.state) && p.createdAt + s.cfg.ttl <= now {
      WorkSettles(s);
      OpsOkListed(s.ops, now, h) by { BaseOps(s); }
      CoreHasBase(b, now);
      OpsOkAt(b.ops, b.env.clock, h) by { BaseOps(b); }
      assert false;
    }
    if LongEnded(s.ops.at[h], p, s.cfg, s.proc, now) {
      EndedBefore(s.ops.at[h], p, now, b.env.clock);
      EndedThroughout(s.ops.at[h], a.ops.at[h], now, a.env.clock);
      HolderIsDue(a, now, h);
    }
  }

  lemma BaseOps(s: State)
    requires Base(s)
    ensures OpsOk(s.ops, s.env.clock)
  {
  }

  lemma FailsGrow(s: State, a: State, b: State)
    requires Flow(s, a) && Moves(a, b)
    ensures s.env.fails <= a.env.fails <= b.env.fails
  {
    hide OpsFlow, Logins, CallsSpare, RemovalsKept;
  }

  lemma EndedBefore(o: Operation, p: Operation, c: nat, d: nat)
    requires OpFlow(o, p, c, d, false) && Ended(p.state) && p.endedAt.Some? && p.endedAt.value < c
    ensures Ended(o.state)
  {
  }

  lemma EndedThroughout(o: Operation, p: Operation, c: nat, d: nat)
    requires OpFlow(o, p, c, d, false) && Ended(o.state)
    ensures Ended(p.state) && p.endedAt == o.endedAt
  {
  }

  /** tick recovers Bridge under a holder that ended recovery_seconds ago. */
  lemma HolderIsDue(s: State, now: nat, h: OpId)
    requires CoreAt(s, now) && s.gate.snapshot.None? && now <= s.env.clock && s.proc.nextRecoveryAt <= now
    requires s.slot == Some(h) && h in s.ops.at && Ended(s.ops.at[h].state)
    requires s.ops.at[h].endedAt.Some? && s.ops.at[h].endedAt.value + s.cfg.recoverySeconds <= now
    ensures TickRecovery(s, now).1
  {
    hide CoreAt, RemovalTimers, MarkHolder, TickProcess, ReconcileAll, Base, OpKept;
    CoreHasBase(s, now);
    HolderUserless(s.ops.at, s.slot);
    RemovalTimersKeep(s, s.pending.order, now, true);
    var a := RemovalTimers(s, s.pending.order, now, true).0;
    KeptAt(s.ops, a.ops, h);
    OpKeptEnd(s.ops.at[h], a.ops.at[h]);
    assert HolderDue(a, now);
  }

  lemma HolderUserless(ops: map<OpId, Operation>, slot: Option<OpId>)
    requires SlotOk(ops, slot) && slot.Some?
    ensures slot.value in ops && (Ended(ops[slot.value].state) ==> ops[slot.value].userId.None?)
  {
  }

  lemma OpKeptEnd(o: Operation, p: Operation)
    requires OpKept(o, p)
    ensures p.state == o.state && p.endedAt == o.endedAt && p.userId == o.userId
  {
  }

  lemma PruneHolder(b: State, now: nat)
    requires b.ops.Wf()
    ensures var c := Prune(b, b.ops.order, now);
      c == b.(ops := c.ops) && c.ops.at.Keys <= b.ops.at.Keys &&
      (b.slot.Some? && b.slot.value in c.ops.at ==> c.ops.at[b.slot.value] == b.ops.at[b.slot.value])
  {
    hide Prune;
    PruneForgets(b, b.ops.order, now);
  }

  lemma TickTimed(s: State, d: nat)
    requires Inv(s) && Timed(s, d) && Attentive(s, d) && !s.proc.recovering
    requires Attentive(Tick(s), d) && Tick(s).env.fails == s.env.fails
    ensures Timed(Tick(s), d)
  {
    hide Inv, CoreAt, DiskOk, TickWork, Prune, Moves, Save, OpFlow, Tick;
    var t := s.(env := s.env.(lastTick := s.env.clock));
    StampKeeps(s);
    assert Core(t) by { InvCore(t); }
    TickIsWork(s);
    TickWorkKeeps(t);
    var (b, recover) := TickWork(t);
    MovesProc(t, b);
    assert b.ops.Wf() by { CoreHasBase(b, t.env.clock); OpsOkWf(b.ops, b.env.clock); }
    PruneHolder(b, t.env.clock);
    var r := Tick(s);
    if r.slot.Some? && r.slot.value in r.ops.at {
      TickHolder(t);
      NextRecoveryBound(t);
      HolderTicks(s.ops.at[r.slot.value], r.ops.at[r.slot.value], s.cfg, s.proc, r.proc, s.env.lastTick, s.env.clock, r.env.clock, d);
    }
  }

  lemma InvCore(s: State)
    requires Inv(s)
    ensures Core(s)
  {
  }

  lemma MovesProc(s: State, t: State)
    requires Moves(s, t)
    ensures t.proc.restarted == s.proc.restarted && t.proc.recovering == s.proc.recovering && t.proc.nextRecoveryAt == s.proc.nextRecoveryAt
    ensures t.env.lastTick == s.env.lastTick && t.cfg == s.cfg
  {
    hide OpsFlow, Logins, CallsSpare, RemovalsKept;
  }

  /** The holder o before a tick at time now, p after it. */
  lemma HolderTicks(o: Operation, p: Operation, cfg: Config, before: Proc, after: Proc, tick: nat, now: nat, later: nat, d: nat)
    requires OpTimed(o, cfg, before, tick, d) && OpFlow(o, p, now, later, false) && !o.state.Connected? && !before.recovering
    requires tick <= now <= tick + d && now <= later <= now + d
    requires after.nextRecoveryAt == before.nextRecoveryAt <= now + RECOVERY_BACKOFF_CAP
    requires Active(p.state) ==> now < p.createdAt + cfg.ttl
    requires LongEnded(o, p, cfg, before, now) ==> after.recovering
    ensures OpTimed(p, cfg, after, now, d)
  {
    if Ended(o.state) {
      assert p.endedAt == o.endedAt;
    }
  }

  // ---- recoveries ---------------------------------------------------------------------------------

  lemma RecoverNativeTimed(s: State, d: nat)
    requires Timed(s, d) && RecoverNative(s).env.fails == s.env.fails
    ensures Timed(RecoverNative(s), d)
  {
    hide RecoverNative, EndTimed;
    RecoverNativeHolder(s);
    if s.proc.recovering && s.slot.Some? && s.slot.value in s.ops.at {
      StillRecovering(s.ops.at[s.slot.value], s.cfg, s.proc, RecoverNative(s).proc, s.env.lastTick, d);
    }
  }

  lemma RecoverNativeHolder(s: State)
    ensures var t := RecoverNative(s);
      && t.cfg == s.cfg && t.ops == s.ops && t.slot == s.slot && t.env.lastTick == s.env.lastTick && t.proc.recovering == s.proc.recovering
      && (s.proc.recovering || t.proc == s.proc)
      && (t.env.fails == s.env.fails ==> t.proc.restarted == s.proc.restarted || t.proc.restarted == Some(true))
  {
    hide Turn, Min, Pow2;
    TurnSilent(Popped(Stamped(s)), Next(Stamped(s)));
  }

  lemma TurnSilent(s: State, a: Answer)
    ensures var t := Turn(s, a); t == s.(env := t.env) && t.env.fails == s.env.fails && t.env.lastTick == s.env.lastTick
  {
    hide Accountable;
  }

  lemma StillRecovering(o: Operation, cfg: Config, before: Proc, after: Proc, tick: nat, d: nat)
    requires before.recovering && after.recovering
    ensures OpTimed(o, cfg, before, tick, d) ==> OpTimed(o, cfg, after, tick, d)
  {
  }

  /** A recovery that succeeds frees the slot of an ended holder. */
  lemma RestartFrees(s: State)
    requires CoreAt(s, s.env.clock) && s.env.login.Idle? && AfterRestart(s).env.fails == s.env.fails
    ensures var t := AfterRestart(s); t.slot.Some? && t.slot.value in t.ops.at ==> Active(t.ops.at[t.slot.value].state)
  {
    hide ReconcileFlagged, RetryRemovals, Loses, OpsOk, OpsKept, AllQuiet, Logins, SlotOk, JournalOk, LinksOk, PendingOk, CallsOk, RemovalsMove;
    var noted := s.(proc := s.proc.(reconcileFailures := 0, nextReconcileAt := 0));
    assert Base(noted) && CoreAt(noted, s.env.clock);
    ReconcileFlaggedKeeps(noted, noted.ops.order);
    var (f, ok) := ReconcileFlagged(noted, noted.ops.order);
    assert CoreAt(f, s.env.clock) by { HousekeepingKeeps(noted, f, s.env.clock); }
    ReconciledKeeps(f, ok, s.env.clock);
    var r := Reconciled(f, ok);
    RetryRemovalsKeeps(r, s.pending.order);
  }

  lemma RecoverFinishTimed(s: State, d: nat)
    requires Inv(s) && Timed(s, d) && !s.proc.closed && RecoverFinish(s).env.fails == s.env.fails
    ensures Timed(RecoverFinish(s), d)
  {
    hide Inv, AfterRestart, OpFlow, Save, CoreAt, Framed;
    if s.proc.restarted.Some? {
      var t := s.(proc := s.proc.(recovering := false, restarted := None, started := true, nativeLost := false));
      FinishCore(s);
      AfterRestartKeeps(t, s.env.clock);
      RestartFrees(t);
      var r := RecoverFinish(s);
      FlowIsMoves(t, AfterRestart(t));
      MovesProc(t, AfterRestart(t));
      MovesHolder(t, AfterRestart(t));
      if r.slot.Some? && r.slot.value in r.ops.at {
        MovesAt(t, AfterRestart(t), r.slot.value);
        assert r.ops.at[r.slot.value] == AfterRestart(t).ops.at[r.slot.value];
        StillActive(s.ops.at[r.slot.value], r.ops.at[r.slot.value], s.env.clock, r.env.clock);
      }
    }
  }

  lemma StillActive(o: Operation, p: Operation, c: nat, d: nat)
    requires OpFlow(o, p, c, d, false) && Active(p.state)
    ensures Active(o.state) && p.createdAt == o.createdAt && !Ended(p.state)
  {
  }

  // ---- all steps ----------------------------------------------------------------------------------

  lemma CommitHolder(s: State, m: Move)
    requires m.step.DoCommit? && (s.slot.Some? && s.slot.value in s.ops.at ==> !s.ops.at[s.slot.value].state.Connected?)
    ensures var t := Do(s, m); t.slot == s.slot && t.proc == s.proc && t.env.lastTick == s.env.lastTick && t.cfg == s.cfg
    ensures s.slot.Some? && s.slot.value in s.ops.at ==>
      s.slot.value in Do(s, m).ops.at && Do(s, m).ops.at[s.slot.value] == s.ops.at[s.slot.value]
    ensures s.slot.Some? && s.slot.value !in s.ops.at ==> s.slot.value !in Do(s, m).ops.at
  {
    hide Save, Finalizing;
  }

  lemma FramedHolder(s: State, step: Step, t: State)
    requires Framed(s, step, t) && !step.DoStart? && !step.DoCommit? && !step.DoTick? && !step.DoRecoverNative? && !step.DoRecoverFinish?
    ensures t.cfg == s.cfg && (t.slot == s.slot || t.slot.None?) && s.env.clock <= t.env.clock && t.env.lastTick == s.env.lastTick
    ensures t.proc.recovering == s.proc.recovering && t.proc.nextRecoveryAt == s.proc.nextRecoveryAt && t.proc.restarted == s.proc.restarted
    ensures t.env.fails == s.env.fails && t.slot.Some? && t.slot.value in t.ops.at ==>
      t.slot.value in s.ops.at && OpFlow(s.ops.at[t.slot.value], t.ops.at[t.slot.value], s.env.clock, t.env.clock, false)
  {
    hide OpFlow, Logins, CallsSpare, RemovalsKept;
  }

  lemma SameTimers(o: Operation, cfg: Config, p: Proc, q: Proc, tick: nat, d: nat)
    requires p.recovering == q.recovering && p.nextRecoveryAt == q.nextRecoveryAt
    ensures OpTimed(o, cfg, p, tick, d) ==> OpTimed(o, cfg, q, tick, d)
  {
  }

  /** Every step keeps the holder in time while the gate is open, Bridge answers and tick is called. */
  lemma StepTimed(s: State, m: Move, d: nat)
    requires Inv(s) && Timed(s, d) && Attentive(s, d) && Attentive(Do(s, m), d) && Do(s, m).env.fails == s.env.fails
    requires !m.step.Reload? && (m.step.DoTick? ==> !s.proc.recovering)
    ensures Timed(Do(s, m), d)
  {
    hide Inv, OpTimed, Framed, Tick, RecoverNative, RecoverFinish, StartConnection;
    var q := s.(env := s.env.(tape := m.tape));
    TapeKeeps(s, m.tape);
    var t := Do(s, m);
    HolderOf(s);
    if m.step.DoTick? {
      TickTimed(q, d);
    } else if m.step.DoRecoverNative? {
      RecoverNativeTimed(q, d);
    } else if m.step.DoRecoverFinish? {
      RecoverFinishTimed(q, d);
    } else if m.step.DoCommit? {
      CommitHolder(s, m);
    } else {
      Frames(s, m);
      if m.step.DoStart? {
        StartTimed(s, m, d);
      } else {
        OtherTimed(s, m, d);
      }
    }
  }

  lemma HolderOf(s: State)
    requires Inv(s)
    ensures s.slot.Some? ==> s.slot.value in s.ops.at && !s.ops.at[s.slot.value].state.Connected?
  {
    hide Base, LoginOk, LeasesOk, SealOk, ProcOk, DiskOk;
  }

  lemma OtherTimed(s: State, m: Move, d: nat)
    requires Inv(s) && Timed(s, d) && Attentive(s, d) && Attentive(Do(s, m), d) && Do(s, m).env.fails == s.env.fails
    requires Framed(s, m.step, Do(s, m))
    requires !m.step.DoStart? && !m.step.DoCommit? && !m.step.DoTick? && !m.step.DoRecoverNative? && !m.step.DoRecoverFinish?
    ensures Timed(Do(s, m), d)
  {
    hide Inv, OpTimed, Framed, Do, OpFlow;
    var t := Do(s, m);
    HolderOf(s);
    FramedHolder(s, m.step, t);
    NextRecoveryBound(s);
    if t.slot.Some? && t.slot.value in t.ops.at {
      FlowTimed(s.ops.at[t.slot.value], t.ops.at[t.slot.value], s.cfg, s.proc, s.env.lastTick, s.env.clock, t.env.clock, d);
      SameTimers(t.ops.at[t.slot.value], s.cfg, s.proc, t.proc, s.env.lastTick, d);
    }
  }

  lemma StartTimed(s: State, m: Move, d: nat)
    requires Inv(s) && Timed(s, d) && Attentive(s, d) && Attentive(Do(s, m), d) && Do(s, m).env.fails == s.env.fails
    requires Framed(s, m.step, Do(s, m)) && m.step.DoStart?
    ensures Timed(Do(s, m), d)
  {
    hide Inv, OpTimed, Framed, Do, OpFlow, StartConnection, NewHolder;
    var q := s.(env := s.env.(tape := m.tape));
    var t := Do(s, m);
    TapeKeeps(s, m.tape);
    ApplyStart(s, m);
    HolderOf(s);
    StartFrame(s, m.step, t);
    StartTimes(q, m.step.id, m.step.email, m.step.password);
    if t.slot.Some? && t.slot.value in t.ops.at {
      if t.slot == s.slot {
        NextRecoveryBound(s);
        FlowTimed(s.ops.at[t.slot.value], t.ops.at[t.slot.value], s.cfg, s.proc, s.env.lastTick, s.env.clock, t.env.clock, d);
        SameTimers(t.ops.at[t.slot.value], s.cfg, s.proc, t.proc, s.env.lastTick, d);
      } else {
        NewHolderSlot(q, t, m.step.id);
        NewHolderTimed(q, t, m.step.id, d);
      }
    }
  }

  lemma NewHolderSlot(s: State, t: State, id: OpId)
    requires NewHolder(s, t, id)
    ensures t.slot == Some(id)
  {
  }

  lemma StartFrame(s: State, step: Step, t: State)
    requires Framed(s, step, t) && step.DoStart?
    ensures t.cfg == s.cfg && s.env.clock <= t.env.clock && t.env.lastTick == s.env.lastTick
    ensures t.proc.recovering == s.proc.recovering && t.proc.nextRecoveryAt == s.proc.nextRecoveryAt && t.proc.restarted == s.proc.restarted
    ensures t.env.fails == s.env.fails ==> forall id :: id in s.ops.at && id in t.ops.at ==>
      OpFlow(s.ops.at[id], t.ops.at[id], s.env.clock, t.env.clock, false)
  {
    hide OpFlow, Logins, CallsSpare, RemovalsKept;
  }

  /** The run is calm: the gate stays open, no restart and no listing of users fails, the worker is not
      restarted, and tick, which waits for a running recovery, comes at least every d seconds. */
  ghost predicate Calm(s: State, moves: seq<Move>, d: nat, k: nat)
    requires k <= |moves|
  {
    && (forall i :: 0 <= i <= k ==> Attentive(After(s, moves, i), d) && After(s, moves, i).env.fails == s.env.fails)
    && (forall i :: 0 <= i < k ==> !moves[i].step.Reload? && (moves[i].step.DoTick? ==> !After(s, moves, i).proc.recovering))
  }

  lemma {:induction false} RunTimed(s: State, moves: seq<Move>, d: nat, k: nat)
    requires Inv(s) && Timed(s, d) && k <= |moves| && Calm(s, moves, d, k)
    ensures Timed(After(s, moves, k), d)
  {
    hide Inv, Do, Timed, Attentive;
    if k == 0 {
      assert moves[..0] == [];
    } else {
      RunTimed(s, moves, d, k - 1);
      AfterKeeps(s, moves, k - 1);
      AfterStep(s, moves, k - 1);
      StepTimed(After(s, moves, k - 1), moves[k - 1], d);
    }
  }

  /** Bounded liveness: in a calm run a sign-in holds the slot at most
      ttl + max(recovery_seconds, 300) + 4d seconds, whatever becomes of it. */
  lemma SlotIsFreed(s: State, moves: seq<Move>, d: nat, k: nat)
    requires Inv(s) && s.slot.None? && s.proc.restarted != Some(false) && k <= |moves| && Calm(s, moves, d, k)
    ensures var t := After(s, moves, k);
      t.slot.Some? ==>
        t.slot.value in t.ops.at && t.env.clock <= t.ops.at[t.slot.value].createdAt + t.cfg.ttl + Patience(t.cfg) + 4 * d
  {
    hide Inv, Do;
    RunTimed(s, moves, d, k);
    AfterKeeps(s, moves, k);
    HolderOf(After(s, moves, k));
    HolderState(After(s, moves, k));
    assert Attentive(After(s, moves, k), d);
  }

  lemma HolderState(s: State)
    requires Inv(s)
    ensures s.slot.Some? ==> s.slot.value in s.ops.at && (Active(s.ops.at[s.slot.value].state) || Ended(s.ops.at[s.slot.value].state))
  {
    HolderOf(s);
  }
}
