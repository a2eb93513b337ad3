/** What the snapshot gate and the send leases promise over whole runs. */
module BridgeGate {
  import opened Wrappers
  import opened Dicts
  import opened BridgeTypes
  import opened BridgeSpec
  import opened BridgeMachine
  import opened BridgeShape
  import opened BridgeInvariant
  import opened BridgeSections
  import opened BridgeFrames
  import opened BridgePromises

  // ---- the sealed gate ----------------------------------------------------------------------------

  /** Nothing moves under a sealed gate: Bridge is not started and not being started, nothing is sent, no
      attempt is active or waits for its commit. */
  ghost predicate Still(s: State) {
    && s.gate.sealed && s.gate.snapshot.Some? && s.gate.leases == {} && !s.proc.started && !s.proc.recovering
    && forall id :: id in s.ops.at ==> Quiet(s.ops.at[id], s.env.clock, s.cfg.ttl)
  }

  lemma SealedIsStill(s: State)
    requires Inv(s) && s.gate.sealed
    ensures Still(s)
  {
    hide Base, SlotOk, LoginOk, ProcOk, LeasesOk, DiskOk, Quiet;
  }

  /** The accepted end of a drain seals the gate; what is sealed is still, and a Bridge the controller had
      started runs no more. */
  lemma DrainSeals(s: State, id: SnapshotId, deadline: nat)
    requires Inv(s) && DrainRound(s, id, deadline).1 == Accepted
    ensures var t := DrainRound(s, id, deadline).0;
      Still(t) && t.gate.snapshot == Some(id) && t.links == s.links && (t.env.running ==> s.env.running && !s.proc.started)
  {
    hide SettleHolder, CoreAt, DiskOk, Moves, LoginActive, Save, Still;
    DrainKeeps(s, id, deadline);
    var t := DrainRound(s, id, deadline).0;
    SealedIsStill(t);
    DrainLinks(s, t);
    SettleProc(s);
    if SettleHolder(s).proc.started {
      DrainStops(SettleHolder(s));
    } else {
      SettleRuns(s);
    }
  }

  lemma DrainLinks(s: State, t: State)
    requires Moves(s, t)
    ensures t.links == s.links
  {
    hide OpsFlow;
  }

  lemma SettleProc(s: State)
    requires Inv(s)
    ensures SettleHolder(s).proc == s.proc && SettleHolder(s).gate == s.gate && (SettleHolder(s).env.running ==> s.env.running)
  {
    hide StopAttempt, CoreAt, DiskOk, OpsFlow;
    if Holder(s).Some? && Active(Holder(s).value.state) {
      StopAttemptKeeps(s, s.slot.value, Expired, None, s.env.clock);
      StopRuns(s, s.slot.value);
    }
  }

  lemma StopRuns(s: State, id: OpId)
    requires id in s.ops.at
    ensures StopAttempt(s, id, Expired, None).env.running ==> s.env.running
  {
    hide Accountable, Linked, Held, HasHeir;
  }

  lemma SettleRuns(s: State)
    requires Inv(s)
    ensures SettleHolder(s).env.running ==> s.env.running
  {
    SettleProc(s);
  }

  lemma DrainStops(s: State)
    ensures var (r, ok) := CallShutdown(s.(proc := s.proc.(started := false))); ok ==> !r.env.running
  {
    hide Accountable;
  }

  /** A step under a sealed gate leaves it sealed or opens it, changes no link, and does not launch Bridge
      while it is closed. */
  lemma SealedStep(s: State, m: Move)
    requires Inv(s) && s.gate.sealed && !m.step.Reload?
    ensures var t := Do(s, m);
      t.links == s.links && (t.gate.snapshot.Some? ==> t.gate.sealed && (t.env.running ==> s.env.running))
  {
    hide CoreAt, DiskOk, Framed, Still, Do, Quiet;
    Frames(s, m);
    SealedIsStill(s);
    var t := Do(s, m);
    if m.step.DoCommit? {
      SealedRefuses(s, m);
      FramedGate(s, m.step, t);
    } else if m.step.DoRemove? {
      SealedRefuses(s, m);
    } else if m.step.DoBegin? {
      assert s.gate.snapshot.Some? by { StillSealed(s); }
      BeginKeepsSeal(s, m);
    } else if m.step.DoRecoverNative? {
      SealedRefuses(s, m);
    } else {
      FramedJournal(s, m.step, t);
      FramedGate(s, m.step, t);
    }
  }

  lemma FramedGate(s: State, step: Step, t: State)
    requires Framed(s, step, t) && !step.DoBegin? && !step.DoRecoverNative?
    ensures GateMoves(s, t)
  {
    hide Logins, OpFlow, CallsSpare, RemovalsKept;
  }

  /** No commit, no removal and no recovery acts under a sealed gate. */
  lemma SealedRefuses(s: State, m: Move)
    requires Still(s) && (m.step.DoCommit? || m.step.DoRemove? || m.step.DoRecoverNative?)
    ensures Do(s, m) == s.(env := s.env.(tape := m.tape))
  {
    hide Save, EnsureStarted, HasHeir, BeginRemoval, HandOver, CallRecover, Stamped;
    if m.step.DoCommit? && m.step.id in s.ops.at {
      assert Quiet(s.ops.at[m.step.id], s.env.clock, s.cfg.ttl);
    }
  }

  lemma BeginKeepsSeal(s: State, m: Move)
    requires m.step.DoBegin? && s.gate.snapshot.Some?
    ensures var t := Do(s, m); t == s.(env := t.env, gate := t.gate) && t.gate.sealed == s.gate.sealed && t.env.running == s.env.running
  {
  }

  /** From the seal until the gate opens: under every interleaving Bridge is not started, nothing is sent, no
      attempt is active, nothing recovers, the links do not change and Bridge is not launched. */
  lemma {:induction false} GateHolds(s: State, moves: seq<Move>, k: nat)
    requires Inv(s) && s.gate.sealed && k <= |moves|
    requires forall i :: 0 <= i < k ==> !moves[i].step.Reload?
    requires forall i :: 0 <= i <= k ==> After(s, moves, i).gate.snapshot.Some?
    ensures var t := After(s, moves, k); Still(t) && t.links == s.links && (t.env.running ==> s.env.running)
  {
    hide Inv, Do, Still;
    if k == 0 {
      assert moves[..0] == [];
      SealedIsStill(s);
    } else {
      GateHolds(s, moves, k - 1);
      AfterKeeps(s, moves, k - 1);
      AfterStep(s, moves, k - 1);
      StillSealed(After(s, moves, k - 1));
      SealedStep(After(s, moves, k - 1), moves[k - 1]);
      AfterKeeps(s, moves, k);
      SealedIsStill(After(s, moves, k));
    }
  }

  lemma StillSealed(s: State)
    requires Still(s)
    ensures s.gate.sealed && s.gate.snapshot.Some?
  {
  }

  /** The answer of snapshot_begin to a repeated ID, or to one that takes an expired gate over, says only that
      the gate is closed: it is sealed exactly if the earlier call had drained it. */
  lemma BeginVouches(s: State, id: SnapshotId)
    requires Inv(s) && SnapshotBegin(s, id).1 == Accepted
    ensures var t := SnapshotBegin(s, id).0;
      t.gate.snapshot == Some(id) && (t.gate.sealed <==> s.gate.sealed) && (s.gate.sealed ==> Still(t))
  {
    hide CoreAt, DiskOk, Still;
    BeginKeeps(s, id);
    if s.gate.sealed {
      SealedIsStill(SnapshotBegin(s, id).0);
    }
  }

  /** While a sender holds a lease the first call waits; the same call again is answered at once, and so is
      one with another ID once the gate's lifetime has passed. */
  lemma BeginAgainDoesNotWait(s: State, l: LeaseId, id: SnapshotId, other: SnapshotId, turn: Answer)
    requires Inv(s) && s.gate.snapshot.None? && !s.proc.closed && l in s.gate.leases && turn.dt >= s.cfg.snapshotTtl
    requires !s.env.dead && turn.crash.Survives?
    ensures var (t, first) := SnapshotBegin(s, id); var (r, again) := SnapshotBegin(t, id);
      var (o, taken) := SnapshotBegin(Turn(t, turn), other);
      Inv(t) && first == Draining && again == Accepted && l in r.gate.leases && taken == Accepted && l in o.gate.leases
  {
    hide Inv, Accountable;
    BeginKeeps(s, id);
  }

  lemma OneStep(s: State, m: Move)
    ensures Run(s, [m]) == Do(s, m)
  {
    hide Do;
    assert [m][..0] == [];
  }

  /** Such a state is reached by the first acquire of a new worker. */
  lemma LeaseIsReachable(cfg: Config, l: LeaseId, clock: nat, users: set<UserId>)
    ensures var s := Run(Init(cfg, clock, users), [Move(DoAcquire(l), [])]);
      Inv(s) && s.gate.snapshot.None? && !s.proc.closed && l in s.gate.leases
  {
    hide Inv;
    RunKeeps(cfg, clock, users, [Move(DoAcquire(l), [])]);
    OneStep(Init(cfg, clock, users), Move(DoAcquire(l), []));
  }

  /** The wait of snapshot_begin is bounded: whatever happens in between, its first wake-up after
      snapshotWait seconds answers it, and then the gate is sealed for it, open, or no longer its own. */
  lemma DrainAnswers(s: State, id: SnapshotId, moves: seq<Move>, k: nat)
    requires Inv(s) && SnapshotBegin(s, id).1 == Draining && k <= |moves|
    requires s.env.clock + s.cfg.snapshotWait <= After(SnapshotBegin(s, id).0, moves, k).env.clock
    ensures var t := After(SnapshotBegin(s, id).0, moves, k); var (r, reply) := DrainRound(t, id, DrainDeadline(s));
      if reply == Accepted then Still(r) && r.gate.snapshot == Some(id)
      else if t.gate.snapshot == Some(id) then r.gate.snapshot.None? && (reply == Refused(SnapshotBusy) || reply == Refused(Unavailable))
      else reply == Refused(OperationConflict) && r == t
  {
    hide Inv, Do, SettleHolder, CallShutdown, LoginActive, Persist, Still;
    BeginKeeps(s, id);
    var t := After(SnapshotBegin(s, id).0, moves, k);
    AfterKeeps(SnapshotBegin(s, id).0, moves, k);
    if DrainRound(t, id, DrainDeadline(s)).1 == Accepted {
      DrainSeals(t, id, DrainDeadline(s));
    }
  }

  /** A process the controller has forgotten (its event stream ended while nothing needed Bridge) is not
      stopped for the snapshot: the gate is sealed while it runs. */
  lemma ForgottenProcessRunsOn(s: State, id: SnapshotId, deadline: nat)
    requires Inv(s) && s.gate.snapshot.None? && s.gate.leases == {} && !s.proc.closed && !s.proc.recovering
    requires s.proc.started && s.env.running && s.links == map[] && s.pending == EmptyDict() && s.ops == EmptyDict() && s.slot.None?
    ensures var lost := OnEvent(s, StreamEndedEvent); var t := Tick(lost); var g := SnapshotBegin(t, id).0;
      var (sealed, reply) := DrainRound(g, id, deadline);
      reply == Accepted && sealed.gate.sealed && sealed.env.running
  {
    hide Inv, Save, EnsureStarted, ReconcileAll;
    var lost := OnEvent(s, StreamEndedEvent);
    ForgetsProcess(lost);
  }

  lemma ForgetsProcess(s: State)
    requires s.gate.snapshot.None? && !s.proc.closed && !s.proc.recovering && s.proc.nativeLost
    requires s.proc.started && s.links == map[] && s.pending == EmptyDict() && s.ops == EmptyDict() && s.slot.None?
    ensures var t := Tick(s);
      t.gate == s.gate && t.ops == s.ops && t.pending == s.pending && t.slot.None? && t.env.running == s.env.running &&
      !t.proc.started && t.proc.recovering == s.proc.recovering && t.proc.closed == s.proc.closed
  {
    hide Save, EnsureStarted, ReconcileAll;
    var now := s.env.clock;
    var t := s.(env := s.env.(lastTick := now));
    assert Expire(t, t.ops.order, now) == t;
    assert RemovalTimers(t, t.pending.order, now, now >= t.proc.nextRecoveryAt) == (t, false);
    var f := t.(proc := t.proc.(started := false, nativeLost := false));
    assert TickProcess(t, now) == (f, false);
    assert Prune(f, f.ops.order, now) == f;
  }

  // ---- leases -------------------------------------------------------------------------------------

  lemma FramedLeases(s: State, step: Step, t: State)
    requires Framed(s, step, t) && !step.DoAcquire? && !step.DoRelease?
    ensures t.gate.leases == s.gate.leases && t.gate.cancelled == s.gate.cancelled
  {
    hide Logins, OpFlow, CallsSpare, RemovalsKept;
  }

  lemma ApplyLease(s: State, m: Move)
    requires !s.env.dead
    ensures m.step.DoAcquire? ==> Do(s, m) == AcquireLease(s.(env := s.env.(tape := m.tape)), m.step.lease).0
    ensures m.step.DoRelease? ==> Do(s, m) == ReleaseLease(s.(env := s.env.(tape := m.tape)), m.step.lease).0
  {
  }

  /** Held and cancelled leases are apart, and at most 4096 are remembered as cancelled, in every run. */
  lemma LeasesApart(cfg: Config, clock: nat, users: set<UserId>, moves: seq<Move>)
    ensures var g := Run(Init(cfg, clock, users), moves).gate;
      (forall l :: l in g.cancelled ==> l !in g.leases) && |g.cancelled| <= 4096 && Distinct(g.cancelled)
  {
    hide Run, Init, DiskOk, Base, SlotOk, LoginOk, ProcOk, SealOk;
    RunKeeps(cfg, clock, users, moves);
  }

  /** A granted lease is held until its own release or a restart of the worker. */
  lemma {:induction false} LeaseStays(s: State, moves: seq<Move>, l: LeaseId, k: nat)
    requires Inv(s) && k <= |moves| && l in s.gate.leases
    requires forall i :: 0 <= i < k ==> !moves[i].step.Reload? && moves[i].step != DoRelease(l)
    ensures l in After(s, moves, k).gate.leases
  {
    hide Inv, Do, Framed;
    if k == 0 {
      assert moves[..0] == [];
    } else {
      LeaseStays(s, moves, l, k - 1);
      AfterKeeps(s, moves, k - 1);
      AfterStep(s, moves, k - 1);
      var r, m := After(s, moves, k - 1), moves[k - 1];
      if r.env.dead {
        DeadStays(r, m);
      } else if m.step.DoAcquire? || m.step.DoRelease? {
        ApplyLease(r, m);
      } else {
        Frames(r, m);
        FramedLeases(r, m.step, Do(r, m));
      }
    }
  }

  /** A lease that is not held stays so until it is asked for. */
  lemma {:induction false} NotHeldStays(s: State, moves: seq<Move>, l: LeaseId, k: nat)
    requires Inv(s) && k <= |moves| && l !in s.gate.leases
    requires forall i :: 0 <= i < k ==> moves[i].step != DoAcquire(l)
    ensures l !in After(s, moves, k).gate.leases
  {
    hide Inv, Do, Framed;
    if k == 0 {
      assert moves[..0] == [];
    } else {
      NotHeldStays(s, moves, l, k - 1);
      AfterKeeps(s, moves, k - 1);
      AfterStep(s, moves, k - 1);
      var r, m := After(s, moves, k - 1), moves[k - 1];
      if m.step.Reload? {
        ApplyReload(r, m);
      } else if r.env.dead {
        DeadStays(r, m);
      } else if m.step.DoAcquire? || m.step.DoRelease? {
        ApplyLease(r, m);
      } else {
        Frames(r, m);
        FramedLeases(r, m.step, Do(r, m));
      }
    }
  }

  /** Acquire first, then DELETE: nothing is held any more, until the lease is asked for again. */
  lemma ReleasedStays(s: State, tape: seq<Answer>, moves: seq<Move>, l: LeaseId, k: nat)
    requires Inv(s) && !s.env.dead && k <= |moves|
    requires forall i :: 0 <= i < k ==> moves[i].step != DoAcquire(l)
    ensures l !in After(Do(s, Move(DoRelease(l), tape)), moves, k).gate.leases
  {
    hide Inv, Do;
    StepKeeps(s, Move(DoRelease(l), tape));
    ApplyLease(s, Move(DoRelease(l), tape));
    NotHeldStays(Do(s, Move(DoRelease(l), tape)), moves, l, k);
  }

  /** l was cancelled, and at most n others later. */
  ghost predicate CancelledWithin(cancelled: seq<LeaseId>, l: LeaseId, n: nat) {
    exists i :: 0 <= i < |cancelled| && cancelled[i] == l && |cancelled| - 1 - i <= n
  }

  lemma {:induction false} WithoutOther(s: seq<LeaseId>, x: LeaseId, l: LeaseId, n: nat)
    requires CancelledWithin(s, l, n) && x != l
    ensures CancelledWithin(Without(s, x), l, n)
  {
    var i :| 0 <= i < |s| && s[i] == l && |s| - 1 - i <= n;
    WithoutShorter(s[1..], x);
    if i == 0 {
      assert Without(s, x)[0] == l;
    } else {
      assert s[1..][i - 1] == l;
      WithoutOther(s[1..], x, l, n);
      var r := Without(s[1..], x);
      var j :| 0 <= j < |r| && r[j] == l && |r| - 1 - j <= n;
      if s[0] != x {
        assert Without(s, x)[j + 1] == l;
      }
    }
  }

  lemma {:induction false} WithoutShorter(s: seq<LeaseId>, x: LeaseId)
    ensures |Without(s, x)| <= |s|
  {
    if s != [] {
      WithoutShorter(s[1..], x);
    }
  }

  lemma CancelledStep(s: State, m: Move, l: LeaseId, n: nat)
    requires Inv(s) && CancelledWithin(s.gate.cancelled, l, n) && m.step != DoAcquire(l) && !m.step.Reload?
    requires m.step.DoRelease? ==> n + 1 < CANCELLED_LEASES_KEPT
    ensures CancelledWithin(Do(s, m).gate.cancelled, l, if m.step.DoRelease? then n + 1 else n)
  {
    hide CoreAt, DiskOk, Framed, Do;
    var c := s.gate.cancelled;
    if s.env.dead {
      DeadStays(s, m);
    } else if m.step.DoAcquire? {
      ApplyLease(s, m);
      WithoutOther(c, m.step.lease, l, n);
    } else if m.step.DoRelease? {
      ApplyLease(s, m);
      FewCancelled(s);
      var i :| 0 <= i < |c| && c[i] == l && |c| - 1 - i <= n;
      var d := Do(s, m).gate.cancelled;
      if |d| == |c| + 1 || d == c {
        assert d[i] == l;
      } else {
        assert |d| == |c| && d[i - 1] == l;
      }
    } else {
      Frames(s, m);
      FramedLeases(s, m.step, Do(s, m));
    }
  }

  lemma FewCancelled(s: State)
    requires Inv(s)
    ensures |s.gate.cancelled| <= CANCELLED_LEASES_KEPT && forall l :: l in s.gate.cancelled ==> l !in s.gate.leases
  {
    hide DiskOk, Base, SlotOk, LoginOk, ProcOk, SealOk;
  }

  function Releases(moves: seq<Move>): nat {
    if moves == [] then 0 else Releases(moves[..|moves| - 1]) + if moves[|moves| - 1].step.DoRelease? then 1 else 0
  }

  lemma {:induction false} CancelledStays(s: State, moves: seq<Move>, l: LeaseId, k: nat)
    requires Inv(s) && k <= |moves| && CancelledWithin(s.gate.cancelled, l, 0) && Releases(moves[..k]) < CANCELLED_LEASES_KEPT
    requires forall i :: 0 <= i < k ==> !moves[i].step.Reload? && moves[i].step != DoAcquire(l)
    ensures CancelledWithin(After(s, moves, k).gate.cancelled, l, Releases(moves[..k]))
  {
    hide Inv, Do, CancelledWithin;
    if k == 0 {
      assert moves[..0] == [];
    } else {
      assert moves[..k][..k - 1] == moves[..k - 1];
      CancelledStays(s, moves, l, k - 1);
      AfterKeeps(s, moves, k - 1);
      AfterStep(s, moves, k - 1);
      CancelledStep(After(s, moves, k - 1), moves[k - 1], l, Releases(moves[..k - 1]));
    }
  }

  /** DELETE first, then the late acquire: it is refused and nothing is held, unless 4096 leases were deleted
      in between. */
  lemma CancelWins(s: State, tape: seq<Answer>, moves: seq<Move>, l: LeaseId, k: nat)
    requires Inv(s) && !s.env.dead && k <= |moves| && l !in s.gate.leases && l !in s.gate.cancelled
    requires forall i :: 0 <= i < k ==> !moves[i].step.Reload? && moves[i].step != DoAcquire(l)
    requires Releases(moves[..k]) < CANCELLED_LEASES_KEPT
    ensures var t := After(Do(s, Move(DoRelease(l), tape)), moves, k);
      AcquireLease(t, l).1 == Refused(LeaseCancelled) && l !in AcquireLease(t, l).0.gate.leases
  {
    hide Inv, Do;
    var r := Do(s, Move(DoRelease(l), tape));
    StepKeeps(s, Move(DoRelease(l), tape));
    ApplyLease(s, Move(DoRelease(l), tape));
    FewCancelled(s);
    assert r.gate.cancelled[|r.gate.cancelled| - 1] == l;
    CancelledStays(r, moves, l, k);
    AfterKeeps(r, moves, k);
    FewCancelled(After(r, moves, k));
  }

  function Deletes(ls: seq<LeaseId>): seq<Move> {
    seq(|ls|, i requires 0 <= i < |ls| => Move(DoRelease(ls[i]), []))
  }

  lemma NewestOneMore(all: seq<LeaseId>, x: LeaseId, n: nat)
    ensures Newest(Newest(all, n) + [x], n) == Newest(all + [x], n)
  {
    if |all| > n {
      assert Newest(all, n) + [x] == (all + [x])[|all| - n..];
    }
  }

  lemma DeleteUnheld(s: State, g: Gate, all: seq<LeaseId>, x: LeaseId)
    requires s.gate == g.(cancelled := Newest(all, CANCELLED_LEASES_KEPT)) && x !in g.leases && x !in all
    ensures ReleaseLease(s, x).0 == s.(gate := g.(cancelled := Newest(all + [x], CANCELLED_LEASES_KEPT)))
  {
    NewestOneMore(all, x, CANCELLED_LEASES_KEPT);
  }

  lemma DistinctNext(c: seq<LeaseId>, ls: seq<LeaseId>, k: nat)
    requires Distinct(c + ls) && k < |ls|
    ensures ls[k] !in c + ls[..k] && c + ls[..k + 1] == (c + ls[..k]) + [ls[k]]
  {
    assert (c + ls)[|c| + k] == ls[k];
    assert c + ls[..k] == (c + ls)[..|c| + k];
  }

  /** DELETEs of leases nobody holds pile up; the newest 4096 are remembered. */
  lemma {:induction false} DeletesPileUp(s: State, ls: seq<LeaseId>, k: nat)
    requires Inv(s) && !s.env.dead && k <= |ls| && Distinct(s.gate.cancelled + ls)
    requires forall l :: l in ls ==> l !in s.gate.leases
    ensures var t := After(s, Deletes(ls), k);
      t.gate == s.gate.(cancelled := Newest(s.gate.cancelled + ls[..k], CANCELLED_LEASES_KEPT)) && t.proc == s.proc && !t.env.dead
  {
    hide Inv, Do, Newest, Distinct, ReleaseLease;
    var c := s.gate.cancelled;
    if k == 0 {
      FewCancelled(s);
      assert Deletes(ls)[..0] == [];
      assert c + ls[..0] == c;
      assert Newest(c, CANCELLED_LEASES_KEPT) == c by { FewIsAll(c, CANCELLED_LEASES_KEPT); }
    } else {
      DeletesPileUp(s, ls, k - 1);
      AfterStep(s, Deletes(ls), k - 1);
      var r := After(s, Deletes(ls), k - 1);
      ApplyLease(r, Deletes(ls)[k - 1]);
      DistinctNext(c, ls, k - 1);
      DeleteUnheld(r.(env := r.env.(tape := [])), s.gate, c + ls[..k - 1], ls[k - 1]);
    }
  }

  lemma FewIsAll(ls: seq<LeaseId>, n: nat)
    requires |ls| <= n
    ensures Newest(ls, n) == ls
  {
  }

  /** The bound is sharp: 4096 later DELETEs of other leases, and the late acquire is granted. */
  lemma CancelLost(s: State, ls: seq<LeaseId>, l: LeaseId)
    requires Inv(s) && !s.env.dead && l in s.gate.cancelled && s.gate.snapshot.None? && !s.proc.closed
    requires |ls| == CANCELLED_LEASES_KEPT && Distinct(s.gate.cancelled + ls) && forall x :: x in ls ==> x !in s.gate.leases
    ensures var t := After(s, Deletes(ls), |ls|);
      AcquireLease(t, l).1 == Accepted && l in AcquireLease(t, l).0.gate.leases
  {
    hide Inv, Do;
    DeletesPileUp(s, ls, |ls|);
    var c := s.gate.cancelled;
    assert ls[..|ls|] == ls;
    assert Newest(c + ls, CANCELLED_LEASES_KEPT) == ls;
    forall i | 0 <= i < |ls|
      ensures ls[i] != l
    {
      var j :| 0 <= j < |c| && c[j] == l;
      assert (c + ls)[j] != (c + ls)[|c| + i];
    }
  }
}
