/** How recoveries of a Bridge that keeps dying are spaced. */
module BridgeBackoff {
  import opened Wrappers
  import opened Dicts
  import opened BridgeTypes
  import opened BridgeSpec
  import opened BridgeMachine
  import opened BridgeShape
  import opened BridgeInvariant
  import opened BridgeSections
  import opened BridgeFrames
  import opened BridgePromises

  /** The wait after the last recovery is recovery_seconds, doubled per streak, and at most five minutes. */
  ghost predicate Backed(s: State) {
    s.proc.lastRecoveryAt.Some? ==>
      s.proc.nextRecoveryAt == s.proc.lastRecoveryAt.value + Min(s.cfg.recoverySeconds * Pow2(s.proc.recoveryStreak), RECOVERY_BACKOFF_CAP)
  }

  lemma FramedBackoff(s: State, step: Step, t: State)
    requires Framed(s, step, t) && !step.DoRecoverNative?
    ensures t.proc.lastRecoveryAt == s.proc.lastRecoveryAt && t.proc.nextRecoveryAt == s.proc.nextRecoveryAt
    ensures t.proc.recoveryStreak == s.proc.recoveryStreak && t.cfg == s.cfg
  {
    hide Logins, OpFlow, CallsSpare, RemovalsKept;
  }

  lemma RecoverStampsProc(s: State, m: Move)
    requires m.step.DoRecoverNative? && Base(s)
    ensures Do(s, m).cfg == s.cfg
    ensures var t := Do(s, m);
      if Recovers(s, m) then t.proc == Stamped(s).proc.(restarted := t.proc.restarted) else t.proc == s.proc
  {
    hide CallRecover, Base, Min, Pow2, Stamped;
    var q := s.(env := s.env.(tape := m.tape));
    RestartFrame(Stamped(q));
    StampedTape(s, m.tape);
  }

  lemma RestartFrame(s: State)
    ensures var t := CallRecover(s).0; t == s.(env := t.env)
  {
    hide Accountable;
  }

  lemma StampedTape(s: State, tape: seq<Answer>)
    ensures Stamped(s.(env := s.env.(tape := tape))).proc == Stamped(s).proc && Stamped(s).cfg == s.cfg
    ensures Stamped(s.(env := s.env.(tape := tape))).cfg == s.cfg
  {
    hide Min, Pow2;
  }

  lemma BackedStep(s: State, m: Move)
    requires Inv(s) && Backed(s)
    ensures Backed(Do(s, m))
  {
    hide Framed, Do, Min, Pow2, Base, SlotOk, LoginOk, SealOk, LeasesOk, DiskOk, JournalOk;
    if m.step.Reload? {
      ApplyReload(s, m);
      FreshProc(s.(env := s.env.(tape := m.tape)));
    } else if m.step.DoRecoverNative? {
      RecoverStampsProc(s, m);
      StampBacked(s);
    } else {
      Frames(s, m);
      FramedBackoff(s, m.step, Do(s, m));
    }
  }

  lemma FreshProc(s: State)
    ensures Reloaded(s).proc == FRESH_PROC
  {
    hide Loses, Restored;
  }

  lemma StampBacked(s: State)
    ensures Stamped(s).proc.nextRecoveryAt ==
      s.env.clock + Min(s.cfg.recoverySeconds * Pow2(Stamped(s).proc.recoveryStreak), RECOVERY_BACKOFF_CAP)
    ensures Stamped(s).proc.lastRecoveryAt == Some(s.env.clock)
  {
  }

  lemma {:induction false} BackedRuns(s: State, moves: seq<Move>, k: nat)
    requires Inv(s) && Backed(s) && k <= |moves|
    ensures Backed(After(s, moves, k))
  {
    hide Inv, Do, Backed;
    if k == 0 {
      assert moves[..0] == [];
    } else {
      BackedRuns(s, moves, k - 1);
      AfterKeeps(s, moves, k - 1);
      AfterStep(s, moves, k - 1);
      BackedStep(After(s, moves, k - 1), moves[k - 1]);
    }
  }

  lemma Doubled(r: nat, n: nat, cap: nat)
    ensures Min(r * Pow2(n + 1), cap) == Min(2 * Min(r * Pow2(n), cap), cap)
  {
    assert r * Pow2(n + 1) == 2 * (r * Pow2(n));
  }

  /** A recovery waits for the time the last one set, and sets the next: twice as far off as the last did if that
      was less than five minutes ago, else recovery_seconds off, in both cases at most five minutes. */
  lemma RecoveryBacksOff(s: State, m: Move)
    requires Inv(s) && Backed(s) && Recovers(s, m)
    ensures var t := Do(s, m); var last := s.proc.lastRecoveryAt;
      && (last.Some? ==> s.proc.nextRecoveryAt <= s.env.clock)
      && t.proc.nextRecoveryAt == s.env.clock +
           if last.Some? && s.env.clock < last.value + 300 then Min(2 * (s.proc.nextRecoveryAt - last.value), 300)
           else Min(s.cfg.recoverySeconds, 300)
  {
    hide SlotOk, LoginOk, SealOk, LeasesOk, DiskOk, JournalOk, Do, Min, OpsOk, LinksOk, PendingOk, CallsOk;
    RecoverStampsProc(s, m);
    if s.proc.lastRecoveryAt.Some? {
      Doubled(s.cfg.recoverySeconds, s.proc.recoveryStreak, RECOVERY_BACKOFF_CAP);
    }
  }

  lemma {:induction false} WaitLasts(s: State, moves: seq<Move>, i: nat, k: nat)
    requires Inv(s) && i < k <= |moves|
    requires forall n :: i < n < k ==> !moves[n].step.Reload? && !Recovers(After(s, moves, n), moves[n])
    ensures var a, b := After(s, moves, i + 1), After(s, moves, k);
      b.proc.lastRecoveryAt == a.proc.lastRecoveryAt && b.proc.nextRecoveryAt == a.proc.nextRecoveryAt && b.cfg == a.cfg
  {
    hide Inv, Do, Framed;
    if k > i + 1 {
      WaitLasts(s, moves, i, k - 1);
      AfterKeeps(s, moves, k - 1);
      AfterStep(s, moves, k - 1);
      var r, m := After(s, moves, k - 1), moves[k - 1];
      if m.step.DoRecoverNative? {
        RecoverStampsProc(r, m) by { InvBase(r); }
      } else {
        Frames(r, m);
        FramedBackoff(r, m.step, Do(r, m));
      }
    }
  }

  lemma InvBase(s: State)
    requires Inv(s)
    ensures Base(s)
  {
  }

  /** The wait a recovery sets. */
  function Wait(s: State, m: Move): int {
    Do(s, m).proc.nextRecoveryAt - s.env.clock
  }

  /** One recovery and the next of the same worker, in any run: they are as far apart as the first one set, and if
      they are less than five minutes apart the second sets twice that wait, capped at five minutes. */
  lemma WaitsDouble(cfg: Config, clock: nat, users: set<UserId>, moves: seq<Move>, i: nat, j: nat)
    requires i < j < |moves|
    requires var s := Init(cfg, clock, users); Recovers(After(s, moves, i), moves[i]) && Recovers(After(s, moves, j), moves[j])
    requires forall n :: i < n < j ==> !moves[n].step.Reload? && !Recovers(After(Init(cfg, clock, users), moves, n), moves[n])
    ensures var a, b := After(Init(cfg, clock, users), moves, i), After(Init(cfg, clock, users), moves, j);
      && a.env.clock + Wait(a, moves[i]) <= b.env.clock
      && Wait(b, moves[j]) == if b.env.clock < a.env.clock + 300 then Min(2 * Wait(a, moves[i]), 300) else Min(b.cfg.recoverySeconds, 300)
  {
    hide Inv, Do, Recovers, Backed, Min, Init, After, Wait;
    InitKeeps(cfg, clock, users);
    FreshIsBacked(cfg, clock, users);
    WaitsDoubleFrom(Init(cfg, clock, users), moves, i, j);
  }

  lemma WaitsDoubleFrom(s: State, moves: seq<Move>, i: nat, j: nat)
    requires Inv(s) && Backed(s) && i < j < |moves|
    requires Recovers(After(s, moves, i), moves[i]) && Recovers(After(s, moves, j), moves[j])
    requires forall n :: i < n < j ==> !moves[n].step.Reload? && !Recovers(After(s, moves, n), moves[n])
    ensures var a, b := After(s, moves, i), After(s, moves, j);
      && a.env.clock + Wait(a, moves[i]) <= b.env.clock
      && Wait(b, moves[j]) == if b.env.clock < a.env.clock + 300 then Min(2 * Wait(a, moves[i]), 300) else Min(b.cfg.recoverySeconds, 300)
  {
    hide Inv, Do, Recovers, Backed, Min;
    BackedRuns(s, moves, j);
    AfterKeeps(s, moves, i);
    AfterKeeps(s, moves, j);
    AfterStep(s, moves, i);
    WaitLasts(s, moves, i, j);
    RecoveryIsStamped(After(s, moves, i), moves[i]);
    RecoveryBacksOff(After(s, moves, j), moves[j]);
  }

  lemma FreshIsBacked(cfg: Config, clock: nat, users: set<UserId>)
    ensures Backed(Init(cfg, clock, users))
  {
  }

  lemma RecoveryIsStamped(s: State, m: Move)
    requires Inv(s) && Recovers(s, m)
    ensures Do(s, m).proc.lastRecoveryAt == Some(s.env.clock)
  {
    hide Inv, Do;
    RecoverStampsProc(s, m) by { InvBase(s); }
  }
}
