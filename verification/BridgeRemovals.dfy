/** What the controller promises of the users it removes, and how long a removal can keep sign-ins out. */
module BridgeRemovals {
  import opened Wrappers
  import opened Dicts
  import opened BridgeTypes
  import opened BridgeSpec
  import opened BridgeMachine
  import opened BridgeShape
  import opened BridgeInvariant
  import opened BridgeSections
  import opened BridgeFrames
  import opened BridgePromises
  import opened BridgeTiming

  // ---- linked users -------------------------------------------------------------------------------

  /** In no state of any run is a linked user being removed, and none was linked when it was handed to
      native.remove_user; a removal is never newly opened for a user another uncommitted attempt holds. */
  lemma LinkedUserIsSafe(cfg: Config, clock: nat, users: set<UserId>, moves: seq<Move>)
    ensures var s := Run(Init(cfg, clock, users), moves);
      && (forall u :: u in s.pending.at ==> !Linked(s, u))
      && (forall c :: c in s.env.calls && c.CalledRemove? ==> !c.linked && !(c.newly && c.held))
  {
    hide Run, Init, DiskOk, HasLink, SlotOk, LoginOk, ProcOk, SealOk, LeasesOk, JournalOk;
    RunKeeps(cfg, clock, users, moves);
    var s := Run(Init(cfg, clock, users), moves);
    assert forall c :: c in s.env.calls ==> CallOk(c);
  }

  /** The move hands u to native.remove_user. */
  ghost predicate HandsToBridge(s: State, m: Move, u: UserId) {
    exists i :: |s.env.calls| <= i < |Do(s, m).env.calls| && Do(s, m).env.calls[i].CalledRemove? && Do(s, m).env.calls[i].user == u
  }

  /** remove_user is given the last link of u, which no live attempt inherits. */
  ghost predicate CutsLast(s: State, u: UserId, generation: Generation, email: Email) {
    var key := LinkKey(u, Lower(email));
    && SafeEmail(email) && Admitted(s, None) && key in s.links && s.links[key].generation == generation
    && (forall k :: k in s.links && k.user == u ==> k == key)
    && EnsureStarted(s).1.None? && !HasHeir(EnsureStarted(s).0.(links := s.links - {key}), u, None)
  }

  /** And the worker dies in its call to Bridge, before the journal is written. */
  ghost predicate DiesUnlinking(s: State, m: Move, u: UserId) {
    && m.step.DoRemove? && m.step.user == u && !s.env.dead
    && var q := s.(env := s.env.(tape := m.tape));
       CutsLast(q, u, m.step.generation, m.step.email) &&
       !EnsureStarted(q).0.env.dead && Next(EnsureStarted(q).0).crash.InCall?
  }

  lemma CallCalls(s: State)
    ensures var t := NativeCall(s).0; t.env.calls == s.env.calls && t == s.(env := t.env)
    ensures NativeCall(s).0.env.dead <==> s.env.dead || !Next(s).crash.Survives?
  {
    hide Accountable;
  }

  lemma BeginRemovalCalls(s: State, u: UserId, reason: Reason)
    ensures var t := BeginRemoval(s, u, reason);
      && |s.env.calls| <= |t.env.calls| && t.env.calls[..|s.env.calls|] == s.env.calls
      && (if Reaches(s) then |t.env.calls| == |s.env.calls| + 1 && t.env.calls[|s.env.calls|].CalledRemove? && t.env.calls[|s.env.calls|].user == u
          else t.env.calls == s.env.calls)
      && (t.env.dead <==> s.env.dead || !Next(s).crash.Survives?)
  {
    hide NativeCall, Linked, Held;
    var item := if u in s.pending.at
                then s.pending.at[u].(since := s.env.clock, reason := if reason.Unlink? then Unlink else s.pending.at[u].reason)
                else Removal(reason, s.env.clock, 0, false);
    CallCalls(RemoveLogged(s.(pending := s.pending.Put(u, item)), u, u !in s.pending.at));
  }

  /** The parts of remove_user: what it leaves and what it has asked Bridge for. */
  lemma RemoveAsks(s: State, u: UserId, generation: Generation, email: Email)
    requires Inv(s) && !s.env.dead
    ensures var r := RemoveUser(s, u, generation, email).0; var t := EnsureStarted(s).0; var key := LinkKey(u, Lower(email));
      if CutsLast(s, u, generation, email)
      then var b := BeginRemoval(t.(links := s.links - {key}), u, Unlink);
           && r.env == b.env && r.links == s.links - {key} && s.env.calls <= t.env.calls && CallsSpare(s.links, s.env.calls, t.env.calls)
      else s.env.calls <= r.env.calls && CallsSpare(s.links, s.env.calls, r.env.calls)
  {
    hide EnsureStarted, CoreAt, DiskOk, Flow, Persist, BeginRemoval, HandOver, HasHeir, Handed, CallsSpare;
    var key := LinkKey(u, Lower(email));
    NothingAsked(s);
    EnsureStartedKeeps(s, s.env.clock);
    var t := EnsureStarted(s).0;
    FlowParts(s, t);
    if SafeEmail(email) && Admitted(s, None) && key in s.links && s.links[key].generation == generation {
      var others := exists k | k in s.links :: k.user == u && k != key;
      var cut := (if others then s else t).(links := s.links - {key});
      PersistOnlyDisk(cut);
      HandOverEnv(cut, u);
      PersistOnlyDisk(HandOver(cut, u, None));
      PersistOnlyDisk(BeginRemoval(cut, u, Unlink));
      BeginRemovalEntry(cut, u, Unlink);
      assert key in s.links && key.user == u;
      NotPending(t, key, s.env.clock);
    }
  }

  lemma NothingAsked(s: State)
    ensures CallsSpare(s.links, s.env.calls, s.env.calls)
  {
  }

  lemma HandOverEnv(s: State, u: UserId)
    ensures HandOver(s, u, None).env == s.env && HandOver(s, u, None).links == s.links
  {
    hide Handed;
  }

  lemma FlowParts(s: State, t: State)
    requires Flow(s, t)
    ensures t.links == s.links && s.env.calls <= t.env.calls && CallsSpare(s.links, s.env.calls, t.env.calls)
  {
    hide OpsFlow, CallsSpare, RemovalsKept;
  }

  lemma NotPending(s: State, key: LinkKey, at: nat)
    requires CoreAt(s, at) && key in s.links
    ensures key.user !in s.pending.at
  {
    hide OpsOk, SlotOk, LoginOk, ProcOk, SealOk, LeasesOk, JournalOk, LinksOk, CallsOk;
    assert HasLink(s.links, key.user);
  }

  lemma CommitAsksNothing(s: State, m: Move)
    requires m.step.DoCommit?
    ensures Do(s, m).env.calls == s.env.calls
  {
    hide Save;
  }

  /** A user that the journal still links afterwards is handed to native.remove_user exactly by a remove_user of its
      last link in which the worker dies between the call and the journal write. */
  lemma LinkedRemoval(s: State, m: Move, u: UserId)
    requires Inv(s) && !m.step.Reload?
    ensures HandsToBridge(s, m, u) && HasLink(Do(s, m).disk.links, u) <==> DiesUnlinking(s, m, u)
  {
    hide Inv, Do, Framed, CallsSpare, HasLink, CutsLast, EnsureStarted;
    if s.env.dead {
      DeadStays(s, m);
    } else {
      JournalInStep(s);
      if m.step.DoRemove? {
        RemoveHands(s, m, u);
      } else if m.step.DoCommit? {
        CommitAsksNothing(s, m);
      } else {
        Frames(s, m);
        DurableLinks(s, m);
        FramedCalls(s, m.step, Do(s, m));
        if HasLink(s.links, u) {
          SparesLinked(s.links, s.env.calls, Do(s, m).env.calls, u);
        }
      }
    }
  }

  lemma FramedCalls(s: State, step: Step, t: State)
    requires Framed(s, step, t) && !step.DoRemove?
    ensures s.env.calls <= t.env.calls && CallsSpare(s.links, s.env.calls, t.env.calls)
  {
    hide Logins, OpFlow, CallsSpare, RemovalsKept;
  }

  lemma SparesLinked(links: map<LinkKey, Link>, c: seq<Call>, d: seq<Call>, u: UserId)
    requires CallsSpare(links, c, d) && HasLink(links, u)
    ensures forall i :: |c| <= i < |d| && d[i].CalledRemove? ==> d[i].user != u
  {
    hide HasLink;
  }

  lemma RemoveHands(s: State, m: Move, u: UserId)
    requires Inv(s) && !s.env.dead && m.step.DoRemove? && s.disk.links == s.links
    ensures HandsToBridge(s, m, u) && HasLink(Do(s, m).disk.links, u) <==> DiesUnlinking(s, m, u)
  {
    hide Inv, Do, CallsSpare, CutsLast, EnsureStarted, BeginRemoval, Drifts;
    var q := s.(env := s.env.(tape := m.tape));
    var v := m.step.user;
    TapeKeeps(s, m.tape);
    ApplyRemove(s, m);
    StepKeeps(s, m);
    var r := Do(s, m);
    RemoveKeeps(q, v, m.step.generation, m.step.email);
    RemoveLinks(q, v, m.step.generation, m.step.email);
    RemoveAsks(q, v, m.step.generation, m.step.email);
    if !r.env.dead {
      JournalInStep(r);
    }
    StillLinked(s.links, r.disk.links, u);
    if CutsLast(q, v, m.step.generation, m.step.email) {
      var key := LinkKey(v, Lower(m.step.email));
      var t := EnsureStarted(q).0;
      var cut := t.(links := q.links - {key});
      BeginRemovalCalls(cut, v, Unlink);
      LastCut(q, v, m.step.generation, m.step.email);
      var calls := r.env.calls;
      if HasLink(s.links, u) {
        SparesLinked(q.links, q.env.calls, t.env.calls, u);
      }
      assert forall i :: 0 <= i < |t.env.calls| ==> calls[i] == t.env.calls[i] by {
        assert calls[..|t.env.calls|] == t.env.calls;
      }
    } else if HasLink(s.links, u) {
      SparesLinked(q.links, q.env.calls, r.env.calls, u);
    }
  }

  lemma StillLinked(before: map<LinkKey, Link>, after: map<LinkKey, Link>, u: UserId)
    requires forall k :: k in after ==> k in before
    ensures HasLink(after, u) ==> HasLink(before, u)
  {
  }

  lemma LastCut(s: State, u: UserId, generation: Generation, email: Email)
    requires CutsLast(s, u, generation, email)
    ensures HasLink(s.links, u) && !HasLink(s.links - {LinkKey(u, Lower(email))}, u)
  {
    hide EnsureStarted, HasHeir;
  }

  // ---- the removals of attempts -------------------------------------------------------------------

  /** An attempt that ends while others hold its user asks for nothing: every one of them inherits the
      clean-up. */
  lemma CleanUpInherited(s: State, id: OpId, heir: OpId)
    requires id in s.ops.at && heir in s.ops.at && heir != id
    requires s.ops.at[id].createdByAttempt && s.ops.at[id].userId.Some? && !Linked(s, s.ops.at[id].userId.value)
    requires Heir(s.ops.at[heir], s.ops.at[id].userId.value)
    ensures var t := DropAttemptUser(s, id);
      t.env == s.env && t.pending == s.pending && t.ops.at.Keys == s.ops.at.Keys &&
      forall o :: o in s.ops.at && o != id && Heir(s.ops.at[o], s.ops.at[id].userId.value) ==> t.ops.at[o].createdByAttempt
  {
    hide HasLink, BeginRemoval;
    assert HasHeir(s, s.ops.at[id].userId.value, Some(id));
  }

  lemma RetryRemovalOther(s: State, u: UserId, x: UserId)
    requires x != u
    ensures var t := RetryRemoval(s, u);
      (x in t.pending.at <==> x in s.pending.at) && (x in s.pending.at ==> t.pending.at[x] == s.pending.at[x])
    ensures u in s.pending.at && u in RetryRemoval(s, u).pending.at ==>
      RetryRemoval(s, u).pending.at[u] == s.pending.at[u].(since := RetryRemoval(s, u).pending.at[u].since)
  {
    hide BeginRemoval, ListUsers;
    if u in s.pending.at {
      ListFrame(s);
      BeginRemovalEntry(ListUsers(s).0, u, s.pending.at[u].reason);
    }
  }

  lemma RemovalTimerOther(s: State, u: UserId, now: nat, canRecover: bool, x: UserId)
    requires x != u
    ensures var t := RemovalTimer(s, u, now, canRecover).0;
      (x in t.pending.at <==> x in s.pending.at) && (x in s.pending.at ==> t.pending.at[x] == s.pending.at[x])
  {
    hide RetryRemoval;
    if u in s.pending.at {
      RetryRemovalOther(s, u, x);
      RetryRemovalOther(s.(pending := s.pending.Put(u, s.pending.at[u].(stuck := true))), u, x);
    }
  }

  lemma {:induction false} RemovalTimersOther(s: State, us: seq<UserId>, now: nat, canRecover: bool, x: UserId)
    requires x !in us
    ensures var t := RemovalTimers(s, us, now, canRecover).0;
      (x in t.pending.at <==> x in s.pending.at) && (x in s.pending.at ==> t.pending.at[x] == s.pending.at[x])
    decreases us
  {
    hide RemovalTimer;
    if us != [] {
      RemovalTimerOther(s, us[0], now, canRecover, x);
      RemovalTimersOther(RemovalTimer(s, us[0], now, canRecover).0, us[1..], now, canRecover, x);
    }
  }

  /** An attempt's removal that is due asks for one of its two recoveries, if Bridge may be recovered. */
  predicate Asks(item: Removal, now: nat, canRecover: bool) {
    canRecover && now >= item.since + REMOVAL_RETRY_SECONDS && item.reason.Attempt? && !item.stuck &&
    item.recoveries < MAX_REMOVAL_RECOVERIES
  }

  /** What one pass does to a removal: before it is due nothing; then it spends a recovery, waits, or, with none
      left, is stuck; a removal that is not an attempt's, or stuck already, only asks Bridge again. */
  ghost predicate TimerStep(item: Removal, after: Option<Removal>, now: nat, canRecover: bool) {
    if now < item.since + REMOVAL_RETRY_SECONDS then after == Some(item)
    else if Asks(item, now, canRecover) then after == Some(item.(recoveries := item.recoveries + 1, since := now))
    else if item.reason.Attempt? && !item.stuck then
      if item.recoveries < MAX_REMOVAL_RECOVERIES then after == Some(item)
      else after.Some? ==> after.value.stuck && after.value.recoveries == item.recoveries
    else after.Some? ==> after.value.stuck == item.stuck && after.value.recoveries == item.recoveries
  }

  function Entry(s: State, u: UserId): Option<Removal> {
    if u in s.pending.at then Some(s.pending.at[u]) else None
  }

  lemma RemovalTimerSteps(s: State, u: UserId, now: nat, canRecover: bool)
    requires u in s.pending.at
    ensures var (t, asked) := RemovalTimer(s, u, now, canRecover);
      TimerStep(s.pending.at[u], Entry(t, u), now, canRecover) && asked == Asks(s.pending.at[u], now, canRecover)
  {
    hide RetryRemoval;
    RetryRemovalOther(s, u, u + 1);
    RetryRemovalOther(s.(pending := s.pending.Put(u, s.pending.at[u].(stuck := true))), u, u + 1);
  }

  /** A pass over the removals: each is treated once, and Bridge is to be recovered exactly if one of them
      asked for one of its recoveries. */
  lemma {:induction false} RemovalTimersStep(s: State, us: seq<UserId>, now: nat, canRecover: bool)
    requires Distinct(us)
    ensures var (t, asked) := RemovalTimers(s, us, now, canRecover);
      && (forall u :: u in us && u in s.pending.at ==> TimerStep(s.pending.at[u], Entry(t, u), now, canRecover))
      && (asked <==> exists u :: u in us && u in s.pending.at && Asks(s.pending.at[u], now, canRecover))
    decreases us
  {
    hide RemovalTimer, TimerStep, Asks;
    if us != [] {
      var u := us[0];
      var (a, first) := RemovalTimer(s, u, now, canRecover);
      var (t, rest) := RemovalTimers(a, us[1..], now, canRecover);
      RemovalTimersStep(a, us[1..], now, canRecover);
      if u in s.pending.at {
        RemovalTimerSteps(s, u, now, canRecover);
      } else {
        assert (a, first) == (s, false) by { NoTimer(s, u, now, canRecover); }
      }
      RemovalTimersOther(a, us[1..], now, canRecover, u);
      assert Entry(t, u) == Entry(a, u);
      forall x | x in us[1..]
        ensures Entry(a, x) == Entry(s, x)
      {
        RemovalTimerOther(s, u, now, canRecover, x);
      }
      forall x | x in us && x in s.pending.at
        ensures TimerStep(s.pending.at[x], Entry(t, x), now, canRecover)
      {
        assert x == u || (x in us[1..] && Entry(a, x) == Entry(s, x));
      }
      assert forall x :: x in us <==> x == u || x in us[1..];
    }
  }

  lemma NoTimer(s: State, u: UserId, now: nat, canRecover: bool)
    requires u !in s.pending.at
    ensures RemovalTimer(s, u, now, canRecover) == (s, false)
  {
  }

  // ---- the recoveries of one removal over a run ---------------------------------------------------

  predicate Spends(s: State, t: State, u: UserId) {
    u in s.pending.at && u in t.pending.at && s.pending.at[u].recoveries < t.pending.at[u].recoveries
  }

  /** How many of the first k moves spend a recovery on u. */
  function Spent(s: State, moves: seq<Move>, u: UserId, k: nat): nat
    requires k <= |moves|
    decreases k
  {
    if k == 0 then 0
    else Spent(s, moves, u, k - 1) + if Spends(After(s, moves, k - 1), After(s, moves, k), u) then 1 else 0
  }

  lemma FramedRemovals(s: State, step: Step, t: State, u: UserId)
    requires Framed(s, step, t)
    ensures s.env.calls <= t.env.calls && (s.env.dead ==> t.env.dead)
    ensures !t.env.dead && u in t.pending.at ==>
      Opened(s.env.calls, t.env.calls, u) || (u in s.pending.at && RemovalKept(s.pending.at[u], t.pending.at[u]))
  {
    hide Logins, OpFlow, CallsSpare, Opened;
  }

  lemma {:induction false} CallsGrow(s: State, moves: seq<Move>, k: nat)
    requires Inv(s) && k <= |moves| && forall i :: 0 <= i < k ==> !moves[i].step.Reload?
    ensures s.env.calls <= After(s, moves, k).env.calls && (s.env.dead ==> After(s, moves, k).env.dead)
  {
    hide Inv, Do, Framed, Opened;
    if k == 0 {
      assert moves[..0] == [];
    } else {
      CallsGrow(s, moves, k - 1);
      AfterKeeps(s, moves, k - 1);
      AfterStep(s, moves, k - 1);
      Frames(After(s, moves, k - 1), moves[k - 1]);
      FramedRemovals(After(s, moves, k - 1), moves[k - 1].step, After(s, moves, k), 0);
    }
  }

  /** One removal spends at most two recoveries however long it lasts, and once stuck it stays so: through every
      run in which the worker lives and the removal goes on, without being opened anew. */
  lemma {:induction false} RecoveriesBounded(s: State, moves: seq<Move>, u: UserId, k: nat)
    requires Inv(s) && k <= |moves| && !After(s, moves, k).env.dead && !Opened(s.env.calls, After(s, moves, k).env.calls, u)
    requires forall i :: 0 <= i < k ==> !moves[i].step.Reload?
    requires forall i :: 0 <= i <= k ==> u in After(s, moves, i).pending.at
    ensures u in s.pending.at && RemovalKept(s.pending.at[u], After(s, moves, k).pending.at[u])
    ensures s.pending.at[u].recoveries + Spent(s, moves, u, k) <= After(s, moves, k).pending.at[u].recoveries <= MAX_REMOVAL_RECOVERIES
  {
    hide Inv, Do, Framed, Opened;
    AfterKeeps(s, moves, k);
    AtMostTwo(After(s, moves, k), u);
    if k == 0 {
      assert moves[..0] == [];
    } else {
      AfterKeeps(s, moves, k - 1);
      AfterStep(s, moves, k - 1);
      Frames(After(s, moves, k - 1), moves[k - 1]);
      FramedRemovals(After(s, moves, k - 1), moves[k - 1].step, After(s, moves, k), u);
      CallsGrow(s, moves, k - 1);
      OpenedLater(s.env.calls, After(s, moves, k - 1).env.calls, After(s, moves, k).env.calls, u);
      assert u in After(s, moves, k - 1).pending.at;
      RecoveriesBounded(s, moves, u, k - 1);
    }
  }

  lemma AtMostTwo(s: State, u: UserId)
    requires Inv(s)
    ensures u in s.pending.at ==> s.pending.at[u].recoveries <= MAX_REMOVAL_RECOVERIES
  {
    hide OpsOk, SlotOk, LoginOk, ProcOk, SealOk, LeasesOk, JournalOk, DiskOk, LinksOk, CallsOk, HasLink;
  }

  // ---- how long a removal keeps sign-ins out ------------------------------------------------------

  /** u's removal keeps sign-ins from starting. */
  predicate Blocks(s: State, u: UserId) {
    u in s.pending.at && s.pending.at[u].reason.Attempt? && !s.pending.at[u].stuck
  }

  /** No attempt is active or may clean up u. */
  ghost predicate Clean(ops: map<OpId, Operation>, u: UserId) {
    forall id :: id in ops ==> !Active(ops[id].state) && !Heir(ops[id], u)
  }

  /** Between the moves: Bridge is up, nobody signs in, and only u's removal can bring a recovery. */
  ghost predicate Waiting(s: State, u: UserId, d: nat) {
    Inv(s) && Attentive(s, d) && Alive(s) && Blocks(s, u) && s.slot.None? && Clean(s.ops.at, u)
  }

  /** u's removal is as it was, or over. */
  ghost predicate SameEntry(s: State, t: State, u: UserId) {
    Entry(t, u) == Entry(s, u) || Entry(t, u).None?
  }

  lemma WaitingIsIdle(s: State, u: UserId, d: nat)
    requires Waiting(s, u, d)
    ensures s.env.login.Idle? && !HasLink(s.links, u) && EnsureStarted(s) == (s, None)
  {
    hide OpsOk, SlotOk, ProcOk, SealOk, LeasesOk, JournalOk, DiskOk, LinksOk, CallsOk, HasLink, AfterRestart, Clean;
  }

  lemma BeginOther(s: State, v: UserId, reason: Reason, u: UserId)
    requires v != u
    ensures Entry(BeginRemoval(s, v, reason), u) == Entry(s, u)
  {
    hide BeginRemoval;
    BeginRemovalEntry(s, v, reason);
  }

  lemma DropOther(s: State, id: OpId, u: UserId)
    requires id in s.ops.at && s.ops.at[id].userId != Some(u)
    ensures Entry(DropAttemptUser(s, id), u) == Entry(s, u)
  {
    hide BeginRemoval, Handed, HasLink, HasHeir;
    if s.ops.at[id].userId.Some? {
      BeginOther(s, s.ops.at[id].userId.value, Attempt, u);
    }
  }

  lemma CancelEntry(s: State, id: OpId, u: UserId)
    requires Clean(s.ops.at, u)
    ensures Entry(CancelConnection(s, id).0, u) == Entry(s, u)
  {
    hide DropAttemptUser, Save;
    if id in s.ops.at && s.ops.at[id].state.Connected? && !s.ops.at[id].committed {
      DropOther(End(s, id, Cancelled, None), id, u);
    }
  }

  lemma CredentialsEntry(s: State, v: UserId, id: Option<OpId>, generation: Option<Generation>, email: Email, u: UserId)
    requires EnsureStarted(s) == (s, None)
    ensures Entry(Credentials(s, v, id, generation, email).0, u) == Entry(s, u)
  {
    hide EnsureStarted, CredentialsOf, NativeCall, Owns;
    CallFrame(s);
    CallFrame(GetUser(s).0);
  }

  lemma RemoveEntry(s: State, v: UserId, generation: Generation, email: Email, u: UserId)
    requires EnsureStarted(s) == (s, None) && !HasLink(s.links, u)
    ensures Entry(RemoveUser(s, v, generation, email).0, u) == Entry(s, u)
  {
    hide EnsureStarted, BeginRemoval, Save, HasHeir, Handed;
    if v == u {
      assert LinkKey(v, Lower(email)) !in s.links;
    } else {
      BeginOther(s.(links := s.links - {LinkKey(v, Lower(email))}), v, Unlink, u);
    }
  }

  lemma ChangedEntry(s: State, v: UserId, u: UserId)
    requires Clean(s.ops.at, u)
    ensures SameEntry(s, OnUserChanged(s, v), u)
  {
    hide ListUsers, CheckAll;
    ListFrame(s);
    var l := ListUsers(s).0;
    var t := if v !in s.pending.at then s else if ListUsers(s).1.Some? && v !in ListUsers(s).1.value then DropPending(l, v) else l;
    NoneChecking(t, t.ops.order, v);
  }

  lemma DeliveredEntry(s: State, ev: Event, u: UserId)
    requires Clean(s.ops.at, u) && s.env.login.Idle?
    ensures SameEntry(s, Delivered(s, ev), u)
  {
    hide OnUserChanged, OnLoginError, OnLoginFinished, StopAttempt, Save;
    if ev.UserChangedEvent? {
      ChangedEntry(s, ev.changed, u);
    }
  }

  lemma RecoverNativeEntry(s: State, u: UserId)
    ensures Entry(RecoverNative(s), u) == Entry(s, u)
  {
    hide Turn, Stamped;
    StampedProc(s);
    TurnFrame(Popped(Stamped(s)), Next(Stamped(s)));
  }

  lemma TurnFrame(s: State, a: Answer)
    ensures Turn(s, a) == s.(env := Turn(s, a).env)
  {
    hide Accountable;
  }

  /** While u's removal blocks, no step but tick and the end of a recovery touches it, but to end it. */
  lemma OthersKeepEntry(s: State, m: Move, u: UserId, d: nat)
    requires Waiting(s, u, d) && Attentive(Do(s, m), d)
    requires !m.step.Reload? && !m.step.DoTick? && !m.step.DoRecoverFinish?
    ensures SameEntry(s, Do(s, m), u)
  {
    hide Inv, Turn, Boot, StartConnection, ContinueConnection, CancelConnection, CommitConnection, Credentials, RemoveUser, DrainRound,
         SnapshotEnd, RecoverNative, Delivered, Alive, Clean, EnsureStarted, HasLink;
    var q := s.(env := s.env.(tape := m.tape));
    assert Waiting(q, u, d) by { TapeKeeps(s, m.tape); SameAlive(s, q); }
    WaitingIsIdle(q, u, d);
    match m.step
    case World(turn) => TurnFrame(q, turn);
    case DoBoot => BootStays(q, u);
    case DoStart(id, email, password) => StartRefuses(q, id, email, password, u);
    case DoContinue(id, challenge, secret) => ContinueRefuses(q, id, challenge, secret);
    case DoCancel(id) => CancelEntry(q, id, u);
    case DoCommit(id, user, generation, previous) => CommitStays(q, id, user, generation, previous);
    case DoCredentials(user, attempt, current, email) => CredentialsEntry(q, user, attempt, current, email, u);
    case DoRemove(user, generation, email) => RemoveEntry(q, user, generation, email, u);
    case DoAcquire(lease) =>
    case DoRelease(lease) =>
    case DoBegin(snapshot) =>
    case DoDrainRound(snapshot, deadline) => GateRefuses(q, snapshot, deadline);
    case DoEnd(snapshot) => GateRefuses(q, snapshot, 0);
    case DoRenew(snapshot) =>
    case DoRecoverNative => RecoverNativeEntry(q, u);
    case Deliver(event) => DeliveredEntry(q, event, u);
    case DoShutdown =>
  }

  lemma SameAlive(s: State, t: State)
    requires t == s.(env := s.env.(tape := t.env.tape, lastTick := t.env.lastTick))
    ensures Alive(t) == Alive(s)
  {
  }

  lemma BootStays(s: State, u: UserId)
    requires EnsureStarted(s) == (s, None)
    ensures Boot(s).0.pending == s.pending
  {
    hide EnsureStarted, Save;
  }

  lemma StartRefuses(s: State, id: OpId, email: Email, password: string, u: UserId)
    requires Blocks(s, u)
    ensures StartConnection(s, id, email, password).0 == s
  {
    hide EnsureStarted, SignIn;
    assert LiveAttemptRemoval(s);
  }

  lemma ContinueRefuses(s: State, id: OpId, ch: Challenge, secret: string)
    requires s.slot.None?
    ensures ContinueConnection(s, id, ch, secret).0 == s
  {
  }

  lemma CommitStays(s: State, id: OpId, u: UserId, generation: Generation, previous: Option<Generation>)
    ensures CommitConnection(s, id, u, generation, previous).0.pending == s.pending
  {
    hide Save;
  }

  lemma GateRefuses(s: State, id: SnapshotId, deadline: nat)
    requires s.gate.snapshot.None?
    ensures DrainRound(s, id, deadline).0 == s && SnapshotEnd(s, id).0 == s
  {
    hide OpenGate, SettleHolder, LoginActive;
  }

  // ---- tick and the end of a recovery -------------------------------------------------------------

  lemma DropClean(s: State, id: OpId, u: UserId)
    requires id in s.ops.at && Clean(s.ops.at, u)
    ensures Clean(DropAttemptUser(s, id).ops.at, u) && DropAttemptUser(s, id).slot == s.slot && DropAttemptUser(s, id).proc == s.proc
  {
    hide BeginRemoval, Handed, HasLink, HasHeir;
    if s.ops.at[id].userId.Some? {
      BeginRemovalEntry(s, s.ops.at[id].userId.value, Attempt);
    }
  }

  lemma {:induction false} ExpireOther(s: State, ids: seq<OpId>, now: nat, u: UserId)
    requires Clean(s.ops.at, u) && s.slot.None?
    ensures var t := Expire(s, ids, now); Entry(t, u) == Entry(s, u) && Clean(t.ops.at, u) && t.slot.None? && t.proc == s.proc
    decreases ids
  {
    hide DropAttemptUser;
    if ids != [] {
      var id := ids[0];
      if id in s.ops.at && s.ops.at[id].createdAt + s.cfg.ttl <= now && s.ops.at[id].state.Connected? && !s.ops.at[id].committed {
        var e := End(s, id, Expired, None);
        DropOther(e, id, u);
        DropClean(e, id, u);
        assert ExpireOne(s, id, now) == DropAttemptUser(e, id);
      } else {
        assert ExpireOne(s, id, now) == s;
      }
      ExpireOther(ExpireOne(s, id, now), ids[1..], now, u);
    }
  }

  lemma {:induction false} BeginsOther(s: State, us: seq<UserId>, u: UserId)
    requires u !in us
    ensures Entry(BeginRemovals(s, us), u) == Entry(s, u)
    decreases us
  {
    hide BeginRemoval;
    if us != [] {
      BeginOther(s, us[0], Attempt, u);
      BeginsOther(BeginRemoval(s, us[0], Attempt), us[1..], u);
    }
  }

  /** Reconciling attempts leaves a removal alone that is under way. */
  lemma OrphansEntry(s: State, id: OpId, u: UserId)
    requires id in s.ops.at && u in s.pending.at
    ensures Entry(ReconcileOrphans(s, id).0, u) == Entry(s, u)
  {
    hide BeginRemovals, ListUsers, Loses, HasLink;
    ListFrame(s);
    var (t, users) := ListUsers(s);
    if users.Some? {
      var orphans := set v | v in users.value && !Known(t, id, v);
      assert Known(t, id, u);
      BeginsOther(t, Sorted(orphans), u);
    }
  }

  lemma {:induction false} FlaggedEntry(s: State, ids: seq<OpId>, u: UserId)
    requires u in s.pending.at
    ensures Entry(ReconcileFlagged(s, ids).0, u) == Entry(s, u)
    decreases ids
  {
    hide ReconcileOrphans;
    if ids != [] {
      if ids[0] in s.ops.at && s.ops.at[ids[0]].reconcile {
        OrphansEntry(s, ids[0], u);
        FlaggedEntry(ReconcileOrphans(s, ids[0]).0, ids[1..], u);
      } else {
        FlaggedEntry(s, ids[1..], u);
      }
    }
  }

  lemma ReconcileAllEntry(s: State, u: UserId)
    requires u in s.pending.at
    ensures Entry(ReconcileAll(s).0, u) == Entry(s, u)
  {
    hide ReconcileFlagged, Loses;
    FlaggedEntry(s, s.ops.order, u);
  }

  /** What a tick does to u's removal while nobody signs in: a pass of the timers. */
  lemma TickEntry(s: State, u: UserId)
    requires Core(s) && s.gate.snapshot.None? && !s.proc.recovering && s.proc.started && s.slot.None? && Clean(s.ops.at, u) && u in s.pending.at
    requires var t := TickWork(s).0; !t.env.dead && u in t.pending.at && !Opened(s.env.calls, t.env.calls, u)
    ensures var (t, recover) := TickWork(s); var can := s.proc.nextRecoveryAt <= s.env.clock;
      TimerStep(s.pending.at[u], Some(t.pending.at[u]), s.env.clock, can) && (Asks(s.pending.at[u], s.env.clock, can) ==> recover)
  {
    hide CoreAt, Base, Expire, RemovalTimers, TickProcess, ReconcileAll, TimerStep, Flow, Moves, Drifts, Housekeeping, Opened,
         Alive, ReconcilePending, Clean;
    var now := s.env.clock;
    var can := now >= s.proc.nextRecoveryAt;
    ExpireKeeps(s, s.ops.order, now, now);
    ExpireOther(s, s.ops.order, now, u);
    var a := Expire(s, s.ops.order, now);
    CoreHasBase(a, now);
    PendingListed(a, u);
    RemovalTimersStep(a, a.pending.order, now, can);
    RemovalTimersKeep(a, a.pending.order, now, can);
    var (r, asked) := RemovalTimers(a, a.pending.order, now, can);
    HousekeepingParts(a, r);
    assert !HolderDue(r, now);
    var (c, process) := TickProcess(r, now);
    ProcessEntry(r, now);
    HousekeepingKeeps(a, r, now);
    FlowFrame(s, a);
    TickProcessKeeps(r, now) by { FlowClock(s, a); HousekeepingClock(a, r); }
    var wanted := asked || process;
    if !wanted && Alive(c) && ReconcilePending(c) && now >= c.proc.nextReconcileAt {
      if u in c.pending.at {
        ReconcileAllEntry(c, u);
      } else {
        if !c.env.login.Idle? {
          RetryIsSafe(c, now);
        }
        ReconcileAllKeeps(c, now);
        FlowOpens(c, ReconcileAll(c).0, u);
        FlowIsMoves(s, a);
        HousekeepingFlows(a, r);
        FlowCalls(s, a);
        FlowCalls(a, r);
        FlowCalls(c, ReconcileAll(c).0);
        OpenedLater(s.env.calls, c.env.calls, ReconcileAll(c).0.env.calls, u);
      }
    }
    assert a.pending.at[u] == s.pending.at[u];
    assert TimerStep(a.pending.at[u], Entry(r, u), now, can);
    assert Asks(a.pending.at[u], now, can) ==> asked;
    var d := TickWork(s).0;
    assert Entry(d, u) == Entry(r, u);
  }

  lemma PendingListed(s: State, u: UserId)
    requires Base(s) && u in s.pending.at
    ensures Distinct(s.pending.order) && u in s.pending.order
  {
    hide OpsOk, LinksOk, PendingOk, CallsOk;
  }

  lemma HousekeepingParts(s: State, t: State)
    requires Housekeeping(s, t)
    ensures t.slot == s.slot && t.proc == s.proc && t.gate == s.gate
  {
  }

  lemma HousekeepingClock(s: State, t: State)
    requires Housekeeping(s, t)
    ensures s.env.clock <= t.env.clock
  {
  }

  lemma ProcessEntry(s: State, now: nat)
    requires s.proc.started
    ensures var t := TickProcess(s, now).0; t == s.(proc := t.proc)
  {
    hide NeedsBridge, EnsureStarted;
  }

  lemma FlowCalls(s: State, t: State)
    requires Flow(s, t)
    ensures s.env.calls <= t.env.calls
  {
  }

  lemma FlowOpens(s: State, t: State, u: UserId)
    requires Flow(s, t) && !t.env.dead && u !in s.pending.at && u in t.pending.at
    ensures Opened(s.env.calls, t.env.calls, u)
  {
    hide OpsFlow, CallsSpare, Opened;
  }

  /** Removals that are asked for again have their time renewed, and nothing else. */
  lemma {:induction false} RetriesEntry(s: State, us: seq<UserId>, u: UserId)
    requires Base(s) && u in s.pending.at && u in RetryRemovals(s, us).pending.at
    ensures var t := RetryRemovals(s, us); var o, p := s.pending.at[u], t.pending.at[u];
      p == o.(since := p.since) && p.since <= Max(o.since, t.env.clock) && s.env.clock <= t.env.clock
    decreases us
  {
    hide RetryRemoval, Base, OpsKept, RemovalsMove, LoginMoves, Logins;
    if us != [] {
      RetryRemovalKeeps(s, us[0]);
      var a := RetryRemoval(s, us[0]);
      if us[0] != u {
        RetryRemovalOther(s, us[0], u);
      } else if u in a.pending.at {
        RetryRenews(s, u);
      } else {
        RetryRemovalsGone(a, us[1..], u);
      }
      RetriesEntry(a, us[1..], u);
    }
  }

  lemma RetryRenews(s: State, u: UserId)
    requires Base(s) && u in s.pending.at && u in RetryRemoval(s, u).pending.at
    ensures var t := RetryRemoval(s, u); var o, p := s.pending.at[u], t.pending.at[u];
      p == o.(since := p.since) && p.since <= Max(o.since, t.env.clock)
  {
    hide BeginRemoval, ListUsers, OpsOk, OpsKept, LinksOk, CallsOk, RemovalsMove, Logins;
    ListUsersKeeps(s);
    var (l, users) := ListUsers(s);
    if users.Some? && u in users.value {
      BeginRemovalEntry(l, u, l.pending.at[u].reason);
      PendingFree(l, u);
      BeginRemovalKeeps(l, u, l.pending.at[u].reason);
    }
  }

  lemma PendingFree(s: State, u: UserId)
    requires Base(s) && u in s.pending.at
    ensures !HasLink(s.links, u)
  {
    hide OpsOk, LinksOk, CallsOk, HasLink;
  }

  lemma {:induction false} RetryRemovalsGone(s: State, us: seq<UserId>, u: UserId)
    requires u !in s.pending.at
    ensures u !in RetryRemovals(s, us).pending.at
    decreases us
  {
    hide RetryRemoval;
    if us != [] {
      if us[0] != u {
        RetryRemovalOther(s, us[0], u);
      } else {
        assert RetryRemoval(s, u) == s by { RetryNothing(s, u); }
      }
      RetryRemovalsGone(RetryRemoval(s, us[0]), us[1..], u);
    }
  }

  lemma RetryNothing(s: State, u: UserId)
    requires u !in s.pending.at
    ensures RetryRemoval(s, u) == s
  {
  }

  /** The end of a recovery renews the time of u's removal. */
  lemma FinishEntry(s: State, u: UserId)
    requires Inv(s) && s.proc.restarted.Some? && u in s.pending.at && u in RecoverFinish(s).pending.at && RecoverFinish(s).proc.started
    ensures var t := RecoverFinish(s); var o, p := s.pending.at[u], t.pending.at[u];
      p == o.(since := p.since) && p.since <= Max(o.since, t.env.clock) && !t.proc.recovering
  {
    hide Inv, ReconcileAll, RetryRemovals, Save, CoreAt, Flow, Base;
    FinishCore(s);
    var t := s.(proc := s.proc.(recovering := false, restarted := None, started := true, nativeLost := false));
    var reset := t.(proc := t.proc.(reconcileFailures := 0, nextReconcileAt := 0));
    if s.proc.restarted.value && !s.proc.closed {
      CountersKeep(t, s.env.clock);
      ReconcileAllEntry(reset, u);
      ReconcileAllKeeps(reset, s.env.clock);
      var r := ReconcileAll(reset).0;
      CoreHasBase(r, s.env.clock);
      RetriesEntry(r, s.pending.order, u);
      FlowProc(reset, r);
      RetryRemovalsKeeps(r, s.pending.order);
      HousekeepingParts(r, RetryRemovals(r, s.pending.order));
    }
  }

  lemma FlowProc(s: State, t: State)
    requires Flow(s, t)
    ensures t.proc.recovering == s.proc.recovering && t.proc.restarted == s.proc.restarted
  {
  }

  // ---- the time ------------------------------------------------------------------------------------

  /** The longest the recoveries that are left can take. */
  function Left(recoveries: nat, d: nat): nat {
    if recoveries == 0 then 2 * (RECOVERY_BACKOFF_CAP + 2 * d) else if recoveries == 1 then RECOVERY_BACKOFF_CAP + 2 * d else 0
  }

  /** How far u's removal has kept the clock from running past its end, given the recoveries that are left. */
  ghost predicate RemovalTimed(s: State, u: UserId, end: nat, d: nat)
    requires u in s.pending.at
  {
    var item := s.pending.at[u];
    var left := Left(item.recoveries, d);
    && item.since + left <= end
    && (if s.proc.recovering then s.env.lastTick + d + left <= end
        else s.proc.nextRecoveryAt + left <= end + RECOVERY_BACKOFF_CAP &&
             s.env.lastTick + left <= end + if item.recoveries < MAX_REMOVAL_RECOVERIES then RECOVERY_BACKOFF_CAP else REMOVAL_RETRY_SECONDS)
  }

  /** A recovery begins only by spending one on u. */
  ghost predicate RecoversFor(s: State, t: State, u: UserId) {
    !s.proc.recovering && t.proc.recovering ==> Spends(s, t, u)
  }

  /** No attempt becomes active and nobody else comes to own u while u's removal blocks. */
  lemma WaitingStays(s: State, m: Move, u: UserId, d: nat)
    requires Waiting(s, u, d) && !m.step.Reload? && Attentive(Do(s, m), d) && Alive(Do(s, m)) && Blocks(Do(s, m), u)
    ensures Waiting(Do(s, m), u, d)
  {
    hide Inv, Do, Framed, Alive, Clean, Attentive;
    StepKeeps(s, m);
    var t := Do(s, m);
    if m.step.DoStart? {
      AttentiveLives(s, d);
      ApplyStart(s, m);
      StartRefuses(s.(env := s.env.(tape := m.tape)), m.step.id, m.step.email, m.step.password, u);
    } else if m.step.DoCommit? {
      CommitClean(s, m, u);
    } else {
      Frames(s, m);
      FramedClean(s, m.step, t, u);
    }
  }

  lemma AttentiveLives(s: State, d: nat)
    requires Attentive(s, d)
    ensures !s.env.dead && s.env.lastTick <= s.env.clock <= s.env.lastTick + d && s.gate.snapshot.None? && !s.proc.closed
  {
  }

  lemma CommitClean(s: State, m: Move, u: UserId)
    requires m.step.DoCommit? && Clean(s.ops.at, u)
    ensures Clean(Do(s, m).ops.at, u) && Do(s, m).slot == s.slot
  {
    hide Save;
  }

  lemma FramedClean(s: State, step: Step, t: State, u: UserId)
    requires Framed(s, step, t) && !step.DoStart? && !step.DoCommit? && Clean(s.ops.at, u) && s.slot.None?
    ensures Clean(t.ops.at, u) && t.slot.None?
  {
    hide Logins, CallsSpare, RemovalsKept;
    forall id | id in t.ops.at
      ensures !Active(t.ops.at[id].state) && !Heir(t.ops.at[id], u)
    {
      assert id in s.ops.at && OpFlow(s.ops.at[id], t.ops.at[id], s.env.clock, t.env.clock, s.env.fails < t.env.fails || RecoveryFailed(s, step));
    }
  }

  /** A step that is neither tick nor part of a recovery leaves the timers alone. */
  lemma OthersTimed(s: State, m: Move, u: UserId, end: nat, d: nat)
    requires Waiting(s, u, d) && Waiting(Do(s, m), u, d) && RemovalTimed(s, u, end, d)
    requires !m.step.Reload? && !m.step.DoTick? && !m.step.DoRecoverFinish?
    ensures RemovalTimed(Do(s, m), u, end, d)
  {
    hide Inv, Do, Framed, Alive, Clean;
    OthersKeepEntry(s, m, u, d);
    Frames(s, m);
    var t := Do(s, m);
    FramedTimers(s, m.step, t);
    if m.step.DoRecoverNative? && !s.proc.recovering {
      NothingToRecover(s, m);
    }
  }

  lemma NothingToRecover(s: State, m: Move)
    requires m.step.DoRecoverNative? && !s.proc.recovering
    ensures Do(s, m) == s.(env := s.env.(tape := m.tape))
  {
  }

  lemma FramedTimers(s: State, step: Step, t: State)
    requires Framed(s, step, t) && !step.DoTick? && !step.DoRecoverFinish?
    ensures t.env.lastTick == s.env.lastTick && t.proc.recovering == s.proc.recovering
    ensures t.proc.nextRecoveryAt == s.proc.nextRecoveryAt || step.DoRecoverNative?
  {
    hide OpFlow, Logins, CallsSpare, RemovalsKept;
  }

  lemma TickSetsTimers(s: State, m: Move, u: UserId, d: nat)
    requires Waiting(s, u, d) && m.step.DoTick? && !s.proc.recovering && Waiting(Do(s, m), u, d)
    requires !Opened(s.env.calls, Do(s, m).env.calls, u)
    ensures var t := Do(s, m); var o, p := s.pending.at[u], t.pending.at[u]; var now := s.env.clock; var can := s.proc.nextRecoveryAt <= now;
      && t.env.lastTick == now && t.proc.nextRecoveryAt == s.proc.nextRecoveryAt
      && TimerStep(o, Some(p), now, can) && (Asks(o, now, can) ==> t.proc.recovering)
  {
    hide CoreAt, TickWork, Prune, Persist, Alive, Clean, Opened, TimerStep, Asks, Moves, Drifts, DiskOk, Base, Tick, Distinct;
    var q := s.(env := s.env.(tape := m.tape, lastTick := s.env.clock));
    assert Core(q) by { TapeKeeps(s, m.tape); StampKeeps(s.(env := s.env.(tape := m.tape))); }
    TickIsWork(s.(env := s.env.(tape := m.tape)));
    TickWorkKeeps(q);
    var (b, recover) := TickWork(q);
    assert b.ops.Wf() by { CoreHasBase(b, q.env.clock); OpsOkWf(b.ops, b.env.clock); }
    PruneHolder(b, q.env.clock);
    MovesProc(q, b);
    var c := Prune(b, b.ops.order, q.env.clock);
    PersistOnlyDisk(c);
    PersistOnlyDisk(c.(proc := c.proc.(recovering := true)));
    StartedWhenAlive(s);
    TickEntry(q, u);
  }

  lemma StartedWhenAlive(s: State)
    requires Alive(s)
    ensures s.proc.started
  {
  }

  lemma TickTimes(s: State, m: Move, u: UserId, end: nat, d: nat)
    requires Waiting(s, u, d) && Waiting(Do(s, m), u, d) && RemovalTimed(s, u, end, d)
    requires m.step.DoTick? && !s.proc.recovering && RecoversFor(s, Do(s, m), u) && !Opened(s.env.calls, Do(s, m).env.calls, u)
    ensures RemovalTimed(Do(s, m), u, end, d)
  {
    hide Inv, Do, Alive, Clean, Opened;
    TickSetsTimers(s, m, u, d);
    AtMostTwo(s, u);
  }

  lemma FinishTimes(s: State, m: Move, u: UserId, end: nat, d: nat)
    requires Waiting(s, u, d) && Waiting(Do(s, m), u, d) && RemovalTimed(s, u, end, d) && m.step.DoRecoverFinish?
    ensures RemovalTimed(Do(s, m), u, end, d)
  {
    hide Inv, Alive, Clean, RecoverFinish, Framed;
    var q := s.(env := s.env.(tape := m.tape));
    TapeKeeps(s, m.tape);
    var t := Do(s, m);
    AttentiveLives(t, d);
    if s.proc.restarted.Some? {
      StartedWhenAlive(t);
      FinishEntry(q, u);
      RestartedMeansRecovering(s);
      NextRecoveryBound(t);
      Frames(s, m);
      FinishFrame(s, m.step, t);
    } else {
      assert t == q by { NothingToFinish(q); }
    }
  }

  lemma NothingToFinish(s: State)
    requires s.proc.restarted.None?
    ensures RecoverFinish(s) == s
  {
  }

  lemma RestartedMeansRecovering(s: State)
    requires Inv(s) && s.proc.restarted.Some?
    ensures s.proc.recovering
  {
    hide Base, SlotOk, LoginOk, SealOk, LeasesOk, JournalOk, DiskOk;
  }

  lemma FinishFrame(s: State, step: Step, t: State)
    requires Framed(s, step, t) && step.DoRecoverFinish?
    ensures t.env.lastTick == s.env.lastTick && s.env.clock <= t.env.clock
  {
    hide OpFlow, Logins, CallsSpare, RemovalsKept;
  }

  /** A calm run in which Bridge stays alive and u's removal goes on, blocks sign-ins, and is all that brings
      recoveries. */
  ghost predicate OnlyRemoval(s: State, moves: seq<Move>, u: UserId, k: nat)
    requires k <= |moves|
  {
    && (forall i :: 0 <= i <= k ==> Alive(After(s, moves, i)) && Blocks(After(s, moves, i), u))
    && (forall i :: 0 <= i < k ==> RecoversFor(After(s, moves, i), After(s, moves, i + 1), u))
    && !Opened(s.env.calls, After(s, moves, k).env.calls, u)
  }

  lemma {:induction false} RunRemovalTimed(s: State, moves: seq<Move>, u: UserId, end: nat, d: nat, k: nat)
    requires k <= |moves| && Waiting(s, u, d) && RemovalTimed(s, u, end, d) && Calm(s, moves, d, k) && OnlyRemoval(s, moves, u, k)
    ensures Waiting(After(s, moves, k), u, d) && RemovalTimed(After(s, moves, k), u, end, d)
  {
    hide Inv, Do, Alive, Attentive, Clean, Opened, RemovalTimed, RecoversFor, Blocks;
    if k == 0 {
      assert moves[..0] == [];
    } else {
      var p, t, m := After(s, moves, k - 1), After(s, moves, k), moves[k - 1];
      assert Inv(s);
      CallsGrow(s, moves, k - 1);
      AfterStep(s, moves, k - 1);
      AfterKeeps(s, moves, k - 1);
      Frames(p, m);
      FramedRemovals(p, m.step, t, u);
      OpenedLater(s.env.calls, p.env.calls, t.env.calls, u);
      RunRemovalTimed(s, moves, u, end, d, k - 1);
      WaitingStays(p, m, u, d);
      assert RecoversFor(p, t, u);
      if m.step.DoTick? {
        TickTimes(p, m, u, end, d);
      } else if m.step.DoRecoverFinish? {
        FinishTimes(p, m, u, end, d);
      } else {
        OthersTimed(p, m, u, end, d);
      }
    }
  }

  /** Bounded liveness: from a moment when nobody signs in and nothing recovers, a removal keeps sign-ins out for at
      most (2 - r)(300 + 2d) + 120 + d seconds, r being the recoveries it has spent: then its user is gone, or it is
      stuck and stops blocking. The run is calm (tick comes every d seconds, no listing and no restart fails), Bridge
      stays alive, and no other reason brings a recovery. */
  lemma RemovalStopsBlocking(s: State, moves: seq<Move>, u: UserId, d: nat, k: nat)
    requires Waiting(s, u, d) && !s.proc.recovering && s.pending.at[u].since <= s.env.clock
    requires k <= |moves| && Calm(s, moves, d, k) && OnlyRemoval(s, moves, u, k)
    ensures After(s, moves, k).env.clock <= s.env.clock + Left(s.pending.at[u].recoveries, d) + REMOVAL_RETRY_SECONDS + d
  {
    hide Inv, Do, Alive, Clean, Opened, RecoversFor;
    var end := s.env.clock + Left(s.pending.at[u].recoveries, d);
    NextRecoveryBound(s);
    RunRemovalTimed(s, moves, u, end, d, k);
    AtMostTwo(After(s, moves, k), u);
    AttentiveLives(After(s, moves, k), d);
  }

  lemma {:induction false} RetriesRenew(s: State, us: seq<UserId>, u: UserId)
    requires Base(s) && u in us && u in s.pending.at && RetryRemovals(s, us).env.fails == s.env.fails && u in RetryRemovals(s, us).pending.at
    ensures s.env.clock <= RetryRemovals(s, us).pending.at[u].since
    decreases us
  {
    hide RetryRemoval, Base, OpsKept, RemovalsMove, LoginMoves, Logins;
    RetryRemovalKeeps(s, us[0]);
    var a := RetryRemoval(s, us[0]);
    RetryRemovalsKeeps(a, us[1..]);
    if us[0] == u {
      if u !in a.pending.at {
        RetryRemovalsGone(a, us[1..], u);
      } else {
        RetryAnswered(s, u);
        RetriesOnlyRenew(a, us[1..], u, s.env.clock);
      }
    } else {
      RetryRemovalOther(s, us[0], u);
      RetriesRenew(a, us[1..], u);
    }
  }

  lemma RetryAnswered(s: State, u: UserId)
    requires Base(s) && u in s.pending.at && RetryRemoval(s, u).env.fails == s.env.fails && u in RetryRemoval(s, u).pending.at
    ensures s.env.clock <= RetryRemoval(s, u).pending.at[u].since
  {
    hide BeginRemoval, ListUsers, OpsOk, OpsKept, LinksOk, CallsOk, RemovalsMove, Logins;
    ListUsersKeeps(s);
    var (l, users) := ListUsers(s);
    if users.Some? && u in users.value {
      BeginRemovalEntry(l, u, l.pending.at[u].reason);
    }
  }

  lemma {:induction false} RetriesOnlyRenew(s: State, us: seq<UserId>, u: UserId, from: nat)
    requires Base(s) && u in s.pending.at && from <= s.pending.at[u].since && from <= s.env.clock
    requires RetryRemovals(s, us).env.fails == s.env.fails && u in RetryRemovals(s, us).pending.at
    ensures from <= RetryRemovals(s, us).pending.at[u].since
    decreases us
  {
    hide RetryRemoval, Base, OpsKept, RemovalsMove, LoginMoves, Logins;
    if us != [] {
      RetryRemovalKeeps(s, us[0]);
      var a := RetryRemoval(s, us[0]);
      RetryRemovalsKeeps(a, us[1..]);
      if us[0] != u {
        RetryRemovalOther(s, us[0], u);
      } else if u !in a.pending.at {
        RetryRemovalsGone(a, us[1..], u);
      } else {
        RetryAnswered(s, u);
      }
      RetriesOnlyRenew(a, us[1..], u, from);
    }
  }

  /** Why no restart may come in between: each one that finds the user still there renews the time of its removal,
      so with a restart at least every 120 seconds the removal never comes due (TimerStep), and blocks for ever. */
  lemma RestartRenews(s: State, u: UserId)
    requires CoreAt(s, s.env.clock) && s.env.login.Idle? && u in s.pending.at
    requires var t := AfterRestart(s); t.env.fails == s.env.fails && u in t.pending.at
    ensures var o, p := s.pending.at[u], AfterRestart(s).pending.at[u]; p == o.(since := p.since) && s.env.clock <= p.since
  {
    hide ReconcileAll, RetryRemovals, CoreAt, Flow, Base;
    var reset := s.(proc := s.proc.(reconcileFailures := 0, nextReconcileAt := 0));
    CountersKeep(s, s.env.clock);
    ReconcileAllEntry(reset, u);
    ReconcileAllKeeps(reset, s.env.clock);
    var r := ReconcileAll(reset).0;
    CoreHasBase(r, s.env.clock);
    CoreHasBase(s, s.env.clock);
    PendingListed(s, u);
    FlowFails(reset, r);
    RetryRemovalsKeeps(r, s.pending.order);
    HousekeepingFails(r, RetryRemovals(r, s.pending.order));
    RetriesEntry(r, s.pending.order, u);
    RetriesRenew(r, s.pending.order, u);
  }

  lemma FlowFails(s: State, t: State)
    requires Flow(s, t)
    ensures s.env.fails <= t.env.fails && s.env.clock <= t.env.clock
  {
  }
}
