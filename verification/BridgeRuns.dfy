/** Runs from a fresh worker in which a created user is lost, one for each way, and one in which a linked user is
    handed to Bridge. */
module BridgeRuns {
  import opened Wrappers
  import opened Dicts
  import opened BridgeTypes
  import opened BridgeSpec
  import opened BridgeMachine
  import opened BridgeInvariant
  import opened BridgeSections
  import opened BridgeAccounts
  import opened BridgeOrphans

  const DEFAULTS := Config(30, 600, 60, 300)
  const EMAIL: Email := "a@b"
  const PASSWORD := "p"

  /** Bridge answers, and nothing else happens. */
  const YES := Answer(true, 0, {}, None, false, UserInfo(0, [], false, false), false, Survives)

  function Creates(u: UserId): Answer {
    YES.(born := Some(u))
  }

  function Shows(u: UserId): Answer {
    YES.(info := UserInfo(u, [EMAIL], true, true))
  }

  function Leaves(u: UserId): Answer {
    YES.(gone := {u})
  }

  /** t is x but for the log of calls and the answers left over. */
  predicate Like(t: State, x: State) {
    t == x.(env := x.env.(calls := t.env.calls, tape := t.env.tape))
  }

  /** And the journal, which was written last. */
  ghost predicate Kept(t: State, x: State) {
    t == x.(disk := t.disk, env := x.env.(calls := t.env.calls, tape := t.env.tape)) && t.disk == Save(t)
  }

  lemma PersistKept(y: State, x: State)
    requires Like(y, x) && !y.env.dead
    ensures Kept(Persist(y), x)
  {
    hide Save;
    SaveIgnoresEnv(y, Persist(y));
  }

  /** The gate is open, Bridge runs and nothing recovers. */
  predicate Up(s: State) {
    && s.cfg == DEFAULTS && !s.env.dead && s.env.running && s.proc == FRESH_PROC.(started := true) && s.gate == FRESH_GATE
    && s.env.made <= s.env.users
  }

  lemma RunOn(s: State, moves: seq<Move>, m: Move)
    ensures Run(s, moves + [m]) == Do(Run(s, moves), m)
  {
    hide Do;
    assert (moves + [m])[..|moves|] == moves;
  }

  lemma ThreeMoves(s: State, a: Move, b: Move, c: Move)
    ensures Run(s, [a, b, c]) == Do(Do(Do(s, a), b), c)
  {
    hide Do;
    RunOn(s, [], a);
    RunOn(s, [a], b);
    RunOn(s, [a, b], c);
    assert [] + [a] == [a] && [a] + [b] == [a, b] && [a, b] + [c] == [a, b, c];
  }

  lemma QuietTurn(s: State, a: Answer)
    requires s.env.made <= s.env.users && a.crash.Survives? && a.dt == 0 && a.gone == {} && a.born.None? && !a.dies
    ensures Turn(s, a) == s
  {
    hide Accountable;
    if !s.env.dead {
      assert s.env.users - (a.gone * s.env.asked) + {} == s.env.users;
      assert s.env.made * (s.env.users - (a.gone * s.env.asked)) + {} == s.env.made;
    }
  }

  /** A native call in which Bridge only answers. */
  lemma QuietCall(s: State, a: Answer)
    requires s.env.made <= s.env.users && s.env.tape != [] && s.env.tape[0] == a
    requires a.crash.Survives? && a.dt == 0 && a.gone == {} && a.born.None? && !a.dies
    ensures NativeCall(s) == (s.(env := s.env.(tape := s.env.tape[1..])), a.ok && s.env.running)
  {
    hide Turn;
    QuietTurn(Popped(s), a);
  }

  lemma SaveIgnoresEnv(s: State, t: State)
    requires t.ops == s.ops && t.links == s.links && t.pending == s.pending
    ensures Save(t) == Save(s)
  {
  }

  // ---- moves --------------------------------------------------------------------------------------

  /** Sign-in id has taken the slot and runs in Bridge. */
  function SigningIn(s: State, id: OpId): State {
    s.(ops := s.ops.Put(id, NewOperation(id, EMAIL, s.env.clock, s.env.users)), slot := Some(id), env := s.env.(login := Running))
  }

  lemma SignInRuns(s: State, id: OpId)
    requires Up(s) && s.pending == EmptyDict() && s.env.tape == [YES]
    ensures Kept(SignIn(s, id, EMAIL, s.env.users), SigningIn(s, id))
  {
    hide BusyElsewhere, Save, NativeCall;
    var t := s.(ops := s.ops.Put(id, NewOperation(id, EMAIL, s.env.clock, s.env.users)), slot := Some(id));
    QuietCall(LoginLogged(Persist(t), id), YES);
    SaveIgnoresEnv(t, SignIn(s, id, EMAIL, s.env.users));
  }

  lemma Starts(s: State, id: OpId)
    requires Up(s) && s.pending == EmptyDict() && s.slot.None? && !ReconcilePending(s) && id !in s.ops.at
    ensures Kept(Do(s, Move(DoStart(id, EMAIL, PASSWORD), [YES, YES])), SigningIn(s, id))
  {
    hide SignIn, Save, NativeCall, AfterRestart;
    SafeInput();
    var q := s.(env := s.env.(tape := [YES, YES]));
    QuietCall(q, YES);
    assert !Busy(q);
    var l := ListUsers(q).0;
    assert l == s.(env := s.env.(tape := [YES]));
    SignInRuns(l, id);
  }

  lemma FirstStart(clock: nat, users: set<UserId>, id: OpId)
    ensures var s := Init(DEFAULTS, clock, users);
      var up := s.(proc := s.proc.(started := true), env := s.env.(running := true));
      Up(up) && Kept(Do(s, Move(DoStart(id, EMAIL, PASSWORD), [YES, YES, YES])), SigningIn(up, id))
  {
    hide SignIn, Save, NativeCall;
    SafeInput();
    var s := Init(DEFAULTS, clock, users);
    assert s.ops == EmptyDict() && s.pending == EmptyDict();
    var q := s.(env := s.env.(tape := [YES, YES, YES]));
    QuietTurn(Popped(q), YES);
    var up := s.(proc := s.proc.(started := true), env := s.env.(running := true, tape := [YES, YES]));
    assert AfterRestart(up) == up;
    assert EnsureStarted(q) == (up, None);
    QuietCall(up, YES);
    var l := ListUsers(up).0;
    SignInRuns(l, id);
  }

  /** The running sign-in creates u. */
  lemma Born1(s: State, u: UserId)
    requires !s.env.dead && s.env.running && s.env.login.Running? && u !in s.env.users && s.env.made <= s.env.users
    ensures Like(Do(s, Move(World(Creates(u)), [])),
                 s.(env := s.env.(users := s.env.users + {u}, made := s.env.made + {u}, login := Made(u),
                                  slipped := s.env.slipped || !Accountable(s, u))))
  {
    hide Counted;
    var q := s.(env := s.env.(tape := []));
    assert s.env.users - ({} * s.env.asked) == s.env.users;
    assert s.env.made * s.env.users == s.env.made;
    assert Born(q, Creates(u));
  }

  /** The holder is cancelled: it ends and keeps the slot. */
  lemma Cancels(s: State, id: OpId)
    requires Up(s) && id in s.ops.at && s.ops.at[id].state.Authenticating?
    ensures Kept(Do(s, Move(DoCancel(id), [YES])), End(s, id, Cancelled, None))
  {
    hide Save, NativeCall;
    var e := End(s.(env := s.env.(tape := [YES])), id, Cancelled, None);
    QuietCall(e, YES);
    PersistKept(NativeCall(e).0, End(s, id, Cancelled, None));
  }

  /** The event by which Bridge reports user u. */
  function Reported(finished: bool, u: UserId): Event {
    if finished then FinishedEvent(Some(u)) else AlreadyLoggedInEvent(Some(u))
  }

  /** The holder, reported to be signed in as u, is to be checked. */
  function CheckingAs(s: State, id: OpId, u: UserId, finished: bool): Operation
    requires id in s.ops.at
  {
    s.ops.at[id].(userId := Some(u), createdByAttempt := finished && u !in s.ops.at[id].preexisting, state := Checking)
  }

  lemma ShowsOwner(u: UserId)
    ensures Owns(UserInfo(u, [EMAIL], true, true), u, EMAIL)
  {
    var info := UserInfo(u, [EMAIL], true, true);
    assert info.addresses[0] in info.addresses && Lower(info.addresses[0]) == Lower(EMAIL);
  }

  lemma SafeInput()
    ensures SafeEmail(EMAIL) && PASSWORD != ""
  {
    assert EMAIL[1] == '@';
  }

  lemma Connects(s: State, id: OpId, u: UserId, finished: bool)
    requires Up(s) && s.slot == Some(id) && id in s.ops.at && s.ops.at[id].state.Authenticating? && s.ops.at[id].email == EMAIL
    requires CanSend(s.env, Reported(finished, u))
    ensures var c := SetOp(s, id, CheckingAs(s, id, u, finished).(state := Connected, errorCode := None));
      Kept(Do(s, Move(Deliver(Reported(finished, u)), [Shows(u)])), c.(slot := None, env := c.env.(login := Idle)))
  {
    hide Persist, OnLoginError, OnUserChanged, OnLoginFinished, StopAttempt;
    var q := s.(env := s.env.(tape := [Shows(u)], login := Idle));
    FinishConnects(q, id, u, finished);
    var c := SetOp(s, id, CheckingAs(s, id, u, finished).(state := Connected, errorCode := None));
    PersistKept(OnLoginFinished(q, finished, Some(u)), c.(slot := None, env := c.env.(login := Idle)));
  }

  lemma FinishConnects(s: State, id: OpId, u: UserId, finished: bool)
    requires s.slot == Some(id) && id in s.ops.at && s.ops.at[id].state.Authenticating? && s.ops.at[id].email == EMAIL
    requires s.env.tape == [Shows(u)] && s.env.running && s.env.made <= s.env.users
    ensures OnLoginFinished(s, finished, Some(u)) ==
      SetOp(s, id, CheckingAs(s, id, u, finished).(state := Connected, errorCode := None)).(slot := None, env := s.env.(tape := []))
  {
    hide Check;
    CheckConnects(SetOp(s, id, CheckingAs(s, id, u, finished)), id, u);
  }

  lemma CheckConnects(s: State, id: OpId, u: UserId)
    requires s.slot == Some(id) && id in s.ops.at && s.ops.at[id].userId == Some(u) && s.ops.at[id].email == EMAIL
    requires s.env.tape == [Shows(u)] && s.env.running && s.env.made <= s.env.users
    ensures Check(s, id) == SetOp(s, id, s.ops.at[id].(state := Connected, errorCode := None)).(slot := None, env := s.env.(tape := []))
  {
    hide NativeCall, Owns, Lower;
    QuietCall(s, Shows(u));
    assert [Shows(u)][1..] == [];
    assert Next(s) == Shows(u);
    ShowsOwner(u);
  }

  /** Bridge does not show the user: the holder stays to be checked. */
  lemma StaysChecking(s: State, id: OpId, u: UserId)
    requires Up(s) && s.slot == Some(id) && id in s.ops.at && s.ops.at[id].state.Authenticating?
    requires CanSend(s.env, Reported(false, u))
    ensures var c := SetOp(s, id, CheckingAs(s, id, u, false));
      Kept(Do(s, Move(Deliver(Reported(false, u)), [])), c.(env := c.env.(login := Idle)))
  {
    hide Save, Turn;
    var q := s.(env := s.env.(tape := [], login := Idle));
    var a := SetOp(q, id, CheckingAs(s, id, u, false));
    QuietTurn(a, SILENT);
    assert GetUser(a) == (a, None);
    PersistKept(OnLoginFinished(q, false, Some(u)), a.(env := s.env.(login := Idle)));
  }

  function TheLink(u: UserId, g: Generation): map<LinkKey, Link> {
    map[LinkKey(u, Lower(EMAIL)) := Link(u, EMAIL, g)]
  }

  lemma Commits(s: State, id: OpId, u: UserId, g: Generation)
    requires Up(s) && id in s.ops.at && s.ops.at[id].state.Connected? && !s.ops.at[id].committed && s.ops.at[id].userId == Some(u)
    requires s.ops.at[id].email == EMAIL && s.links == map[] && u !in s.pending.at
    ensures var c := SetOp(s, id, s.ops.at[id].(committed := true, endedAt := Some(s.env.clock)));
      Kept(Do(s, Move(DoCommit(id, u, g, None), [])), c.(links := TheLink(u, g)))
  {
    hide Save;
    var c := SetOp(s, id, s.ops.at[id].(committed := true, endedAt := Some(s.env.clock)));
    var t := c.(links := TheLink(u, g));
    assert map[][LinkKey(u, Lower(EMAIL)) := Link(u, EMAIL, g)] == TheLink(u, g);
    PersistKept(t.(env := t.env.(tape := [])), t);
  }

  /** The last link of u is removed, and u goes at once. */
  function Unlinking(s: State, u: UserId): State {
    s.(links := map[], pending := Dict([u], map[u := Removal(Unlink, s.env.clock, 0, false)]),
       env := s.env.(users := s.env.users - {u}, made := s.env.made - {u}, asked := s.env.asked + {u}))
  }

  lemma Unlinks(s: State, u: UserId, g: Generation)
    requires Up(s) && s.links == TheLink(u, g) && s.pending == EmptyDict() && forall id :: id in s.ops.at ==> !Heir(s.ops.at[id], u)
    ensures Kept(Do(s, Move(DoRemove(u, g, EMAIL), [Leaves(u)])), Unlinking(s, u))
  {
    hide Save, Turn, Held, Linked;
    SafeInput();
    var q := s.(env := s.env.(tape := [Leaves(u)]));
    var key := LinkKey(u, Lower(EMAIL));
    assert q.links - {key} == map[];
    var cut := q.(links := map[]);
    var p := cut.(pending := Dict([u], map[u := Removal(Unlink, s.env.clock, 0, false)]));
    assert cut.pending.Put(u, Removal(Unlink, s.env.clock, 0, false)) == p.pending;
    var l := RemoveLogged(p, u, true);
    LeavingTurn(Popped(l), u);
    assert [Leaves(u)][1..] == [];
    assert BeginRemoval(cut, u, Unlink) == NativeCall(l).0;
    PersistKept(NativeCall(l).0, Unlinking(s, u));
  }

  lemma LeavingTurn(s: State, u: UserId)
    requires !s.env.dead && u in s.env.asked && s.env.made <= s.env.users
    ensures Turn(s, Leaves(u)) == s.(env := s.env.(users := s.env.users - {u}, made := s.env.made - {u}))
  {
    hide Accountable;
    assert s.env.users - ({u} * s.env.asked) + {} == s.env.users - {u};
    assert s.env.made * (s.env.users - ({u} * s.env.asked)) + {} == s.env.made - {u};
  }

  /** Bridge says that a user being removed has changed, and no longer lists it. */
  lemma GoesAway(s: State, u: UserId, item: Removal)
    requires Up(s) && s.pending == Dict([u], map[u := item]) && u !in s.env.users
    requires forall id :: id in s.ops.at ==> !s.ops.at[id].state.Checking?
    ensures Kept(Do(s, Move(Deliver(UserChangedEvent(u)), [YES])), s.(pending := EmptyDict()))
  {
    hide Save, NativeCall;
    var q := s.(env := s.env.(tape := [YES]));
    QuietCall(q, YES);
    assert [YES][1..] == [];
    var l := ListUsers(q).0;
    assert l == s.(env := s.env.(tape := []));
    assert [u][1..] == [] && Without([u], u) == [] && map[u := item] - {u} == map[];
    assert l.pending.Drop(u) == EmptyDict();
    assert DropPending(l, u) == l.(pending := EmptyDict());
    NoneChecking(DropPending(l, u), l.ops.order, u);
    PersistKept(DropPending(l, u), s.(pending := EmptyDict()));
  }

  // ---- a linked user, and what becomes of it ------------------------------------------------------

  /** Attempt id, signed in as u by an existing account and committed at time c. */
  function CommittedOp(id: OpId, u: UserId, c: nat): Operation {
    NewOperation(id, EMAIL, c, {u}).(userId := Some(u), state := Connected, committed := true, endedAt := Some(c))
  }

  function LinkingMoves(id: OpId, u: UserId, g: Generation): seq<Move> {
    [Move(DoStart(id, EMAIL, PASSWORD), [YES, YES, YES]), Move(Deliver(Reported(false, u)), [Shows(u)]), Move(DoCommit(id, u, g, None), [])]
  }

  predicate LinkedOnce(s: State, id: OpId, u: UserId, g: Generation, clock: nat) {
    && Up(s) && s.slot.None? && s.links == TheLink(u, g) && s.pending == EmptyDict() && s.env.clock == clock
    && s.ops == Dict([id], map[id := CommittedOp(id, u, clock)]) && s.disk == Save(s)
    && s.env.users == {u} && s.env.made == {} && s.env.login.Idle? && !s.env.slipped
  }

  lemma LinkedRun(clock: nat, id: OpId, u: UserId, g: Generation)
    ensures LinkedOnce(Run(Init(DEFAULTS, clock, {u}), LinkingMoves(id, u, g)), id, u, g, clock)
  {
    hide Do, Save;
    var m := LinkingMoves(id, u, g);
    var s0 := Init(DEFAULTS, clock, {u});
    ThreeMoves(s0, m[0], m[1], m[2]);
    FirstStart(clock, {u}, id);
    var s1 := Do(s0, m[0]);
    Connects(s1, id, u, false);
    var s2 := Do(s1, m[1]);
    Commits(s2, id, u, g);
    var s3 := Do(s2, m[2]);
    assert s3.ops == Dict([id], map[id := CommittedOp(id, u, clock)]);
  }

  /** A user that was in the start snapshot of sign-in b, went, and is created by it again. Its link was removed
      while b ran. */
  lemma RecreatedIsLost(clock: nat, a: OpId, b: OpId, u: UserId, g: Generation)
    requires a != b
    ensures var s := Run(Init(DEFAULTS, clock, {u}), LinkingMoves(a, u, g) +
        [Move(DoStart(b, EMAIL, PASSWORD), [YES, YES])] + [Move(DoRemove(u, g, EMAIL), [Leaves(u)])] +
        [Move(Deliver(UserChangedEvent(u)), [YES])] + [Move(World(Creates(u)), [])]);
      !s.env.dead && s.env.running && Orphan(s, u) && s.env.slipped
  {
    hide Do, Save;
    var s0 := Init(DEFAULTS, clock, {u});
    var m3 := LinkingMoves(a, u, g);
    var m4 := m3 + [Move(DoStart(b, EMAIL, PASSWORD), [YES, YES])];
    var m5 := m4 + [Move(DoRemove(u, g, EMAIL), [Leaves(u)])];
    var m6 := m5 + [Move(Deliver(UserChangedEvent(u)), [YES])];
    LinkedRun(clock, a, u, g);
    RunOn(s0, m3, Move(DoStart(b, EMAIL, PASSWORD), [YES, YES]));
    RunOn(s0, m4, Move(DoRemove(u, g, EMAIL), [Leaves(u)]));
    RunOn(s0, m5, Move(Deliver(UserChangedEvent(u)), [YES]));
    RunOn(s0, m6, Move(World(Creates(u)), []));
    var s3 := Run(s0, m3);
    Starts(s3, b);
    var s4 := Run(s0, m4);
    Unlinks(s4, u, g);
    var s5 := Run(s0, m5);
    GoesAway(s5, u, Removal(Unlink, clock, 0, false));
    var s6 := Run(s0, m6);
    assert !Accountable(s6, u);
    Born1(s6, u);
  }

  /** What a new worker reads when a was committed and unlinked and b's sign-in was running. */
  predicate Reread(s: State, a: OpId, b: OpId, u: UserId) {
    && s.cfg == DEFAULTS && s.proc == FRESH_PROC && s.gate == FRESH_GATE && s.slot.None? && s.links == map[] && s.pending == EmptyDict()
    && s.ops.order == [a, b] && a in s.ops.at && b in s.ops.at && s.ops.at.Keys == {a, b}
    && s.ops.at[a].userId == Some(u) && s.ops.at[a].state.Connected? && s.ops.at[a].committed && !s.ops.at[a].reconcile
    && s.ops.at[b].userId.None? && s.ops.at[b].state.Failed? && s.ops.at[b].reconcile && s.ops.at[b].preexisting == {}
    && s.env.users == {u} && s.env.made == {u} && s.env.login.Idle? && !s.env.running && !s.env.dead
  }

  lemma RereadAfter(s: State, a: OpId, b: OpId, u: UserId, c: nat)
    requires a != b && s.cfg == DEFAULTS && s.links == map[] && s.pending == EmptyDict() && s.disk == Save(s)
    requires s.ops == Dict([a, b], map[a := CommittedOp(a, u, c), b := NewOperation(b, EMAIL, c, {})])
    requires s.env.users == {u} && s.env.made == {u}
    ensures Reread(Do(s, Move(Reload, [])), a, b, u)
  {
    hide Loses, Written, Restored, Save, Loaded;
    SavedParts(s);
    ReadAgain(CommittedOp(a, u, c), s.env.clock);
    ReadAgain(NewOperation(b, EMAIL, c, {}), s.env.clock);
    LoadedParts(s.cfg, s.disk, s.env.(tape := [], running := false, login := Idle, dead := false));
  }

  lemma LoadedParts(cfg: Config, j: Journal, env: Env)
    ensures var t := Loaded(cfg, j, env);
      && t == State(cfg, t.ops, j.links, t.pending, None, FRESH_GATE, FRESH_PROC, j, env)
      && t.ops.order == j.ops.order && t.ops.at.Keys == j.ops.at.Keys && (j.reasons.Keys == {} ==> t.pending == EmptyDict())
      && forall id :: id in j.ops.at ==> t.ops.at[id] == Restored(j.ops.at[id], env.clock)
  {
    hide Restored;
    var t := Loaded(cfg, j, env);
    if j.reasons.Keys == {} {
      assert t.pending.at.Keys == {};
      assert t.pending.at == map[];
    }
  }

  /** An attempt written and read again. */
  lemma ReadAgain(o: Operation, now: nat)
    ensures var r := Restored(Written(o), now);
      && r.userId == o.userId && r.committed == o.committed && r.preexisting == o.preexisting
      && (if Active(o.state) then r.state.Failed? && r.reconcile else r.state == o.state && r.reconcile == o.reconcile)
  {
  }

  /** Reconciling b leaves u alone, because a is still connected as u. */
  lemma BootSpares(s: State, a: OpId, b: OpId, u: UserId)
    requires a != b && Reread(s, a, b, u)
    ensures var t := Do(s, Move(DoBoot, [YES, YES])); !t.env.dead && t.env.running && Orphan(t, u) && t.env.slipped
  {
    hide Persist, Turn, AfterRestart, Orphan, Loses;
    var q := s.(env := s.env.(tape := [YES, YES]));
    QuietTurn(Popped(q), YES);
    assert [YES, YES][1..] == [YES];
    var up := s.(proc := s.proc.(started := true), env := s.env.(running := true, tape := [YES]));
    assert CallStart(q) == (s.(env := s.env.(running := true, tape := [YES])), true);
    assert NeedsBridge(q) by { assert b in q.ops.at && q.ops.at[b].reconcile; }
    assert EnsureStarted(q) == (AfterRestart(up), None);
    RestartSpares(up, a, b, u);
    PersistOnlyDisk(AfterRestart(up));
    SameAccounts(AfterRestart(up), Persist(AfterRestart(up)), u);
  }

  lemma SameAccounts(s: State, t: State, u: UserId)
    requires t == s.(disk := t.disk)
    ensures Orphan(t, u) == Orphan(s, u)
  {
    hide Counted;
  }

  lemma RestartSpares(up: State, a: OpId, b: OpId, u: UserId)
    requires a != b && Reread(up.(proc := FRESH_PROC, env := up.env.(running := false)), a, b, u)
    requires up.proc == FRESH_PROC.(started := true) && up.env.running && up.env.tape == [YES]
    ensures var t := AfterRestart(up); !t.env.dead && t.env.running && Orphan(t, u) && t.env.slipped
  {
    hide NativeCall, ReconcileOrphans;
    var f := Noted(SetOp(up.(env := up.env.(tape := [])), b, up.ops.at[b].(reconcile := false)));
    SparesOne(up, a, b, u);
    assert ReconcileFlagged(up, [a, b]) == (f, true) by {
      assert [a, b][1..] == [b] && [b][1..] == [];
      assert ReconcileFlagged(up, [b]) == (f, true);
    }
    assert ReconcileAll(up) == (Reconciled(f, true), true);
    assert AfterRestart(up) == Reconciled(f, true);
    NotAccountable(Reconciled(f, true), u);
  }

  lemma SparesOne(up: State, a: OpId, b: OpId, u: UserId)
    requires a != b && Reread(up.(proc := FRESH_PROC, env := up.env.(running := false)), a, b, u)
    requires up.env.running && up.env.tape == [YES]
    ensures ReconcileOrphans(up, b) == (Noted(SetOp(up.(env := up.env.(tape := [])), b, up.ops.at[b].(reconcile := false))), true)
  {
    hide NativeCall, Loses;
    QuietCall(up, YES);
    assert [YES][1..] == [];
    var l := up.(env := up.env.(tape := []));
    assert ListUsers(up) == (l, Some({u}));
    assert Known(l, b, u) by { assert a in l.ops.at && a != b; }
    assert (set v | v in {u} && !Known(l, b, v)) == {};
  }

  lemma NotAccountable(s: State, u: UserId)
    requires s.links == map[] && s.pending == EmptyDict() && s.slot.None?
    requires forall id :: id in s.ops.at ==> !Heir(s.ops.at[id], u) && !s.ops.at[id].reconcile
    ensures !Accountable(s, u)
  {
  }

  /** A committed attempt whose link was removed hides the user that a later sign-in creates again: when the
      worker stops in that sign-in, the next one reconciles it and leaves the user alone. */
  lemma HiddenIsLost(clock: nat, a: OpId, b: OpId, u: UserId, g: Generation)
    requires a != b
    ensures var s := Run(Init(DEFAULTS, clock, {u}), LinkingMoves(a, u, g) +
        [Move(DoRemove(u, g, EMAIL), [Leaves(u)])] + [Move(Deliver(UserChangedEvent(u)), [YES])] +
        [Move(DoStart(b, EMAIL, PASSWORD), [YES, YES])] + [Move(World(Creates(u)), [])] +
        [Move(Reload, [])] + [Move(DoBoot, [YES, YES])]);
      !s.env.dead && s.env.running && Orphan(s, u) && s.env.slipped
  {
    hide Do, Save;
    var s0 := Init(DEFAULTS, clock, {u});
    var m3 := LinkingMoves(a, u, g);
    var m4 := m3 + [Move(DoRemove(u, g, EMAIL), [Leaves(u)])];
    var m5 := m4 + [Move(Deliver(UserChangedEvent(u)), [YES])];
    var m6 := m5 + [Move(DoStart(b, EMAIL, PASSWORD), [YES, YES])];
    var m7 := m6 + [Move(World(Creates(u)), [])];
    var m8 := m7 + [Move(Reload, [])];
    LinkedRun(clock, a, u, g);
    RunOn(s0, m3, Move(DoRemove(u, g, EMAIL), [Leaves(u)]));
    RunOn(s0, m4, Move(Deliver(UserChangedEvent(u)), [YES]));
    RunOn(s0, m5, Move(DoStart(b, EMAIL, PASSWORD), [YES, YES]));
    RunOn(s0, m6, Move(World(Creates(u)), []));
    RunOn(s0, m7, Move(Reload, []));
    RunOn(s0, m8, Move(DoBoot, [YES, YES]));
    var s3 := Run(s0, m3);
    Unlinks(s3, u, g);
    var s4 := Run(s0, m4);
    GoesAway(s4, u, Removal(Unlink, clock, 0, false));
    var s5 := Run(s0, m5);
    Starts(s5, b);
    var s6 := Run(s0, m6);
    Born1(s6, u);
    var s7 := Run(s0, m7);
    assert {u} - {u} == {};
    assert s7.ops == Dict([a, b], map[a := CommittedOp(a, u, clock), b := NewOperation(b, EMAIL, clock, {})]);
    SaveIgnoresEnv(s6, s7);
    RereadAfter(s7, a, b, u, clock);
    BootSpares(Run(s0, m8), a, b, u);
  }

  // ---- an abandoned sign-in -----------------------------------------------------------------------

  function AbandonedOp(id: OpId, c: nat): Operation {
    NewOperation(id, EMAIL, c, {}).(state := Cancelled, endedAt := Some(c))
  }

  function AbandoningMoves(id: OpId, u: UserId): seq<Move> {
    [Move(DoStart(id, EMAIL, PASSWORD), [YES, YES, YES]), Move(World(Creates(u)), []), Move(DoCancel(id), [YES])]
  }

  /** Sign-in id was cancelled after it had created u and before it reported u: it holds the slot. */
  predicate Abandoned(s: State, id: OpId, u: UserId, clock: nat) {
    && Up(s) && s.slot == Some(id) && s.links == map[] && s.pending == EmptyDict() && s.env.clock == clock
    && s.ops == Dict([id], map[id := AbandonedOp(id, clock)]) && s.disk == Save(s)
    && s.env.users == {u} && s.env.made == {u} && !s.env.slipped
  }

  lemma AbandonedRun(clock: nat, id: OpId, u: UserId)
    ensures Abandoned(Run(Init(DEFAULTS, clock, {}), AbandoningMoves(id, u)), id, u, clock)
  {
    hide Do, Save;
    var m := AbandoningMoves(id, u);
    var s0 := Init(DEFAULTS, clock, {});
    ThreeMoves(s0, m[0], m[1], m[2]);
    FirstStart(clock, {}, id);
    var s1 := Do(s0, m[0]);
    Born1(s1, u);
    var s2 := Do(s1, m[1]);
    Cancels(s2, id);
    var s3 := Do(s2, m[2]);
    assert s3.ops == Dict([id], map[id := AbandonedOp(id, clock)]);
  }

  lemma AbandonedJournal(s: State, id: OpId, u: UserId, clock: nat)
    requires Abandoned(s, id, u, clock)
    ensures !JournalCovers(s.disk, u)
  {
    hide Written, Save;
    SavedParts(s);
    WrittenParts(AbandonedOp(id, clock));
    OneEnded(s.disk, id, u);
  }

  lemma OneEnded(j: Journal, id: OpId, u: UserId)
    requires j.links == map[] && j.reasons.Keys == {} && j.ops.at.Keys == {id} && Ended(j.ops.at[id].state) && !j.ops.at[id].reconcile
    ensures !JournalCovers(j, u)
  {
    assert u !in j.reasons.Keys;
    assert forall o :: o in j.ops.at ==> o in j.ops.at.Keys;
  }

  lemma SavedParts(s: State)
    ensures var j := Save(s);
      && j.ops.order == s.ops.order && j.ops.at.Keys == s.ops.at.Keys && j.links == s.links && j.reasons.Keys == s.pending.at.Keys
      && forall id :: id in s.ops.at ==> j.ops.at[id] == Written(s.ops.at[id])
  {
    hide Written;
  }

  lemma WrittenParts(o: Operation)
    ensures var w := Written(o); w.state == o.state && w.reconcile == o.reconcile && w.preexisting == o.preexisting && w.userId == o.userId
  {
  }

  /** A worker restart: the slot is not journaled, so the next worker does not mark an attempt that had ended. */
  lemma ReloadedIsLost(clock: nat, id: OpId, u: UserId)
    ensures var s := Run(Init(DEFAULTS, clock, {}), AbandoningMoves(id, u) + [Move(Reload, [])]);
      !s.env.dead && Orphan(s, u) && s.env.slipped
  {
    hide Do, Save, Reloaded, Orphan;
    var s0 := Init(DEFAULTS, clock, {});
    AbandonedRun(clock, id, u);
    RunOn(s0, AbandoningMoves(id, u), Move(Reload, []));
    var s3 := Run(s0, AbandoningMoves(id, u));
    AbandonedJournal(s3, id, u, clock);
    ReloadLost(s3, u);
  }

  lemma ReloadLost(s: State, u: UserId)
    requires u in s.env.made && !JournalCovers(s.disk, u)
    ensures var t := Do(s, Move(Reload, [])); !t.env.dead && Orphan(t, u) && t.env.slipped
  {
    hide JournalCovers, Loaded, Orphan;
    LoadedParts(s.cfg, s.disk, s.env.(tape := [], running := false, login := Idle, dead := false));
    ReloadLoses(s.(env := s.env.(tape := [])), u);
  }

  /** The cancelled holder, whatever the process does. */
  predicate HolderLeft(s: State, id: OpId, u: UserId, clock: nat) {
    && s.cfg == DEFAULTS && !s.env.dead && s.gate == FRESH_GATE && s.slot == Some(id) && s.links == map[] && s.pending == EmptyDict()
    && s.env.clock == clock && s.ops == Dict([id], map[id := AbandonedOp(id, clock)])
    && s.env.users == {u} && s.env.made == {u}
  }

  /** The event stream ends: the next tick recovers Bridge, before the cancelled holder is due. */
  lemma TickRecovers(s: State, id: OpId, u: UserId, clock: nat)
    requires HolderLeft(s, id, u, clock) && s.proc == FRESH_PROC.(started := true, nativeLost := true)
    ensures var t := Do(s, Move(DoTick, [])); HolderLeft(t, id, u, clock) && t.proc == s.proc.(recovering := true)
  {
    hide Save, EnsureStarted, ReconcileAll;
    var q := s.(env := s.env.(tape := [], lastTick := clock));
    assert [id][1..] == [];
    assert Expire(q, [id], clock) == q;
    assert RemovalTimers(q, [], clock, true) == (q, false);
    assert !HolderDue(q, clock);
    assert TickProcess(q, clock) == (q, true);
    assert TickRecovery(q, clock) == (q, true);
    assert Prune(q, [id], clock) == q;
  }

  lemma RecoveryRestarts(s: State, id: OpId, u: UserId, clock: nat)
    requires HolderLeft(s, id, u, clock) && s.proc == FRESH_PROC.(started := true, nativeLost := true, recovering := true)
    ensures var t := Do(s, Move(DoRecoverNative, [YES]));
      HolderLeft(t, id, u, clock) && t.proc.restarted == Some(true) && !t.proc.closed && t.env.running
  {
    hide Turn, Pow2;
    var q := s.(env := s.env.(tape := [YES]));
    QuietTurn(Popped(Stamped(q)), YES);
  }

  lemma {:induction false} NoneMarked(s: State, ids: seq<OpId>)
    requires !ReconcilePending(s)
    ensures ReconcileFlagged(s, ids) == (s, true)
    decreases ids
  {
    if ids != [] {
      NoneMarked(s, ids[1..]);
    }
  }

  lemma RecoveryFrees(s: State, id: OpId, u: UserId, clock: nat)
    requires HolderLeft(s, id, u, clock) && s.proc.restarted == Some(true) && !s.proc.closed && s.env.running
    ensures var t := Do(s, Move(DoRecoverFinish, [])); !t.env.dead && t.env.running && Orphan(t, u) && t.env.slipped
  {
    hide Save, ReconcileFlagged;
    var q := s.(env := s.env.(tape := []));
    var up := q.(proc := q.proc.(recovering := false, restarted := None, started := true, nativeLost := false,
                                 reconcileFailures := 0, nextReconcileAt := 0));
    NoneMarked(up, up.ops.order);
    assert ReconcileAll(up).0 == Reconciled(up, true);
    NotAccountable(up.(slot := None), u);
    assert Loses(up.(slot := None));
  }

  /** Bridge is recovered before tick has marked the ended holder: the slot is freed, and the user is lost. */
  lemma RestartIsLost(clock: nat, id: OpId, u: UserId)
    ensures var s := Run(Init(DEFAULTS, clock, {}), AbandoningMoves(id, u) +
        [Move(Deliver(StreamEndedEvent), [])] + [Move(DoTick, [])] + [Move(DoRecoverNative, [YES])] + [Move(DoRecoverFinish, [])]);
      !s.env.dead && s.env.running && Orphan(s, u) && s.env.slipped
  {
    hide Do, Save;
    var s0 := Init(DEFAULTS, clock, {});
    var m3 := AbandoningMoves(id, u);
    var m4 := m3 + [Move(Deliver(StreamEndedEvent), [])];
    var m5 := m4 + [Move(DoTick, [])];
    var m6 := m5 + [Move(DoRecoverNative, [YES])];
    AbandonedRun(clock, id, u);
    RunOn(s0, m3, Move(Deliver(StreamEndedEvent), []));
    RunOn(s0, m4, Move(DoTick, []));
    RunOn(s0, m5, Move(DoRecoverNative, [YES]));
    RunOn(s0, m6, Move(DoRecoverFinish, []));
    StreamEnds(Run(s0, m3), id, u, clock);
    TickRecovers(Run(s0, m4), id, u, clock);
    RecoveryRestarts(Run(s0, m5), id, u, clock);
    RecoveryFrees(Run(s0, m6), id, u, clock);
  }

  lemma StreamEnds(s: State, id: OpId, u: UserId, clock: nat)
    requires Abandoned(s, id, u, clock)
    ensures var t := Do(s, Move(Deliver(StreamEndedEvent), []));
      HolderLeft(t, id, u, clock) && t.proc == FRESH_PROC.(started := true, nativeLost := true)
  {
    hide Save;
  }

  /** A drain whose shutdown fails has marked the holder, and does not write the journal. */
  lemma DrainFails(s: State, id: OpId, u: UserId, clock: nat, snapshot: SnapshotId)
    requires Abandoned(s, id, u, clock)
    ensures var b := Do(s, Move(DoBegin(snapshot), []));
      var t := Do(b, Move(DoDrainRound(snapshot, clock), [YES.(ok := false)]));
      !t.env.dead && t.ops.at[id].reconcile && t.disk == s.disk && t.env.made == {u} && Accountable(t, u)
  {
    hide Save, Turn;
    var q := Do(s, Move(DoBegin(snapshot), [])).(env := s.env.(tape := [YES.(ok := false)]));
    assert !LoginActive(q);
    var t := SettleHolder(q);
    QuietTurn(Popped(t.(proc := t.proc.(started := false))), YES.(ok := false));
    assert u !in t.ops.at[id].preexisting;
  }

  /** The journal is behind: memory has the holder marked, the journal has not. */
  lemma UnwrittenIsLost(clock: nat, id: OpId, u: UserId, snapshot: SnapshotId)
    ensures var s := Run(Init(DEFAULTS, clock, {}), AbandoningMoves(id, u) + [Move(DoBegin(snapshot), [])] +
        [Move(DoDrainRound(snapshot, clock), [YES.(ok := false)])] + [Move(Reload, [])]);
      !s.env.dead && Orphan(s, u) && s.env.slipped
  {
    hide Do, Save, Orphan;
    var s0 := Init(DEFAULTS, clock, {});
    var m3 := AbandoningMoves(id, u);
    var m4 := m3 + [Move(DoBegin(snapshot), [])];
    var m5 := m4 + [Move(DoDrainRound(snapshot, clock), [YES.(ok := false)])];
    AbandonedRun(clock, id, u);
    RunOn(s0, m3, Move(DoBegin(snapshot), []));
    RunOn(s0, m4, Move(DoDrainRound(snapshot, clock), [YES.(ok := false)]));
    RunOn(s0, m5, Move(Reload, []));
    var s3 := Run(s0, m3);
    DrainFails(s3, id, u, clock, snapshot);
    AbandonedJournal(s3, id, u, clock);
    ReloadLost(Run(s0, m5), u);
  }

  // ---- an inherited clean-up ----------------------------------------------------------------------

  /** Attempt a created u and is connected; b is signed in as u too, and is checked. */
  predicate Shared(s: State, a: OpId, b: OpId, u: UserId, c: nat) {
    && Up(s) && s.slot == Some(b) && s.links == map[] && s.pending == EmptyDict() && a != b && s.env.users == {u} && s.env.made == {u}
    && s.ops == Dict([a, b], map[
         a := NewOperation(a, EMAIL, c, {}).(userId := Some(u), createdByAttempt := true, state := Connected),
         b := NewOperation(b, EMAIL, c, {u}).(userId := Some(u), state := Checking)])
  }

  function SharingMoves(a: OpId, b: OpId, u: UserId): seq<Move> {
    [Move(DoStart(a, EMAIL, PASSWORD), [YES, YES, YES]), Move(World(Creates(u)), []), Move(Deliver(Reported(true, u)), [Shows(u)])]
    + [Move(DoStart(b, EMAIL, PASSWORD), [YES, YES])] + [Move(Deliver(Reported(false, u)), [])]
  }

  lemma SharedRun(clock: nat, a: OpId, b: OpId, u: UserId)
    requires a != b
    ensures Shared(Run(Init(DEFAULTS, clock, {}), SharingMoves(a, b, u)), a, b, u, clock)
  {
    hide Do, Save;
    var s0 := Init(DEFAULTS, clock, {});
    var m := SharingMoves(a, b, u);
    var m3 := [m[0], m[1], m[2]];
    assert m == m3 + [m[3]] + [m[4]];
    ThreeMoves(s0, m[0], m[1], m[2]);
    RunOn(s0, m3, m[3]);
    RunOn(s0, m3 + [m[3]], m[4]);
    FirstStart(clock, {}, a);
    var s1 := Do(s0, m[0]);
    Born1(s1, u);
    var s2 := Do(s1, m[1]);
    Connects(s2, a, u, true);
    var s3 := Do(s2, m[2]);
    Starts(s3, b);
    var s4 := Do(s3, m[3]);
    StaysChecking(s4, b, u);
  }

  /** Attempt a is cancelled: b inherits the clean-up of u, which was there before b. */
  lemma HandsOver(s: State, a: OpId, b: OpId, u: UserId, c: nat)
    requires Shared(s, a, b, u, c)
    ensures var t := Do(s, Move(DoCancel(a), []));
      !t.env.dead && t.env.made == {u} && t.ops.at[b].createdByAttempt && Accountable(t, u) && !JournalCovers(t.disk, u)
  {
    hide Save, DropAttemptUser, Written, JournalCovers, Counted, StopAttempt;
    var q := s.(env := s.env.(tape := []));
    var e := End(q, a, Cancelled, None);
    DropHandsOver(e, a, b, u);
    var d := DropAttemptUser(e, a);
    OwnedCounts(d, b, u);
    SavedParts(d);
    WrittenMore(d.ops.at[a]);
    WrittenMore(d.ops.at[b]);
    EndedAndChecked(Save(d), a, b, u);
  }

  lemma DropHandsOver(e: State, a: OpId, b: OpId, u: UserId)
    requires a != b && e.ops.at.Keys == {a, b} && e.links == map[] && e.ops.at[a].createdByAttempt && e.ops.at[a].userId == Some(u)
    requires Heir(e.ops.at[b], u)
    ensures var d := DropAttemptUser(e, a);
      && d == e.(ops := d.ops) && d.ops.at.Keys == {a, b} && d.ops.at[b] == e.ops.at[b].(createdByAttempt := true)
      && d.ops.at[a] == e.ops.at[a]
  {
    hide BeginRemoval;
    assert b in e.ops.at && HasHeir(e, u, Some(a));
  }

  lemma OwnedCounts(s: State, id: OpId, u: UserId)
    requires id in s.ops.at && Heir(s.ops.at[id], u) && s.ops.at[id].createdByAttempt
    ensures Accountable(s, u)
  {
  }

  lemma WrittenMore(o: Operation)
    ensures var w := Written(o); w == o.(createdAt := 0, endedAt := None, splitRequested := false)
  {
  }

  lemma EndedAndChecked(j: Journal, a: OpId, b: OpId, u: UserId)
    requires j.links == map[] && j.reasons.Keys == {} && j.ops.at.Keys == {a, b}
    requires Ended(j.ops.at[a].state) && !j.ops.at[a].reconcile && j.ops.at[b].state.Checking? && u in j.ops.at[b].preexisting
    ensures !JournalCovers(j, u)
  {
    assert u !in j.reasons.Keys;
    assert forall o :: o in j.ops.at ==> o in j.ops.at.Keys;
  }

  /** A worker restart under a checking attempt that inherited the clean-up of a user of its own start snapshot:
      the next worker marks the attempt, and its reconciliation leaves that user alone. */
  lemma InheritedIsLost(clock: nat, a: OpId, b: OpId, u: UserId)
    requires a != b
    ensures var s := Run(Init(DEFAULTS, clock, {}), SharingMoves(a, b, u) + [Move(DoCancel(a), [])] + [Move(Reload, [])]);
      !s.env.dead && Orphan(s, u) && s.env.slipped
  {
    hide Do, Save, Orphan;
    var s0 := Init(DEFAULTS, clock, {});
    var m5 := SharingMoves(a, b, u);
    var m6 := m5 + [Move(DoCancel(a), [])];
    SharedRun(clock, a, b, u);
    RunOn(s0, m5, Move(DoCancel(a), []));
    RunOn(s0, m6, Move(Reload, []));
    HandsOver(Run(s0, m5), a, b, u, clock);
    ReloadLost(Run(s0, m6), u);
  }

  // ---- a linked user that Bridge was asked to remove ----------------------------------------------

  /** The worker dies after Bridge was asked to remove u, and before the journal is written. */
  lemma CrashedUnlink(s: State, a: OpId, u: UserId, g: Generation, clock: nat)
    requires LinkedOnce(s, a, u, g, clock)
    ensures var t := Do(s, Move(DoRemove(u, g, EMAIL), [YES.(crash := InCall)]));
      t.env.dead && t.disk == s.disk && u in t.env.asked && t.env.users == {u}
  {
    hide Save, Held, Linked, Accountable;
    SafeInput();
    var q := s.(env := s.env.(tape := [YES.(crash := InCall)]));
    assert q.links - {LinkKey(u, Lower(EMAIL))} == map[];
    var cut := q.(links := map[]);
    assert !HasHeir(cut, u, None);
    assert {u} - ({} * (s.env.asked + {u})) + {} == {u};
  }

  /** After such a crash the next worker has the link of a user that is on its way out. */
  lemma LinkedIsAsked(clock: nat, a: OpId, u: UserId, g: Generation)
    ensures var s := Run(Init(DEFAULTS, clock, {u}), LinkingMoves(a, u, g) + [Move(DoRemove(u, g, EMAIL), [YES.(crash := InCall)])] +
        [Move(Reload, [])]);
      !s.env.dead && s.links == TheLink(u, g) && Linked(s, u) && u in s.env.asked && s.pending == EmptyDict()
  {
    hide Do, Save, Loses;
    var s0 := Init(DEFAULTS, clock, {u});
    var m3 := LinkingMoves(a, u, g);
    var m4 := m3 + [Move(DoRemove(u, g, EMAIL), [YES.(crash := InCall)])];
    LinkedRun(clock, a, u, g);
    RunOn(s0, m3, Move(DoRemove(u, g, EMAIL), [YES.(crash := InCall)]));
    RunOn(s0, m4, Move(Reload, []));
    var s3 := Run(s0, m3);
    CrashedUnlink(s3, a, u, g, clock);
    var s4 := Run(s0, m4);
    ReadsLinks(s3, s4);
    assert LinkKey(u, Lower(EMAIL)) in TheLink(u, g);
  }

  lemma ReadsLinks(s: State, t: State)
    requires s.disk == Save(s) && t.disk == s.disk && s.pending == EmptyDict()
    ensures var r := Do(t, Move(Reload, [])); !r.env.dead && r.links == s.links && r.pending == EmptyDict() && r.env.asked == t.env.asked
  {
    hide Save, Loaded, Loses;
    SavedParts(s);
    assert s.pending.at.Keys == {};
    LoadedParts(t.cfg, t.disk, t.env.(tape := [], running := false, login := Idle, dead := false));
  }
}
