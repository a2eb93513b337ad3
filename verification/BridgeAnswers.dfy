/** What the answers of the controller's RPCs mean: when a call is accepted, and what is so afterwards in memory and
    in the journal. */
module BridgeAnswers {
  import opened Wrappers
  import opened Dicts
  import opened BridgeTypes
  import opened BridgeSpec
  import opened BridgeMachine
  import opened BridgeShape
  import opened BridgeInvariant
  import opened BridgeSections
  import opened BridgeFrames
  import opened BridgePromises
  import opened BridgeUsers

  /** The state a move starts from, with the answers Bridge is going to give. */
  function With(s: State, m: Move): State {
    s.(env := s.env.(tape := m.tape))
  }

  lemma WithKeeps(s: State, m: Move)
    requires Inv(s)
    ensures Inv(With(s, m))
  {
    TapeKeeps(s, m.tape);
  }

  // ---- commit -------------------------------------------------------------------------------------

  /** A commit is accepted exactly for a signed-in attempt of the user, with the gate open or the attempt waiting
      for it within its lifetime, a user not about to go, and a link that is new, of this generation or of the
      one the commit replaces. The link is then the attempt's, with the named generation, and the attempt is
      committed, in memory and journal; no other link or attempt changes. A refused commit changes nothing. */
  lemma CommitAnswers(s: State, m: Move)
    requires Inv(s) && !s.env.dead && m.step.DoCommit?
    ensures var (t, reply) := CommitConnection(With(s, m), m.step.id, m.step.user, m.step.generation, m.step.previous);
      var id, u := m.step.id, m.step.user;
      && Do(s, m) == t
      && (reply == Accepted <==>
            && id in s.ops.at && s.ops.at[id].state.Connected? && s.ops.at[id].userId == Some(u) && u !in s.pending.at
            && (s.gate.snapshot.None? || (!s.ops.at[id].committed && s.env.clock < s.ops.at[id].createdAt + s.cfg.ttl))
            && forall k :: k in s.links && k == LinkKey(u, Lower(s.ops.at[id].email)) ==>
                 s.links[k].generation == m.step.generation || m.step.previous == Some(s.links[k].generation))
      && (reply == Accepted ==>
            && t.links == s.links[LinkKey(u, Lower(s.ops.at[id].email)) := Link(u, s.ops.at[id].email, m.step.generation)]
            && t.ops.at.Keys == s.ops.at.Keys && t.ops.at[id].committed && (forall o :: o in s.ops.at && o != id ==> t.ops.at[o] == s.ops.at[o])
            && t.disk.links == t.links && id in t.disk.ops.at && t.disk.ops.at[id].committed)
      && (reply != Accepted ==> t == With(s, m) && reply.Refused?)
  {
    hide Inv, Lower, Save;
    WithKeeps(s, m);
    CommitKeeps(With(s, m), m.step.id, m.step.user, m.step.generation, m.step.previous);
    CommitSurvives(s, m);
    JournalInStep(Do(s, m));
  }

  // ---- removal ------------------------------------------------------------------------------------

  /** The removal names the generation of a link. */
  predicate Names(s: State, step: Step)
    requires step.DoRemove?
  {
    var key := LinkKey(step.user, Lower(step.email));
    key in s.links && s.links[key].generation == step.generation
  }

  /** What a removal leaves of the links: an answer other than a refusal means that the link it names is gone and no
      other; a refusal leaves all. */
  ghost predicate Cut(s: State, step: Step, t: State, reply: Reply)
    requires step.DoRemove?
  {
    var key := LinkKey(step.user, Lower(step.email));
    && (reply.Refused? || reply == Unlinked || reply == Removing || reply == Removed)
    && t.links == (if reply.Refused? then s.links else s.links - {key})
    && (!reply.Refused? && key in s.links ==> Names(s, step) && s.gate.snapshot.None?)
  }

  /** What it leaves of the user: unlinked means that another link or an attempt keeps it, which the attempt then has
      to clean up; removing, that it waits to go, in the journal too; removed, that there was nothing to do. */
  ghost predicate Settles(s: State, step: Step, t: State, reply: Reply)
    requires step.DoRemove?
  {
    var u, key := step.user, LinkKey(step.user, Lower(step.email));
    && (reply == Unlinked ==>
          HasLink(t.links, u) || exists o :: o in t.ops.at && Heir(t.ops.at[o], u) && t.ops.at[o].createdByAttempt)
    && (reply == Removing ==> u in t.pending.at && !HasLink(t.links, u) && (key in s.links && !t.env.dead ==> u in t.disk.reasons))
    && (reply == Removed ==> key !in s.links && u !in s.pending.at && t == s)
  }

  /** An accepted removal cuts the link it names, from the journal too as long as the worker lives, and its answer
      says what keeps the user or that it goes. */
  lemma RemoveAnswers(s: State, m: Move)
    requires Inv(s) && !s.env.dead && m.step.DoRemove?
    ensures var (t, reply) := RemoveUser(With(s, m), m.step.user, m.step.generation, m.step.email);
      && Do(s, m) == t && Cut(s, m.step, t, reply) && Settles(With(s, m), m.step, t, reply)
      && (!t.env.dead ==> t.disk.links == t.links)
  {
    hide Inv, Cut, Settles, RemoveUser;
    WithKeeps(s, m);
    ApplyRemove(s, m);
    var q := With(s, m);
    RemoveKeeps(q, m.step.user, m.step.generation, m.step.email);
    if !Do(s, m).env.dead {
      JournalInStep(Do(s, m));
    }
    RemoveCuts(q, m.step);
    SameCut(s, q, m.step, Do(s, m), RemoveUser(q, m.step.user, m.step.generation, m.step.email).1);
  }

  lemma SameCut(s: State, q: State, step: Step, t: State, reply: Reply)
    requires step.DoRemove? && q.links == s.links && q.gate == s.gate && Cut(q, step, t, reply)
    ensures Cut(s, step, t, reply)
  {
    hide Lower;
  }

  lemma RemoveCuts(s: State, step: Step)
    requires Inv(s) && step.DoRemove?
    ensures var (t, reply) := RemoveUser(s, step.user, step.generation, step.email);
      Cut(s, step, t, reply) && Settles(s, step, t, reply)
  {
    hide Inv, EnsureStarted, BeginRemoval, Lower, SafeEmail, Save, HandOver, HasLink, HasHeir;
    var u, key := step.user, LinkKey(step.user, Lower(step.email));
    PendingUnlinked(s);
    if SafeEmail(step.email) && Admitted(s, None) && Names(s, step) {
      if exists k | k in s.links :: k.user == u && k != key {
        OthersLink(s.links, key);
      } else {
        EnsureLinks(s);
        var e := EnsureStarted(s).0;
        LastLink(s.links, key);
        LastCuts(e.(links := e.links - {key}), u);
      }
    }
  }

  lemma OthersLink(links: map<LinkKey, Link>, key: LinkKey)
    requires exists k | k in links :: k.user == key.user && k != key
    ensures HasLink(links - {key}, key.user)
  {
    var k :| k in links && k.user == key.user && k != key;
    assert k in links - {key};
  }

  lemma LastLink(links: map<LinkKey, Link>, key: LinkKey)
    requires !exists k | k in links :: k.user == key.user && k != key
    ensures !HasLink(links - {key}, key.user)
  {
  }

  /** After the last link of u is cut. */
  lemma LastCuts(cut: State, u: UserId)
    ensures var h := HandOver(cut, u, None);
      h.links == cut.links && (HasHeir(cut, u, None) ==> exists o :: o in h.ops.at && Heir(h.ops.at[o], u) && h.ops.at[o].createdByAttempt)
    ensures var r := BeginRemoval(cut, u, Unlink);
      r.links == cut.links && u in r.pending.at && (!r.env.dead ==> u in Persist(r).disk.reasons)
    ensures u in cut.pending.at && !cut.env.dead ==> u in Persist(cut).disk.reasons
    ensures Persist(HandOver(cut, u, None)).ops == HandOver(cut, u, None).ops
  {
    hide BeginRemoval, Save;
    HandedHeir(cut, u);
    BeginRemovalEntry(cut, u, Unlink);
    ReasonsSaved(cut);
    ReasonsSaved(BeginRemoval(cut, u, Unlink));
  }

  lemma ReasonsSaved(s: State)
    ensures Save(s).reasons.Keys == s.pending.at.Keys
  {
  }

  lemma HandedHeir(s: State, u: UserId)
    ensures var t := HandOver(s, u, None);
      HasHeir(s, u, None) ==> exists o :: o in t.ops.at && Heir(t.ops.at[o], u) && t.ops.at[o].createdByAttempt
  {
    if o :| o in s.ops.at && Heir(s.ops.at[o], u) {
      assert Heir(HandOver(s, u, None).ops.at[o], u);
    }
  }

  lemma PendingUnlinked(s: State)
    requires Inv(s)
    ensures forall u :: u in s.pending.at ==> !HasLink(s.links, u)
  {
    hide OpsOk, SlotOk, LoginOk, ProcOk, LeasesOk, SealOk, JournalOk, DiskOk, LinksOk, CallsOk, HasLink;
  }

  lemma EnsureLinks(s: State)
    requires Inv(s)
    ensures EnsureStarted(s).0.links == s.links && EnsureStarted(s).0.gate == s.gate
  {
    hide CoreAt, DiskOk, EnsureStarted, OpsFlow, EnvMoves, RemovalsMove;
    EnsureStartedKeeps(s, s.env.clock);
  }

  /** A removal that names a link is not refused, with the gate open and Bridge alive or another link left. */
  lemma RemoveAccepts(s: State, m: Move)
    requires m.step.DoRemove? && SafeEmail(m.step.email) && s.gate.snapshot.None? && Names(s, m.step)
    requires Alive(s) || exists k :: k in s.links && k.user == m.step.user && k != LinkKey(m.step.user, Lower(m.step.email))
    ensures !RemoveUser(With(s, m), m.step.user, m.step.generation, m.step.email).1.Refused?
  {
    hide BeginRemoval, Lower, SafeEmail, Save, Handed;
  }

  // ---- leases -------------------------------------------------------------------------------------

  /** A lease is granted exactly if it was not cancelled and is held already, or the gate is open and the worker not
      shut down; it is held afterwards exactly if it is granted. No other lease changes hands. */
  lemma AcquireAnswers(s: State, m: Move)
    requires Inv(s) && !s.env.dead && m.step.DoAcquire?
    ensures var (t, reply) := AcquireLease(With(s, m), m.step.lease); var l := m.step.lease;
      && Do(s, m) == t && t == With(s, m).(gate := t.gate)
      && (reply == Accepted <==> l !in s.gate.cancelled && (l in s.gate.leases || (s.gate.snapshot.None? && !s.proc.closed)))
      && (l in t.gate.leases <==> reply == Accepted)
      && (forall x :: x != l ==> (x in t.gate.leases <==> x in s.gate.leases) && (x in t.gate.cancelled <==> x in s.gate.cancelled))
      && l !in t.gate.cancelled
      && t.gate.snapshot == s.gate.snapshot && t.gate.expiresAt == s.gate.expiresAt
  {
    hide DiskOk, Base, SlotOk, LoginOk, ProcOk, SealOk;
  }

  /** A release answers whether the lease was held; afterwards it is not, and one that was not is remembered. */
  lemma ReleaseAnswers(s: State, m: Move)
    requires !s.env.dead && m.step.DoRelease?
    ensures var (t, reply) := ReleaseLease(With(s, m), m.step.lease); var l := m.step.lease;
      && Do(s, m) == t && t == With(s, m).(gate := t.gate) && reply == Released(l in s.gate.leases)
      && t.gate.leases == s.gate.leases - {l}
      && (l in s.gate.leases ==> t.gate.cancelled == s.gate.cancelled)
      && (l !in s.gate.leases && l !in s.gate.cancelled ==> t.gate.cancelled != [] && t.gate.cancelled[|t.gate.cancelled| - 1] == l)
      && t.gate.snapshot == s.gate.snapshot && t.gate.expiresAt == s.gate.expiresAt
  {
  }

  // ---- the gate -----------------------------------------------------------------------------------

  /** A begin closes an open gate and waits, is answered at once for the gate's own snapshot or in place of one whose
      time has passed, and is refused otherwise, without effect. */
  lemma BeginAnswers(s: State, m: Move)
    requires !s.env.dead && m.step.DoBegin?
    ensures var (t, reply) := SnapshotBegin(With(s, m), m.step.snapshot); var g := s.gate;
      && Do(s, m) == t && t == With(s, m).(gate := t.gate) && t.gate.leases == g.leases && t.gate.cancelled == g.cancelled
      && (reply == Draining <==> g.snapshot.None? && !s.proc.closed)
      && (reply == Accepted <==> g.snapshot.Some? && (g.snapshot.value == m.step.snapshot || g.expiresAt <= s.env.clock))
      && (if reply.Refused? then t == With(s, m) else t.gate.snapshot == Some(m.step.snapshot))
  {
  }

  /** A renewal is accepted exactly from the gate's own snapshot; a refused one changes nothing. */
  lemma RenewAnswers(s: State, m: Move)
    requires !s.env.dead && m.step.DoRenew?
    ensures var (t, reply) := SnapshotRenew(With(s, m), m.step.snapshot);
      && Do(s, m) == t && (reply == Accepted <==> s.gate.snapshot == Some(m.step.snapshot))
      && (reply != Accepted ==> reply == Refused(OperationConflict) && t == With(s, m))
  {
  }

  // ---- sign-in ------------------------------------------------------------------------------------

  /** A start of a known attempt changes nothing; a new one is refused without an attempt, or is then known, with
      the address asked for, as the slot's holder: authenticating, or failed if Bridge did not take the sign-in.
      Its journal entry has the users Bridge listed before. */
  lemma StartAnswers(s: State, m: Move)
    requires Inv(s) && !s.env.dead && m.step.DoStart?
    ensures var (t, reply) := StartConnection(With(s, m), m.step.id, m.step.email, m.step.password); var id := m.step.id;
      && Do(s, m) == t
      && (id in s.ops.at ==> t == With(s, m) && (reply == Accepted ==> Lower(s.ops.at[id].email) == Lower(m.step.email)))
      && (Busy(s) || s.proc.closed || !SafeEmail(m.step.email) || m.step.password == "" ==>
            t == With(s, m) && (id !in s.ops.at ==> reply.Refused?))
      && (id !in s.ops.at && reply.Refused? ==> id !in t.ops.at)
      && (id !in s.ops.at && reply == Accepted ==>
            && id in t.ops.at && t.slot == Some(id) && t.ops.at[id].email == m.step.email && t.ops.at[id].userId.None?
            && (t.ops.at[id].state.Authenticating? || (t.ops.at[id].state.Failed? && t.ops.at[id].errorCode == Some(Unavailable))))
  {
    hide Inv, EnsureStarted, ListUsers, SignIn, Busy, Lower, SafeEmail;
    WithKeeps(s, m);
    ApplyStart(s, m);
    var q := With(s, m);
    assert Busy(q) == Busy(s) by { BusyAnyTape(s, m.tape); }
    if m.step.id !in s.ops.at {
      StartEnters(q, m.step.id, m.step.email, m.step.password);
    }
  }

  lemma BusyAnyTape(s: State, tape: seq<Answer>)
    ensures Busy(s.(env := s.env.(tape := tape))) == Busy(s)
  {
  }

  lemma StartEnters(s: State, id: OpId, email: Email, password: string)
    requires Inv(s) && id !in s.ops.at
    ensures var (t, reply) := StartConnection(s, id, email, password);
      && (reply.Refused? ==> id !in t.ops.at) && (reply == Accepted || reply.Refused?)
      && (reply == Accepted ==>
            && id in t.ops.at && t.slot == Some(id) && t.ops.at[id].email == email && t.ops.at[id].userId.None?
            && (t.ops.at[id].state.Authenticating? || (t.ops.at[id].state.Failed? && t.ops.at[id].errorCode == Some(Unavailable))))
  {
    hide Inv, EnsureStarted, ListUsers, SignIn, Busy, Lower, SafeEmail, CoreAt, Flow;
    EnsureNames(s);
    var t := EnsureStarted(s).0;
    ListFrame(t);
    var (l, users) := ListUsers(t);
    if users.Some? {
      SignInIs(l, id, email, users.value);
    }
  }

  lemma EnsureNames(s: State)
    requires Inv(s)
    ensures EnsureStarted(s).0.ops.at.Keys == s.ops.at.Keys
  {
    hide EnsureStarted, CoreAt, DiskOk, Flow;
    EnsureStartedKeeps(s, s.env.clock);
    FlowKeys(s, EnsureStarted(s).0);
  }

  lemma SignInIs(s: State, id: OpId, email: Email, preexisting: set<UserId>)
    ensures var t := SignIn(s, id, email, preexisting);
      && id in t.ops.at && t.slot == Some(id) && t.ops.at[id].email == email && t.ops.at[id].userId.None?
      && t.ops.at[id].preexisting == preexisting
      && (t.ops.at[id].state.Authenticating? || (t.ops.at[id].state.Failed? && t.ops.at[id].errorCode == Some(Unavailable)))
  {
    hide NativeCall, BusyElsewhere, Save;
    var p := Persist(s.(ops := s.ops.Put(id, NewOperation(id, email, s.env.clock, preexisting)), slot := Some(id)));
    CallFrame(LoginLogged(p, id));
  }

  /** What a new sign-in needs: a free slot, the gate open, no recovery, no attempt marked for reconciliation, and no
      removal of an attempt's user that is not stuck. */
  lemma StartNeeds(s: State, m: Move)
    requires Inv(s) && !s.env.dead && m.step.DoStart? && m.step.id !in s.ops.at
    requires StartConnection(With(s, m), m.step.id, m.step.email, m.step.password).1 == Accepted
    ensures s.slot.None? && s.gate.snapshot.None? && !s.proc.recovering && !s.proc.closed
    ensures forall id :: id in s.ops.at ==> !s.ops.at[id].reconcile && !Active(s.ops.at[id].state)
    ensures forall u :: u in s.pending.at ==> s.pending.at[u].reason.Unlink? || s.pending.at[u].stuck
  {
    hide Inv, EnsureStarted, ListUsers, SignIn, Lower, SafeEmail, BusyElsewhere;
    BusyAnyTape(s, m.tape);
    assert !Busy(s);
    FreeMeans(s);
  }

  lemma FreeMeans(s: State)
    requires Inv(s) && !Busy(s)
    ensures s.slot.None? && s.gate.snapshot.None? && !s.proc.recovering
    ensures forall id :: id in s.ops.at ==> !s.ops.at[id].reconcile && !Active(s.ops.at[id].state)
    ensures forall u :: u in s.pending.at ==> s.pending.at[u].reason.Unlink? || s.pending.at[u].stuck
  {
    hide Base, LoginOk, ProcOk, LeasesOk, SealOk, DiskOk, JournalOk;
  }

  /** Bridge answers the first n calls, and nobody dies. */
  predicate Obliging(tape: seq<Answer>, n: nat) {
    |tape| >= n && forall i | 0 <= i < n :: tape[i].ok && !tape[i].dies && tape[i].crash.Survives?
  }

  /** With the slot free and a Bridge that answers, a new sign-in is accepted and under way: Bridge is at it, the
      attempt is journaled as active, with the users Bridge had. */
  lemma StartGoesOn(s: State, m: Move)
    requires Inv(s) && !s.env.dead && m.step.DoStart? && SafeEmail(m.step.email) && m.step.password != "" && !s.proc.closed
    requires m.step.id !in s.ops.at && !Busy(s) && Alive(s) && Obliging(m.tape, 2)
    ensures var (t, reply) := StartConnection(With(s, m), m.step.id, m.step.email, m.step.password); var id := m.step.id;
      && Do(s, m) == t && reply == Accepted && id in t.ops.at && t.ops.at[id].state.Authenticating? && t.env.login.Running?
      && id in t.disk.ops.at && Active(t.disk.ops.at[id].state)
      && t.ops.at[id].preexisting == s.env.users - (m.tape[0].gone * s.env.asked)
  {
    hide Inv, ListUsers, SignIn, Busy, SafeEmail, Lower;
    WithKeeps(s, m);
    ApplyStart(s, m);
    var q := With(s, m);
    BusyAnyTape(s, m.tape);
    FreeIsIdle(q);
    ListAnswers(q);
    var l := ListUsers(q).0;
    SignInRuns(l, m.step.id, m.step.email, l.env.users);
  }

  /** Without a holder no sign-in runs in Bridge. */
  lemma FreeIsIdle(s: State)
    requires Inv(s) && !Busy(s)
    ensures s.env.login.Idle?
  {
    hide Base, SlotOk, ProcOk, LeasesOk, SealOk, DiskOk, JournalOk, BusyElsewhere;
  }

  lemma ListAnswers(s: State)
    requires s.env.running && !s.env.dead && s.env.login.Idle? && Obliging(s.env.tape, 1)
    ensures var (l, users) := ListUsers(s);
      && l == s.(env := l.env) && users == Some(l.env.users) && l.env.running && !l.env.dead && l.env.tape == s.env.tape[1..]
      && l.env.users == s.env.users - (s.env.tape[0].gone * s.env.asked) && l.env.login.Idle?
  {
    hide Accountable;
  }

  lemma SignInRuns(s: State, id: OpId, email: Email, preexisting: set<UserId>)
    requires s.env.running && !s.env.dead && s.env.login.Idle? && Obliging(s.env.tape, 1)
    ensures var t := SignIn(s, id, email, preexisting);
      && id in t.ops.at && t.ops.at[id].state.Authenticating? && t.ops.at[id].preexisting == preexisting && t.env.login.Running?
      && id in t.disk.ops.at && Active(t.disk.ops.at[id].state)
  {
    hide BusyElsewhere, Accountable;
    var p := s.(ops := s.ops.Put(id, NewOperation(id, email, s.env.clock, preexisting)), slot := Some(id));
    SavedOp(p, id);
    CallFrame(LoginLogged(Persist(p), id));
  }

  lemma SavedOp(s: State, id: OpId)
    requires id in s.ops.at
    ensures id in Save(s).ops.at && Save(s).ops.at[id].state == s.ops.at[id].state
  {
    assert Save(s).ops.at[id] == Written(s.ops.at[id]);
  }

  /** An answer to a challenge is taken exactly from the slot's holder while it waits for that challenge; the attempt
      then goes on, or has failed if Bridge did not take it. Anything else changes nothing. */
  lemma ContinueAnswers(s: State, m: Move)
    requires !s.env.dead && m.step.DoContinue?
    ensures var (t, reply) := ContinueConnection(With(s, m), m.step.id, m.step.challenge, m.step.secret); var id := m.step.id;
      && Do(s, m) == t
      && (reply == Accepted <==>
            id in s.ops.at && s.slot == Some(id) && m.step.secret != "" &&
            s.ops.at[id].state == if m.step.challenge.TwoFactor? then Needs2fa else NeedsSecondPassword)
      && (reply != Accepted ==> t == With(s, m) && reply == if id in s.ops.at then Refused(InvalidChallenge) else Refused(NotFound))
      && (reply == Accepted ==>
            && t == With(s, m).(ops := t.ops, env := t.env, disk := t.disk) && t.ops.at.Keys == s.ops.at.Keys
            && (forall o :: o in s.ops.at && o != id ==> t.ops.at[o] == s.ops.at[o])
            && if t.ops.at[id].state.Authenticating? then t.ops.at[id] == s.ops.at[id].(state := Authenticating, errorCode := None)
               else t.ops.at[id] == s.ops.at[id].(state := Failed, errorCode := Some(Unavailable), endedAt := Some(t.env.clock)))
      && (reply == Accepted && s.env.running && Obliging(m.tape, 1) ==> t.ops.at[id].state.Authenticating?)
  {
    hide Save, Accountable;
    var q := With(s, m);
    var id := m.step.id;
    if id in s.ops.at {
      var p := Persist(SetOp(q, id, q.ops.at[id].(state := Authenticating, errorCode := None)));
      CallFrame(p);
    }
  }

  /** A cancel is accepted for every known attempt: afterwards it is not active and not signed in without a commit;
      such an attempt is cancelled, any other stays as it is. */
  lemma CancelAnswers(s: State, m: Move)
    requires Inv(s) && !s.env.dead && m.step.DoCancel?
    ensures var (t, reply) := CancelConnection(With(s, m), m.step.id); var id := m.step.id;
      && Do(s, m) == t && reply == (if id in s.ops.at then Accepted else Refused(NotFound))
      && (id !in s.ops.at ==> t == With(s, m))
      && (id in s.ops.at ==>
            var op := s.ops.at[id]; var live := Active(op.state) || (op.state.Connected? && !op.committed);
            && id in t.ops.at && (live ==> t.ops.at[id].state.Cancelled? && t.ops.at[id].userId == op.userId)
            && (!live ==> t.ops == s.ops && t.pending == s.pending)
            && (s.slot == Some(id) && Active(op.state) ==> if op.state.Checking? then t.slot.None? else t.slot == Some(id)))
  {
    hide Inv, Save, DropAttemptUser, NativeCall;
    var q := With(s, m);
    var id := m.step.id;
    if id in s.ops.at {
      var e := End(q, id, Cancelled, None);
      CallFrame(e);
      DropKeepsOwn(e, id);
    }
  }

  lemma DropKeepsOwn(s: State, id: OpId)
    requires id in s.ops.at
    ensures var t := DropAttemptUser(s, id); id in t.ops.at && t.ops.at[id] == s.ops.at[id] && t.slot == s.slot
  {
    hide BeginRemoval, Linked, Heir, HasHeir;
    var op := s.ops.at[id];
    if op.userId.Some? {
      BeginRemovalEntry(s, op.userId.value, Attempt);
    }
  }

  // ---- credentials --------------------------------------------------------------------------------

  /** t has used up answers of s and got no new ones. */
  ghost predicate UsesUp(s: State, t: State) {
    forall a :: a in t.env.tape ==> a in s.env.tape
  }

  lemma BeginUses(s: State, v: UserId, reason: Reason)
    ensures UsesUp(s, BeginRemoval(s, v, reason))
  {
    hide NativeCall, Linked, Held;
    var item := if v in s.pending.at
                then s.pending.at[v].(since := s.env.clock, reason := if reason.Unlink? then Unlink else s.pending.at[v].reason)
                else Removal(reason, s.env.clock, 0, false);
    CallTape(RemoveLogged(s.(pending := s.pending.Put(v, item)), v, v !in s.pending.at));
  }

  lemma {:induction false} BeginsUse(s: State, us: seq<UserId>)
    ensures UsesUp(s, BeginRemovals(s, us))
    decreases us
  {
    hide BeginRemoval;
    if us != [] {
      BeginUses(s, us[0], Attempt);
      BeginsUse(BeginRemoval(s, us[0], Attempt), us[1..]);
    }
  }

  lemma RetryUses(s: State, v: UserId)
    ensures UsesUp(s, RetryRemoval(s, v))
  {
    hide BeginRemoval, ListUsers;
    CallTape(s);
    ListFrame(s);
    var (t, users) := ListUsers(s);
    if v in s.pending.at && users.Some? && v in users.value {
      BeginUses(t, v, t.pending.at[v].reason);
    }
  }

  lemma {:induction false} RetriesUse(s: State, us: seq<UserId>)
    ensures UsesUp(s, RetryRemovals(s, us))
    decreases us
  {
    hide RetryRemoval;
    if us != [] {
      RetryUses(s, us[0]);
      RetriesUse(RetryRemoval(s, us[0]), us[1..]);
    }
  }

  lemma OrphansUse(s: State, id: OpId)
    requires id in s.ops.at
    ensures UsesUp(s, ReconcileOrphans(s, id).0)
  {
    hide BeginRemovals, ListUsers, Known, Loses;
    CallTape(s);
    ListFrame(s);
    var (t, users) := ListUsers(s);
    if users.Some? {
      var orphans := set u | u in users.value && !Known(t, id, u);
      BeginsUse(t, Sorted(orphans));
    }
  }

  lemma {:induction false} FlaggedUses(s: State, ids: seq<OpId>)
    ensures UsesUp(s, ReconcileFlagged(s, ids).0)
    decreases ids
  {
    hide ReconcileOrphans;
    if ids != [] {
      if ids[0] in s.ops.at && s.ops.at[ids[0]].reconcile {
        OrphansUse(s, ids[0]);
        FlaggedUses(ReconcileOrphans(s, ids[0]).0, ids[1..]);
      } else {
        FlaggedUses(s, ids[1..]);
      }
    }
  }

  lemma RestartUses(s: State)
    ensures UsesUp(s, AfterRestart(s))
  {
    hide ReconcileFlagged, RetryRemovals, Loses;
    var reset := s.(proc := s.proc.(reconcileFailures := 0, nextReconcileAt := 0));
    FlaggedUses(reset, reset.ops.order);
    RetriesUse(ReconcileAll(reset).0, s.pending.order);
  }

  lemma EnsureUses(s: State)
    ensures UsesUp(s, EnsureStarted(s).0)
  {
    hide AfterRestart, CallRecover, CallStart;
    CallsUse(s);
    var (t, ok) := if s.proc.started then CallRecover(s) else CallStart(s);
    RestartUses(t.(proc := t.proc.(started := true, nativeLost := false)));
  }

  lemma CallsUse(s: State)
    ensures UsesUp(s, CallRecover(s).0) && UsesUp(s, CallStart(s).0)
  {
    hide Accountable;
  }

  /** The caller may have the credentials of this address: of a signed-in attempt of the user, or of a link under the
      generation it names. */
  ghost predicate Entitled(s: State, step: Step, address: Email)
    requires step.DoCredentials?
  {
    if step.attempt.Some? then
      && step.current.None? && step.attempt.value in s.ops.at
      && var op := s.ops.at[step.attempt.value];
         op.state.Connected? && op.userId == Some(step.user) && op.email == address &&
         (s.gate.snapshot.None? || (!op.committed && s.env.clock < op.createdAt + s.cfg.ttl))
    else
      && step.current.Some? && s.gate.snapshot.None? && SafeEmail(step.email)
      && var key := LinkKey(step.user, Lower(step.email));
         key in s.links && s.links[key].generation == step.current.value && s.links[key].email == address
  }

  lemma EntitledIs(s: State, step: Step)
    requires step.DoCredentials?
    ensures var (address, refused) := CredentialsOf(s, step.user, step.attempt, step.current, step.email);
      (refused.None? ==> Entitled(s, step, address)) && (forall a :: Entitled(s, step, a) ==> refused.None? && a == address)
  {
    hide Lower, SafeEmail;
  }

  /** Credentials are handed out only to a caller entitled to the address, of a user that is not about to go, and of
      whom Bridge says in this call that it owns the address, is signed in and has split mode on. */
  lemma CredentialsAnswers(s: State, m: Move)
    requires !s.env.dead && m.step.DoCredentials?
    ensures var (t, reply) := Credentials(With(s, m), m.step.user, m.step.attempt, m.step.current, m.step.email);
      && Do(s, m) == t
      && (reply == Accepted ==>
            m.step.user !in s.pending.at && exists address :: Entitled(s, m.step, address) && Confirms(m.tape, m.step.user, address))
  {
    hide EnsureStarted, CredentialsOf, GetUser, NativeCall, Owns, HasAddress, Entitled;
    var q := With(s, m);
    EntitledIs(q, m.step);
    EnsureUses(q);
    var t := EnsureStarted(q).0;
    GetUserFrame(t);
    var (address, refused) := CredentialsOf(q, m.step.user, m.step.attempt, m.step.current, m.step.email);
    assert Entitled(q, m.step, address) ==> Entitled(s, m.step, address) by { EntitledAnyTape(s, m, address); }
    if GetUser(t).1.Some? {
      assert t.env.tape[0] in m.tape;
      OwnsMeans(GetUser(t).1.value, m.step.user, address);
    }
  }

  lemma EntitledAnyTape(s: State, m: Move, address: Email)
    requires m.step.DoCredentials?
    ensures Entitled(With(s, m), m.step, address) <==> Entitled(s, m.step, address)
  {
    hide Lower, SafeEmail;
  }

  /** And they are handed out to such a caller when Bridge is alive and answers so. */
  lemma CredentialsGranted(s: State, m: Move, address: Email)
    requires !s.env.dead && m.step.DoCredentials? && Entitled(s, m.step, address) && m.step.user !in s.pending.at
    requires Alive(s) && Obliging(m.tape, 2) && !m.tape[1].mismatch
    requires m.tape[0].info.id == m.step.user && HasAddress(m.tape[0].info, address) && m.tape[0].info.connected && m.tape[0].info.split
    ensures Credentials(With(s, m), m.step.user, m.step.attempt, m.step.current, m.step.email).1 == Accepted
  {
    hide CredentialsOf, Owns, HasAddress, Entitled, Accountable;
    OwnsMeans(m.tape[0].info, m.step.user, address);
    EntitledAnyTape(s, m, address);
    EntitledIs(With(s, m), m.step);
  }

  // ---- start and shutdown of the worker -----------------------------------------------------------

  /** After a shutdown nothing is started: the worker is closed, a Bridge it had started is stopped, and from then on
      sign-ins, new leases and snapshots are refused and ticks do nothing. */
  lemma ShutdownCloses(s: State, m: Move, next: Move)
    requires !s.env.dead && m.step.DoShutdown?
    ensures var t := Do(s, m); var r := Do(t, next);
      && t.proc.closed && (s.proc.started && !s.proc.closed ==> !t.env.running && t.env.login.Idle?)
      && (next.step.DoTick? ==> r == t.(env := t.env.(tape := next.tape, lastTick := t.env.clock)))
      && (next.step.DoStart? ==> r == With(t, next))
      && (next.step.DoAcquire? && next.step.lease !in t.gate.cancelled ==> r == With(t, next))
      && (next.step.DoBegin? && t.gate.snapshot.None? ==> r == With(t, next))
  {
    hide TickOpen, OpenGate, EnsureStarted, Lower;
  }

  /** A worker that comes up with links, removals or marked attempts and gets Bridge to run has it started; one
      without leaves Bridge alone. */
  lemma BootStarts(s: State, m: Move)
    requires Inv(s) && !s.env.dead && m.step.DoBoot?
    ensures var (t, reply) := Boot(With(s, m));
      && Do(s, m) == t
      && if s.links == map[] && s.pending.at == map[] && (forall id :: id in s.ops.at ==> !s.ops.at[id].reconcile)
         then t == With(s, m) && reply == Accepted
         else if reply == Accepted then t.proc.started && !t.proc.nativeLost else reply.Refused?
  {
    hide EnsureStarted, Core, DiskOk, Save, NeedsBridge;
    WithKeeps(s, m);
    var q := With(s, m);
    NeedsMeans(s, m);
    EnsureStartedIs(q);
  }

  lemma NeedsMeans(s: State, m: Move)
    ensures NeedsBridge(With(s, m)) <==> !(s.links == map[] && s.pending.at == map[] && forall id :: id in s.ops.at ==> !s.ops.at[id].reconcile)
  {
  }

  lemma EnsureStartedIs(s: State)
    requires Inv(s)
    ensures EnsureStarted(s).1.None? ==> EnsureStarted(s).0.proc.started && !EnsureStarted(s).0.proc.nativeLost
  {
    hide AfterRestart, CallRecover, CallStart, CoreAt, DiskOk, Flow;
    if !Alive(s) && s.gate.snapshot.None? {
      RestartKeeps(s, s.env.clock);
      var (t, ok) := if s.proc.started then CallRecover(s) else CallStart(s);
      if ok {
        AfterRestartKeeps(t.(proc := t.proc.(started := true, nativeLost := false)), s.env.clock);
      }
    }
  }

  // ---- the journal --------------------------------------------------------------------------------

  /** A worker that takes over right after a journal write has every attempt back as it was, but that its times are
      now and its split request is forgotten; one that was active has failed and is marked. Links are the same, and
      so are the removals, as if they had just been asked for. */
  lemma JournalRoundTrip(s: State, id: OpId)
    requires !s.env.dead
    ensures var t := Reloaded(Persist(s)); var now := s.env.clock;
      && t.links == s.links && t.ops.order == s.ops.order && t.ops.at.Keys == s.ops.at.Keys && t.pending.at.Keys == s.pending.at.Keys
      && (forall u :: u in s.pending.at ==> t.pending.at[u] == Removal(s.pending.at[u].reason, now, 0, false))
      && (id in s.ops.at ==>
            var op := s.ops.at[id].(createdAt := now, endedAt := Some(now), splitRequested := false);
            t.ops.at[id] == if Active(op.state) then op.(state := Failed, errorCode := Some(Unavailable), reconcile := true) else op)
  {
    hide Written, Restored, Loses;
    var j := Save(s);
    if id in s.ops.at {
      assert j.ops.at[id] == Written(s.ops.at[id]);
      WrittenRestored(s.ops.at[id], s.env.clock);
    }
    assert forall u :: u in s.pending.at ==> j.reasons[u] == s.pending.at[u].reason;
  }

  lemma WrittenRestored(op: Operation, now: nat)
    ensures var back := op.(createdAt := now, endedAt := Some(now), splitRequested := false);
      Restored(Written(op), now) == if Active(back.state) then back.(state := Failed, errorCode := Some(Unavailable), reconcile := true) else back
  {
  }
}
