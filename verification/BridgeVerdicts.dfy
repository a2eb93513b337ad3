/** What the events of a sign-in do: its verdict, its late end, its challenges and its errors. */
module BridgeVerdicts {
  import opened Wrappers
  import opened Dicts
  import opened BridgeTypes
  import opened BridgeSpec
  import opened BridgeMachine
  import opened BridgeShape
  import opened BridgeInvariant
  import opened BridgeSections
  import opened BridgePromises
  import opened BridgeUsers
  import A = BridgeAnswers

  // ---- who is asked to go -------------------------------------------------------------------------

  /** After the calls of c Bridge was asked to remove nobody but v, and only if due. */
  ghost predicate AsksOnly(c: seq<Call>, d: seq<Call>, v: UserId, due: bool) {
    forall i :: |c| <= i < |d| && d[i].CalledRemove? ==> due && d[i].user == v
  }

  lemma CallCalls(s: State)
    ensures NativeCall(s).0.env.calls == s.env.calls && ListUsers(s).0.env.calls == s.env.calls && GetUser(s).0.env.calls == s.env.calls
  {
    hide Accountable;
  }

  lemma DropCalls(s: State, id: OpId, v: UserId)
    requires id in s.ops.at && (s.ops.at[id].userId == Some(v) || !s.ops.at[id].createdByAttempt)
    ensures AsksOnly(s.env.calls, DropAttemptUser(s, id).env.calls, v, s.ops.at[id].createdByAttempt)
    ensures |s.env.calls| <= |DropAttemptUser(s, id).env.calls|
  {
    hide NativeCall, HasHeir, Linked, Held;
    var op := s.ops.at[id];
    if op.createdByAttempt && op.userId.Some? && !Linked(s, op.userId.value) && !HasHeir(s, op.userId.value, Some(id)) {
      var item := if v in s.pending.at then s.pending.at[v].(since := s.env.clock, reason := s.pending.at[v].reason)
                  else Removal(Attempt, s.env.clock, 0, false);
      CallCalls(RemoveLogged(s.(pending := s.pending.Put(v, item)), v, v !in s.pending.at));
    }
  }

  lemma CheckCalls(s: State, id: OpId, v: UserId)
    requires id in s.ops.at && s.ops.at[id].userId == Some(v)
    ensures AsksOnly(s.env.calls, Check(s, id).env.calls, v, s.ops.at[id].createdByAttempt)
  {
    hide GetUser, NativeCall, DropAttemptUser, Owns;
    CallCalls(s);
    GetUserFrame(s);
    var (t, info) := GetUser(s);
    var op := s.ops.at[id];
    if info.Some? {
      if !Owns(info.value, v, op.email) {
        DropCalls(End(t, id, Failed, Some(AddressMismatch)), id, v);
      } else if info.value.connected && !info.value.split && !op.splitRequested {
        CallCalls(SetOp(t, id, t.ops.at[id].(splitRequested := true)));
      }
    }
  }

  /** The user a terminal event names, if it names one. */
  function Named(ev: Event): Option<UserId> {
    match ev
    case FinishedEvent(user) => user
    case AlreadyLoggedInEvent(user) => user
    case _ => None
  }

  /** The terminal event of a sign-in has Bridge asked to remove its user only if the sign-in finished with a
      user that the attempt had not found in Bridge. */
  lemma OnlyOwnUserGoes(s: State, m: Move)
    requires m.step.Deliver? && Terminal(m.step.event)
    ensures var c, d := s.env.calls, Do(s, m).env.calls;
      forall i :: |c| <= i < |d| && d[i].CalledRemove? ==>
        m.step.event.FinishedEvent? && Holder(s).Some? && m.step.event.user == Some(d[i].user) && d[i].user !in Holder(s).value.preexisting
  {
    hide Check, DropAttemptUser, OnEvent, Persist, Do;
    var ev := m.step.event;
    if s.env.dead {
      DeadStays(s, m);
    } else if CanSend(s.env, ev) {
      DeliverIs(s, m);
      EndCalls(s.(env := s.env.(tape := m.tape, login := Idle)), ev);
    } else {
      Unsent(s, m);
    }
  }

  lemma Unsent(s: State, m: Move)
    requires m.step.Deliver? && !CanSend(s.env, m.step.event)
    ensures Do(s, m) == s.(env := s.env.(tape := m.tape))
  {
    hide OnEvent;
  }

  lemma EndCalls(s: State, ev: Event)
    requires Terminal(ev)
    ensures var d := OnEvent(s, ev).env.calls;
      forall i :: |s.env.calls| <= i < |d| && d[i].CalledRemove? ==>
        ev.FinishedEvent? && Holder(s).Some? && ev.user == Some(d[i].user) && d[i].user !in Holder(s).value.preexisting
  {
    hide Check, DropAttemptUser, Save, OnLoginError;
    if ev.LoginErrorEvent? {
      ErrorSober(s, ev.code, 0);
    } else if Holder(s).Some? && Named(ev).Some? {
      var v := Named(ev).value;
      var id := s.slot.value;
      var own := ev.FinishedEvent? && v !in s.ops.at[id].preexisting;
      var op := s.ops.at[id].(userId := Some(v), createdByAttempt := own);
      CheckCalls(SetOp(s, id, op.(state := Checking)), id, v);
      DropCalls(SetOp(s, id, op), id, v);
    }
  }

  // ---- the late end of a sign-in ------------------------------------------------------------------

  /** A sign-in whose attempt has ended finishes: the slot is free; a user the attempt had found in Bridge, or
      that is linked, is left alone; any other is handed to the attempts that use it, or waits to go. */
  lemma LateEnd(s: State, m: Move, id: OpId, v: UserId)
    requires Inv(s) && !s.env.dead && m.step.Deliver? && CanSend(s.env, m.step.event) && Named(m.step.event) == Some(v)
    requires s.slot == Some(id) && id in s.ops.at && !Active(s.ops.at[id].state)
    ensures var t := Do(s, m); var own := m.step.event.FinishedEvent? && v !in s.ops.at[id].preexisting;
      && t.slot.None? && t.links == s.links && t.ops.at.Keys == s.ops.at.Keys
      && (!own || Linked(s, v) ==> t.pending == s.pending && t.env.calls == s.env.calls && t.env.asked == s.env.asked)
      && (own && !Linked(s, v) ==>
            if HasHeir(s, v, Some(id))
            then t.pending == s.pending && t.env.calls == s.env.calls &&
                 forall o :: o in s.ops.at && o != id && Heir(s.ops.at[o], v) ==> t.ops.at[o].createdByAttempt
            else v in t.pending.at && (v !in s.pending.at ==> t.pending.at[v].reason.Attempt?) &&
                 (t.env.dead || (v in t.disk.reasons && v in t.env.asked)))
  {
    hide Inv, DropAttemptUser, Save, Heir, HasHeir, OnEvent, Do;
    var q := s.(env := s.env.(tape := m.tape, login := Idle));
    var own := m.step.event.FinishedEvent? && v !in s.ops.at[id].preexisting;
    var op := q.ops.at[id].(userId := Some(v), createdByAttempt := own);
    var a := SetOp(q, id, op);
    SameHeirs(s, a, v, id);
    DropEnds(a, id, v);
    var r := Release(DropAttemptUser(a, id), id);
    DeliverIs(s, m);
    FinishedEventIs(q, m.step.event, v);
    assert OnLoginFinished(q, m.step.event.FinishedEvent?, Some(v)) == r;
    A.ReasonsSaved(r);
  }

  lemma SameHeirs(s: State, a: State, v: UserId, id: OpId)
    requires a.ops.at.Keys == s.ops.at.Keys && forall o :: o in s.ops.at && o != id ==> a.ops.at[o] == s.ops.at[o]
    ensures HasHeir(a, v, Some(id)) <==> HasHeir(s, v, Some(id))
  {
    hide Heir;
  }

  /** The clean-up of the user of an ended attempt, by cases. */
  lemma DropEnds(s: State, id: OpId, v: UserId)
    requires id in s.ops.at && s.ops.at[id].userId == Some(v)
    ensures var t := DropAttemptUser(s, id); var due := s.ops.at[id].createdByAttempt && !Linked(s, v);
      && t.links == s.links && t.ops.at.Keys == s.ops.at.Keys && t.slot == s.slot
      && (!due ==> t == s)
      && (due && HasHeir(s, v, Some(id)) ==>
            t.pending == s.pending && t.env == s.env &&
            forall o :: o in s.ops.at && o != id && Heir(s.ops.at[o], v) ==> t.ops.at[o].createdByAttempt)
      && (due && !HasHeir(s, v, Some(id)) ==>
            v in t.pending.at && (v !in s.pending.at ==> t.pending.at[v].reason.Attempt?) && (t.env.dead || v in t.env.asked))
  {
    hide BeginRemoval, Heir, HasHeir, Linked;
    BeginRemovalEntry(s, v, Attempt);
    BeginAsks(s, v, Attempt);
  }

  lemma BeginAsks(s: State, v: UserId, reason: Reason)
    ensures var t := BeginRemoval(s, v, reason); t.env.dead || v in t.env.asked
  {
    hide Accountable, Linked, Held;
  }

  // ---- the verdict --------------------------------------------------------------------------------

  /** Bridge answers the next call, and neither it nor the worker dies. */
  predicate Answered(s: State, tape: seq<Answer>) {
    s.env.running && !s.env.dead && tape != [] && tape[0].ok && !tape[0].dies && tape[0].crash.Survives?
  }

  /** What Bridge says of user v decides: an address that is not its own fails the attempt and frees the slot; a
      signed-in user in split mode connects it and frees the slot; anything else leaves it checking. */
  ghost predicate Judged(op: Operation, info: UserInfo, v: UserId, held: bool, after: Operation, slot: bool) {
    && after.userId == Some(v) && after.email == op.email && after.committed == op.committed
    && if !(info.id == v && HasAddress(info, op.email)) then after.state.Failed? && after.errorCode == Some(AddressMismatch) && !slot
       else if info.connected && info.split then after.state.Connected? && after.errorCode.None? && !slot
       else after.state.Checking? && slot == held
  }

  lemma CheckJudges(s: State, id: OpId, v: UserId)
    requires id in s.ops.at && s.ops.at[id].state.Checking? && s.ops.at[id].userId == Some(v) && Answered(s, s.env.tape)
    ensures var t := Check(s, id);
      id in t.ops.at && Judged(s.ops.at[id], s.env.tape[0].info, v, s.slot == Some(id), t.ops.at[id], t.slot == Some(id))
  {
    hide Accountable, Owns, BeginRemoval, HasHeir, Handed, Linked, HasAddress;
    var (t, info) := GetUser(s);
    OwnsMeans(s.env.tape[0].info, v, s.ops.at[id].email);
    assert info == Some(s.env.tape[0].info) && t.ops == s.ops && t.slot == s.slot;
    if !Owns(info.value, v, s.ops.at[id].email) {
      var e := End(t, id, Failed, Some(AddressMismatch));
      A.DropKeepsOwn(e, id);
    } else if info.value.connected && !info.value.split && !s.ops.at[id].splitRequested {
      CallFrame(SetOp(t, id, t.ops.at[id].(splitRequested := true)));
    }
  }

  /** A sign-in that finishes for an attempt still waiting gets its verdict. */
  lemma FinishedIsJudged(s: State, m: Move, id: OpId, v: UserId)
    requires m.step.Deliver? && CanSend(s.env, m.step.event) && Named(m.step.event) == Some(v) && Answered(s, m.tape)
    requires s.slot == Some(id) && id in s.ops.at && Active(s.ops.at[id].state)
    ensures var t := Do(s, m);
      id in t.ops.at && Judged(s.ops.at[id], m.tape[0].info, v, true, t.ops.at[id], t.slot == Some(id))
  {
    hide Check, Save, Judged, OnEvent;
    var q := s.(env := s.env.(tape := m.tape, login := Idle));
    var finished := m.step.event.FinishedEvent?;
    var own := finished && v !in s.ops.at[id].preexisting;
    var a := SetOp(q, id, q.ops.at[id].(userId := Some(v), createdByAttempt := own, state := Checking));
    CheckJudges(a, id, v);
    DeliverIs(s, m);
    FinishedEventIs(q, m.step.event, v);
    assert OnLoginFinished(q, finished, Some(v)) == Check(a, id);
    JudgedAlike(s.ops.at[id], a.ops.at[id], m.tape[0].info, v, Check(a, id).ops.at[id], Check(a, id).slot == Some(id));
  }

  lemma JudgedAlike(op: Operation, now: Operation, info: UserInfo, v: UserId, after: Operation, slot: bool)
    requires Judged(now, info, v, true, after, slot) && now.email == op.email && now.committed == op.committed
    ensures Judged(op, info, v, true, after, slot)
  {
    hide HasAddress;
  }

  lemma DeliverIs(s: State, m: Move)
    requires m.step.Deliver? && CanSend(s.env, m.step.event) && !s.env.dead
    ensures Do(s, m) == OnEvent(s.(env := s.env.(tape := m.tape, login := if Terminal(m.step.event) then Idle else s.env.login)), m.step.event)
  {
    hide OnEvent;
  }

  lemma FinishedEventIs(s: State, ev: Event, v: UserId)
    requires Named(ev) == Some(v)
    ensures OnEvent(s, ev) == Persist(OnLoginFinished(s, ev.FinishedEvent?, Some(v)))
  {
    hide OnLoginFinished, Persist;
  }

  /** And so does an attempt still checking, whenever Bridge reports a change of its user. */
  lemma ChangedIsJudged(s: State, m: Move, id: OpId, v: UserId)
    requires Inv(s) && m.step == Deliver(UserChangedEvent(v)) && Answered(s, m.tape) && v !in s.pending.at
    requires id in s.ops.at && s.ops.at[id].state.Checking? && s.ops.at[id].userId == Some(v)
    ensures var t := Do(s, m);
      id in t.ops.at && Judged(s.ops.at[id], m.tape[0].info, v, true, t.ops.at[id], t.slot == Some(id))
  {
    hide Check, CheckAll, Save, CoreAt, DiskOk, Judged;
    var q := s.(env := s.env.(tape := m.tape));
    ActiveHoldsSlot(s, id, s.env.clock);
    CheckJudges(q, id, v);
    OnlyChecking(s, id);
    assert Do(s, m) == Persist(CheckAll(q, q.ops.order, v));
    OneChecked(q, q.ops.order, id, v);
  }

  /** The attempt that is checking is the only one. */
  lemma OnlyChecking(s: State, id: OpId)
    requires Inv(s) && id in s.ops.at && s.ops.at[id].state.Checking?
    ensures id in s.ops.order && Distinct(s.ops.order) && forall o :: o in s.ops.at && s.ops.at[o].state.Checking? ==> o == id
  {
    hide LoginOk, ProcOk, LeasesOk, SealOk, DiskOk, LinksOk, PendingOk, CallsOk, OpOk;
    assert Active(s.ops.at[id].state);
  }

  lemma {:induction false} OneChecked(s: State, ids: seq<OpId>, id: OpId, v: UserId)
    requires id in s.ops.at && s.ops.at[id].state.Checking? && s.ops.at[id].userId == Some(v) && id in ids && Distinct(ids)
    requires forall o :: o in s.ops.at && s.ops.at[o].state.Checking? ==> o == id
    ensures CheckAll(s, ids, v) == Check(s, id)
    decreases ids
  {
    hide Check;
    if ids[0] == id {
      assert id !in ids[1..];
      CheckOthers(s, id);
      NoneChecked(Check(s, id), ids[1..], v);
    } else {
      OneChecked(s, ids[1..], id, v);
    }
  }

  lemma CheckOthers(s: State, id: OpId)
    requires id in s.ops.at
    ensures var t := Check(s, id);
      forall o :: o in t.ops.at && t.ops.at[o].state.Checking? ==> o in s.ops.at && (o == id || s.ops.at[o].state.Checking?)
  {
    hide Owns, GetUser, DropAttemptUser, NativeCall;
    GetUserFrame(s);
    var t := GetUser(s).0;
    CallFrame(SetOp(t, id, t.ops.at[id].(splitRequested := true)));
    var e := End(t, id, Failed, Some(AddressMismatch));
    DropKeepsStates(e, id);
  }

  lemma DropKeepsStates(s: State, id: OpId)
    requires id in s.ops.at
    ensures var t := DropAttemptUser(s, id); t.ops.at.Keys == s.ops.at.Keys && forall o :: o in s.ops.at ==> t.ops.at[o].state == s.ops.at[o].state
  {
    hide BeginRemoval, HasHeir, Linked, Heir;
    if s.ops.at[id].userId.Some? {
      BeginRemovalEntry(s, s.ops.at[id].userId.value, Attempt);
    }
  }

  lemma {:induction false} NoneChecked(s: State, ids: seq<OpId>, v: UserId)
    requires forall o :: o in ids && o in s.ops.at ==> !s.ops.at[o].state.Checking?
    ensures CheckAll(s, ids, v) == s
    decreases ids
  {
    hide Check;
    if ids != [] {
      NoneChecked(s, ids[1..], v);
    }
  }

  // ---- challenges and errors ----------------------------------------------------------------------

  /** An event before the end of a sign-in, or its error. */
  predicate Challenging(ev: Event) {
    ev.NeedsTwoFactorEvent? || ev.NeedsSecondPasswordEvent? || ev.LoginErrorEvent? || ev.HumanVerificationEvent?
  }

  /** What such an event makes of the holder op of the slot: a challenge, a wrong answer to one, or its end, if
      it has not ended before; a final error frees the slot in any case, nothing else does. */
  ghost predicate Told(op: Operation, ev: Event, now: nat, after: Operation, slot: bool) {
    if !Active(op.state) then after == op && slot == !Terminal(ev) else
    match ev
    case NeedsTwoFactorEvent => slot && after == op.(state := Needs2fa)
    case NeedsSecondPasswordEvent => slot && after == op.(state := NeedsSecondPassword)
    case LoginErrorEvent(code) =>
      if code.TfaError? then slot && after == op.(state := Needs2fa, errorCode := Some(InvalidChallenge))
      else if code.TwoPasswordsError? then slot && after == op.(state := NeedsSecondPassword, errorCode := Some(InvalidChallenge))
      else !slot && after == op.(state := Failed, endedAt := Some(now),
                                       errorCode := Some(if code.BadPassword? then InvalidCredentials
                                                         else if code.Verification? then VerificationRequired else LoginFailed))
    case HumanVerificationEvent =>
      slot && after == op.(state := Failed, errorCode := Some(VerificationRequired), endedAt := Some(now))
    case _ => false
  }

  lemma EventTells(s: State, m: Move, id: OpId)
    requires !s.env.dead && m.step.Deliver? && CanSend(s.env, m.step.event) && Challenging(m.step.event)
    requires s.slot == Some(id) && id in s.ops.at && !s.ops.at[id].state.Checking?
    ensures var t := Do(s, m);
      id in t.ops.at && t.links == s.links && t.pending == s.pending &&
      Told(s.ops.at[id], m.step.event, s.env.clock, t.ops.at[id], t.slot == Some(id))
  {
    hide OnEvent, Do;
    DeliverIs(s, m);
    ChallengeTells(s.(env := s.env.(tape := m.tape, login := if Terminal(m.step.event) then Idle else s.env.login)), m.step.event, id);
  }

  lemma ChallengeTells(s: State, ev: Event, id: OpId)
    requires Challenging(ev) && s.slot == Some(id) && id in s.ops.at && !s.ops.at[id].state.Checking?
    ensures var t := OnEvent(s, ev);
      id in t.ops.at && t.links == s.links && t.pending == s.pending && Told(s.ops.at[id], ev, s.env.clock, t.ops.at[id], t.slot == Some(id))
  {
    hide Save, NativeCall;
    CallFrame(End(s, id, Failed, Some(VerificationRequired)));
  }

  // ---- removals -----------------------------------------------------------------------------------

  /** A removal is over when Bridge reports a change of its user and lists it no more; until then it waits. */
  lemma GoneIsForgotten(s: State, m: Move, v: UserId)
    requires m.step == Deliver(UserChangedEvent(v)) && v in s.pending.at && Answered(s, m.tape)
    requires forall id :: id in s.ops.at ==> !(s.ops.at[id].state.Checking? && s.ops.at[id].userId == Some(v))
    ensures var t := Do(s, m); v in t.pending.at <==> v in t.env.users
  {
    hide ListUsers, CheckAll, Save;
    DeliverIs(s, m);
    var q := s.(env := s.env.(tape := m.tape));
    ListAnswered(q);
    ListFrame(q);
    var (l, users) := ListUsers(q);
    var t := if v !in users.value then DropPending(l, v) else l;
    NoneToCheck(t, t.ops.order, v);
  }

  lemma ListAnswered(s: State)
    requires Answered(s, s.env.tape)
    ensures var (l, users) := ListUsers(s); users == Some(l.env.users)
  {
    hide Accountable;
  }

  lemma {:induction false} NoneToCheck(s: State, ids: seq<OpId>, v: UserId)
    requires forall id :: id in s.ops.at ==> !(s.ops.at[id].state.Checking? && s.ops.at[id].userId == Some(v))
    ensures CheckAll(s, ids, v) == s
    decreases ids
  {
    hide Check;
    if ids != [] {
      NoneToCheck(s, ids[1..], v);
    }
  }

  // ---- the event stream ---------------------------------------------------------------------------

  /** When Bridge's events end the process counts as lost, and nothing else changes but the journal. */
  lemma StreamEndIsLoss(s: State, m: Move)
    requires !s.env.dead && m.step == Deliver(StreamEndedEvent)
    ensures var t := Do(s, m);
      t.proc == s.proc.(nativeLost := true) && t.ops == s.ops && t.links == s.links && t.pending == s.pending && t.slot == s.slot &&
      t.gate == s.gate && !Alive(t)
  {
    hide Save;
  }
}
