/** The invariant of the controller, part by part, and what the parts need to be kept. */
module BridgeShape {
  import opened Wrappers
  import opened Dicts
  import opened BridgeTypes
  import opened BridgeSpec

  // ---- the parts of the invariant -----------------------------------------------------------------

  ghost predicate OpOk(o: Operation, clock: nat) {
    && o.createdAt <= clock
    && (o.endedAt.Some? ==> o.createdAt <= o.endedAt.value <= clock)
    && (o.userId.None? ==> !o.createdByAttempt && !o.state.Checking? && !o.state.Connected?)
    && (o.committed ==> o.state.Connected? && o.endedAt.Some?)
    && (Ended(o.state) ==> o.endedAt.Some?)
    && (o.reconcile ==> Ended(o.state))
  }

  ghost predicate OpsOk(ops: Dict<OpId, Operation>, clock: nat) {
    && ops.Wf()
    && forall id :: id in ops.at ==> ops.at[id].id == id && OpOk(ops.at[id], clock)
  }

  ghost predicate LinksOk(links: map<LinkKey, Link>) {
    forall k :: k in links ==> k == LinkKey(links[k].user, Lower(links[k].email))
  }

  /** No linked user is being removed. */
  ghost predicate PendingOk(pending: map<UserId, Removal>, links: map<LinkKey, Link>) {
    forall u :: u in pending ==> !HasLink(links, u) && pending[u].recoveries <= MAX_REMOVAL_RECOVERIES
  }

  /** Sign-ins reached Bridge after they were journaled and while nothing was outstanding; no linked user and
      no user newly given up while an attempt held it was removed. */
  ghost predicate CallOk(c: Call) {
    match c
    case CalledLogin(_, journaled, busy) => journaled && !busy
    case CalledRemove(_, linked, held, newly) => !linked && !(newly && held)
  }

  ghost predicate CallsOk(calls: seq<Call>) {
    forall c :: c in calls ==> CallOk(c)
  }

  /** The attempts that reached native.login, in order. */
  function Logins(calls: seq<Call>): seq<OpId> {
    if calls == [] then []
    else
      var last := calls[|calls| - 1];
      Logins(calls[..|calls| - 1]) + if last.CalledLogin? then [last.op] else []
  }

  /** At most one attempt is active and it holds the slot; a holder exists, is never connected, has a user
      exactly while it is checked, and is the only attempt that can be marked for reconciliation. */
  ghost predicate SlotOk(ops: map<OpId, Operation>, slot: Option<OpId>) {
    && (forall id :: id in ops && Active(ops[id].state) ==> slot == Some(id))
    && (slot.Some? ==>
          && slot.value in ops
          && !ops[slot.value].state.Connected?
          && (ops[slot.value].userId.Some? <==> ops[slot.value].state.Checking?)
          && forall id :: id in ops && ops[id].reconcile ==> slot == Some(id))
  }

  /** A sign-in running in Bridge is the slot holder's, and no restart is under way. A marked holder's
      sign-in runs on only until tick, which finds it due at time at, recovers Bridge. */
  ghost predicate LoginOk(login: Login, proc: Proc, ops: map<OpId, Operation>, slot: Option<OpId>, recoverySeconds: nat, at: nat) {
    !login.Idle? ==>
      && proc.started && proc.restarted.None? && slot.Some? && slot.value in ops && !ops[slot.value].state.Checking?
      && (ops[slot.value].reconcile ==>
            proc.nativeLost || (ops[slot.value].endedAt.Some? && ops[slot.value].endedAt.value + recoverySeconds <= at))
  }

  ghost predicate ProcOk(proc: Proc, recoverySeconds: nat, clock: nat) {
    && (proc.restarted.Some? ==> proc.recovering)
    && (proc.recovering && proc.restarted.None? ==> proc.nextRecoveryAt <= clock)
    && (proc.lastRecoveryAt.None? ==> proc.nextRecoveryAt == 0)
    && (proc.lastRecoveryAt.Some? ==>
          var last := proc.lastRecoveryAt.value;
          && last <= clock
          && last + Min(recoverySeconds, RECOVERY_BACKOFF_CAP) <= proc.nextRecoveryAt <= last + RECOVERY_BACKOFF_CAP)
  }

  ghost predicate LeasesOk(g: Gate) {
    && Distinct(g.cancelled) && |g.cancelled| <= CANCELLED_LEASES_KEPT
    && (forall l :: l in g.cancelled ==> l !in g.leases)
  }

  ghost predicate Quiet(op: Operation, clock: nat, ttl: nat) {
    !Active(op.state) && !(op.state.Connected? && !op.committed && clock < op.createdAt + ttl)
  }

  ghost predicate AllQuiet(ops: map<OpId, Operation>, clock: nat, ttl: nat) {
    forall id :: id in ops ==> Quiet(ops[id], clock, ttl)
  }

  /** Under a sealed gate Bridge is stopped and stays stopped, nothing is sent and no sign-in goes on. */
  ghost predicate SealOk(gate: Gate, proc: Proc, ops: map<OpId, Operation>, clock: nat, ttl: nat) {
    gate.sealed ==>
      && gate.snapshot.Some? && gate.leases == {} && !proc.started && !proc.recovering
      && AllQuiet(ops, clock, ttl)
  }

  ghost predicate JournaledOk(o: Operation) {
    && o.createdAt == 0 && o.endedAt.None? && !o.splitRequested
    && (o.userId.None? ==> !o.createdByAttempt && !o.state.Checking? && !o.state.Connected?)
    && (o.committed ==> o.state.Connected?)
    && (o.reconcile ==> Ended(o.state))
  }

  ghost predicate JournalOk(j: Journal) {
    && j.ops.Wf() && LinksOk(j.links)
    && (forall id :: id in j.ops.at ==> j.ops.at[id].id == id && JournaledOk(j.ops.at[id]))
    && (forall u :: u in j.reasons ==> !HasLink(j.links, u))
  }

  /** The journal has the links and the attempts of memory. */
  ghost predicate DiskOk(disk: Journal, links: map<LinkKey, Link>, ops: Dict<OpId, Operation>) {
    && JournalOk(disk) && disk.links == links
    && disk.ops.order == ops.order && disk.ops.at.Keys == ops.at.Keys
    && forall id :: id in ops.at ==>
         && disk.ops.at[id].email == ops.at[id].email && disk.ops.at[id].preexisting == ops.at[id].preexisting
         && disk.ops.at[id].committed == ops.at[id].committed
  }

  /** How the journal moves while a section runs: it stays, or is written with the links and commits memory
      started from. */
  ghost predicate JournalMoves(j: Journal, links: map<LinkKey, Link>, ops: map<OpId, Operation>, k: Journal) {
    k == j || (k.links == links && forall id :: id in k.ops.at && id in ops ==> k.ops.at[id].committed == ops[id].committed)
  }

  // ---- how attempts change ------------------------------------------------------------------------

  /** Clean-up flags and reconciliation marks only. */
  ghost predicate OpKept(o: Operation, p: Operation) {
    && p == o.(createdByAttempt := p.createdByAttempt, reconcile := p.reconcile)
    && (o.createdByAttempt ==> p.createdByAttempt)
    && (p.createdByAttempt && !o.createdByAttempt ==> o.userId.Some? && !o.committed && (Active(o.state) || o.state.Connected?))
    && (p.reconcile ==> o.reconcile)
  }

  ghost predicate OpsKept(o: Dict<OpId, Operation>, p: Dict<OpId, Operation>) {
    && p.order == o.order && p.at.Keys == o.at.Keys
    && forall id :: id in o.at ==> OpKept(o.at[id], p.at[id])
  }

  /** How one attempt may change from time c to time d; late if a restart or a listing failed meanwhile. */
  ghost predicate OpFlow(o: Operation, p: Operation, c: nat, d: nat, late: bool) {
    && p.id == o.id && p.email == o.email && p.createdAt == o.createdAt && p.preexisting == o.preexisting
    && p.committed == o.committed
    && (Ended(o.state) ==> p.state == o.state && (p.endedAt == o.endedAt || late))
    && (o.state.Connected? ==> p.state.Connected? || (!o.committed && Ended(p.state)))
    && (Active(p.state) ==> Active(o.state))
    && (p.state.Connected? ==> o.state.Connected? || Active(o.state))
    && (o.state.Connected? && p.state.Connected? ==> p.userId == o.userId)
    && (p.endedAt == o.endedAt || (p.endedAt.Some? && c <= p.endedAt.value <= d))
    && (!Ended(o.state) && Ended(p.state) ==> p.endedAt.Some? && c <= p.endedAt.value <= d)
  }

  ghost predicate OpsFlow(o: Dict<OpId, Operation>, p: Dict<OpId, Operation>, c: nat, d: nat, late: bool) {
    && p.order == o.order && p.at.Keys == o.at.Keys
    && forall id :: id in o.at ==> OpFlow(o.at[id], p.at[id], c, d, late)
  }

  // ---- how removals change ------------------------------------------------------------------------

  /** Among the calls of d after those of c Bridge was asked to remove u, for the first time. */
  ghost predicate Opened(c: seq<Call>, d: seq<Call>, u: UserId) {
    exists i :: |c| <= i < |d| && d[i].CalledRemove? && d[i].user == u && d[i].newly
  }

  /** After the calls of c Bridge was not asked to remove a user of links. */
  ghost predicate CallsSpare(links: map<LinkKey, Link>, c: seq<Call>, d: seq<Call>) {
    forall i :: |c| <= i < |d| && d[i].CalledRemove? ==> !HasLink(links, d[i].user)
  }

  ghost predicate RemovalKept(o: Removal, p: Removal) {
    o.recoveries <= p.recoveries && (o.stuck ==> p.stuck) && (o.reason.Unlink? ==> p.reason.Unlink?)
  }

  /** A removal that was not opened anew has spent no fewer recoveries, and is stuck if it was. */
  ghost predicate RemovalsKept(p: map<UserId, Removal>, q: map<UserId, Removal>, c: seq<Call>, d: seq<Call>) {
    forall u :: u in q ==> Opened(c, d, u) || (u in p && RemovalKept(p[u], q[u]))
  }

  lemma CallsSpareTransitive(links: map<LinkKey, Link>, c: seq<Call>, d: seq<Call>, e: seq<Call>)
    requires CallsSpare(links, c, d) && CallsSpare(links, d, e) && c <= d <= e
    ensures CallsSpare(links, c, e)
  {
    hide HasLink;
    forall i | |c| <= i < |e| && e[i].CalledRemove?
      ensures !HasLink(links, e[i].user)
    {
      if i < |d| {
        assert d[i] == e[i];
      }
    }
  }

  lemma OpenedLater(c: seq<Call>, d: seq<Call>, e: seq<Call>, u: UserId)
    requires c <= d <= e
    ensures Opened(c, d, u) || Opened(d, e, u) ==> Opened(c, e, u)
  {
    if Opened(c, d, u) {
      var i :| |c| <= i < |d| && d[i].CalledRemove? && d[i].user == u && d[i].newly;
      assert e[i] == d[i];
    }
  }

  lemma RemovalsKeptTransitive(p: map<UserId, Removal>, q: map<UserId, Removal>, r: map<UserId, Removal>,
                               c: seq<Call>, d: seq<Call>, e: seq<Call>)
    requires RemovalsKept(p, q, c, d) && RemovalsKept(q, r, d, e) && c <= d <= e
    ensures RemovalsKept(p, r, c, e)
  {
    hide Opened;
    forall u | u in r
      ensures Opened(c, e, u) || (u in p && RemovalKept(p[u], r[u]))
    {
      OpenedLater(c, d, e, u);
    }
  }

  lemma OpsKeptTransitive(o: Dict<OpId, Operation>, p: Dict<OpId, Operation>, q: Dict<OpId, Operation>)
    requires OpsKept(o, p) && OpsKept(p, q)
    ensures OpsKept(o, q)
  {
    forall id | id in o.at
      ensures OpKept(o.at[id], q.at[id])
    {
      assert OpKept(o.at[id], p.at[id]) && OpKept(p.at[id], q.at[id]);
    }
  }

  lemma OpsFlowTransitive(o: Dict<OpId, Operation>, p: Dict<OpId, Operation>, q: Dict<OpId, Operation>,
                          c: nat, d: nat, e: nat, early: bool, late: bool)
    requires OpsFlow(o, p, c, d, early) && OpsFlow(p, q, d, e, late) && c <= d <= e
    ensures OpsFlow(o, q, c, e, early || late)
  {
    forall id | id in o.at
      ensures OpFlow(o.at[id], q.at[id], c, e, early || late)
    {
      assert OpFlow(o.at[id], p.at[id], c, d, early) && OpFlow(p.at[id], q.at[id], d, e, late);
    }
  }

  lemma OpsKeptFlow(o: Dict<OpId, Operation>, p: Dict<OpId, Operation>, c: nat, d: nat, late: bool)
    requires OpsKept(o, p) && c <= d
    ensures OpsFlow(o, p, c, d, late)
  {
    forall id | id in o.at
      ensures OpFlow(o.at[id], p.at[id], c, d, late)
    {
      assert OpKept(o.at[id], p.at[id]);
    }
  }

  lemma OpsOkLater(ops: Dict<OpId, Operation>, clock: nat, later: nat)
    requires OpsOk(ops, clock) && clock <= later
    ensures OpsOk(ops, later)
  {
  }

  lemma OpsKeptOk(o: Dict<OpId, Operation>, p: Dict<OpId, Operation>, clock: nat)
    requires OpsKept(o, p) && OpsOk(o, clock)
    ensures OpsOk(p, clock)
  {
    forall id | id in p.at
      ensures p.at[id].id == id && OpOk(p.at[id], clock)
    {
      assert OpKept(o.at[id], p.at[id]) && OpOk(o.at[id], clock);
    }
  }

  lemma OpsKeptSlot(o: Dict<OpId, Operation>, p: Dict<OpId, Operation>, slot: Option<OpId>)
    requires OpsKept(o, p) && SlotOk(o.at, slot)
    ensures SlotOk(p.at, slot)
  {
    assert forall id :: id in o.at ==> OpKept(o.at[id], p.at[id]);
  }

  lemma OpsKeptQuiet(o: Dict<OpId, Operation>, p: Dict<OpId, Operation>, clock: nat, later: nat, ttl: nat)
    requires OpsKept(o, p) && AllQuiet(o.at, clock, ttl) && clock <= later
    ensures AllQuiet(p.at, later, ttl)
  {
    forall id | id in p.at
      ensures Quiet(p.at[id], later, ttl)
    {
      assert OpKept(o.at[id], p.at[id]) && Quiet(o.at[id], clock, ttl);
    }
  }

  ghost predicate LoginMoves(l: Login, m: Login) {
    m == l || m.Idle? || (l.Running? && m.Made?)
  }

  lemma OpsKeptLogin(o: Dict<OpId, Operation>, p: Dict<OpId, Operation>, l: Login, m: Login, proc: Proc, slot: Option<OpId>, rs: nat, at: nat)
    requires OpsKept(o, p) && LoginOk(l, proc, o.at, slot, rs, at) && LoginMoves(l, m)
    ensures LoginOk(m, proc, p.at, slot, rs, at)
  {
    if slot.Some? && slot.value in o.at {
      assert OpKept(o.at[slot.value], p.at[slot.value]);
    }
  }

  lemma FlowDisk(disk: Journal, links: map<LinkKey, Link>, o: Dict<OpId, Operation>, p: Dict<OpId, Operation>, c: nat, d: nat, late: bool)
    requires DiskOk(disk, links, o) && OpsFlow(o, p, c, d, late)
    ensures DiskOk(disk, links, p)
  {
    assert forall id :: id in o.at ==> OpFlow(o.at[id], p.at[id], c, d, late);
  }

  // ---- changing one attempt -----------------------------------------------------------------------

  function With(ops: Dict<OpId, Operation>, id: OpId, op: Operation): Dict<OpId, Operation> {
    ops.(at := ops.at[id := op])
  }

  lemma WithOk(ops: Dict<OpId, Operation>, id: OpId, op: Operation, clock: nat)
    requires OpsOk(ops, clock) && id in ops.at && op.id == id && OpOk(op, clock)
    ensures OpsOk(With(ops, id, op), clock)
  {
  }

  lemma WithFlow(ops: Dict<OpId, Operation>, id: OpId, op: Operation, c: nat, d: nat, late: bool)
    requires id in ops.at && OpFlow(ops.at[id], op, c, d, late) && c <= d
    ensures OpsFlow(ops, With(ops, id, op), c, d, late)
  {
  }

  /** The holder ends and frees the slot. */
  lemma EndedSlotFreed(ops: map<OpId, Operation>, slot: Option<OpId>, id: OpId, op: Operation)
    requires SlotOk(ops, slot) && id in ops && !Active(op.state)
    requires slot == Some(id) || slot.None?
    ensures SlotOk(ops[id := op], None)
  {
  }

  /** The holder ends and keeps the slot. */
  lemma EndedSlotKept(ops: map<OpId, Operation>, slot: Option<OpId>, op: Operation)
    requires SlotOk(ops, slot) && slot.Some? && Ended(op.state) && op.userId.None?
    ensures SlotOk(ops[slot.value := op], slot)
  {
  }

  /** The holder stays active. */
  lemma ActiveSlotKept(ops: map<OpId, Operation>, slot: Option<OpId>, op: Operation)
    requires SlotOk(ops, slot) && slot.Some? && Active(op.state) && !op.reconcile
    requires op.userId.Some? <==> op.state.Checking?
    ensures SlotOk(ops[slot.value := op], slot)
  {
  }

  /** An attempt that does not hold the slot changes among the inactive states. */
  lemma OtherSlotKept(ops: map<OpId, Operation>, slot: Option<OpId>, id: OpId, op: Operation)
    requires SlotOk(ops, slot) && slot != Some(id) && id in ops && !Active(op.state) && (op.reconcile ==> ops[id].reconcile)
    ensures SlotOk(ops[id := op], slot)
  {
  }

  lemma SlotFreed(ops: map<OpId, Operation>, slot: Option<OpId>)
    requires SlotOk(ops, slot) && (slot.Some? ==> !Active(ops[slot.value].state))
    ensures SlotOk(ops, None)
  {
  }
}
