/** What the registry of AI runs keeps through any calls and any order in which promises settle. */
module AiRunsSafety {
  import opened Wrappers
  import opened Dicts
  import opened AiRuns
  import R = AiResults

  // ---- the invariant ------------------------------------------------------------------------------

  ghost predicate Increasing(s: seq<EntryId>) {
    forall i, j :: 0 <= i < j < |s| ==> s[i] < s[j]
  }

  /** The entries the registry lists. */
  ghost function Members(runs: Dict<string, EntryId>): set<EntryId> {
    set id | id in runs.at :: runs.at[id]
  }

  ghost predicate RunsOk(entries: seq<Entry>, runs: Dict<string, EntryId>) {
    runs.Wf() && forall id :: id in runs.at ==> runs.at[id] < |entries| && IdOf(entries[runs.at[id]]) == id
  }

  /** The queue holds exactly the listed entries that wait, in the order they were started. */
  ghost predicate QueueOk(entries: seq<Entry>, listed: set<EntryId>, queue: seq<EntryId>) {
    && Increasing(queue)
    && (forall e :: e in queue ==> e < |entries| && e in listed && entries[e].phase.Waiting?)
    && (forall e :: 0 <= e < |entries| && e in listed && entries[e].phase.Waiting? ==> e in queue)
  }

  /** What the parts of one entry say about each other. */
  ghost predicate EntryOk(entry: Entry, listed: bool) {
    && (entry.status.Queued? <==> entry.phase.Waiting?)
    && (entry.ctrl.Some? <==> !entry.phase.Waiting?)
    && (entry.holdsSlot ==> entry.phase.Streaming? || entry.phase.Answered?)
    && (listed ==> (entry.status.Loading? <==> entry.phase.Streaming?) && entry.ctrl != Some(true))
    && (listed && entry.phase.Streaming? ==> entry.holdsSlot)
    && (!listed && entry.phase.Streaming? ==> entry.ctrl == Some(true))
  }

  ghost predicate EntriesOk(entries: seq<Entry>, listed: set<EntryId>) {
    forall e :: 0 <= e < |entries| ==> EntryOk(entries[e], e in listed)
  }

  ghost function Holders(entries: seq<Entry>): set<EntryId> {
    set e | 0 <= e < |entries| && entries[e].holdsSlot
  }

  /** Launches follow the order of starts, and no waiting entry is older than a launched one. */
  ghost predicate LaunchedOk(entries: seq<Entry>, queue: seq<EntryId>, launched: seq<EntryId>) {
    && Increasing(launched)
    && (forall e :: e in launched ==> e < |entries| && !entries[e].phase.Waiting?)
    && (forall e :: 0 <= e < |entries| && !entries[e].phase.Waiting? ==> e in launched)
    && (forall a, b :: a in launched && b in queue ==> a < b)
  }

  /** Every launch is released once, unless it still holds its slot. */
  ghost predicate ReleasedOk(entries: seq<Entry>, released: seq<EntryId>) {
    && Distinct(released)
    && (forall e :: e in released ==> e < |entries| && !entries[e].phase.Waiting? && !entries[e].holdsSlot)
    && (forall e :: 0 <= e < |entries| && !entries[e].phase.Waiting? && !entries[e].holdsSlot ==> e in released)
  }

  ghost predicate SaveOk(entry: Entry, save: SaveCall) {
    && (entry.phase.Answered? || entry.phase.Over?) && save.text != ""
    && save.messageId == entry.messageId && save.key == entry.key && save.caption == entry.caption
  }

  /** A run saves at most once, under its own message and key, and has then left the registry. */
  ghost predicate SavesOk(entries: seq<Entry>, listed: set<EntryId>, saves: seq<SaveCall>) {
    && (forall i, j :: 0 <= i < j < |saves| ==> saves[i].entry != saves[j].entry)
    && (forall i :: 0 <= i < |saves| ==>
          saves[i].entry < |entries| && saves[i].entry !in listed && SaveOk(entries[saves[i].entry], saves[i]))
  }

  /** What holds also while the queue is being pumped. */
  ghost predicate Core(r: Registry) {
    && RunsOk(r.entries, r.runs)
    && QueueOk(r.entries, Members(r.runs), r.queue)
    && EntriesOk(r.entries, Members(r.runs))
    && r.active == |Holders(r.entries)| && r.active <= MAX_CONCURRENT_RUNS
    && LaunchedOk(r.entries, r.queue, r.launched)
    && ReleasedOk(r.entries, r.released)
    && SavesOk(r.entries, Members(r.runs), r.saves)
  }

  /** No entry waits while a slot is free. */
  ghost predicate Inv(r: Registry) {
    Core(r) && (r.queue != [] ==> r.active == MAX_CONCURRENT_RUNS)
  }

  lemma QueueRange(entries: seq<Entry>, listed: set<EntryId>, queue: seq<EntryId>)
    requires QueueOk(entries, listed, queue)
    ensures InRange(queue, |entries|)
  {
    assert forall i :: 0 <= i < |queue| ==> queue[i] in queue;
  }

  lemma CoreSound(r: Registry)
    requires Core(r)
    ensures Sound(r) && Keyed(r) && r.runs.Wf()
  {
    hide EntriesOk, LaunchedOk, ReleasedOk, SavesOk, Holders, QueueOk;
    QueueRange(r.entries, Members(r.runs), r.queue);
  }

  lemma IsListed(r: Registry, e: EntryId)
    requires RunsOk(r.entries, r.runs) && e < |r.entries|
    ensures Current(r, e) <==> e in Members(r.runs)
  {
  }

  // ---- one entry changes --------------------------------------------------------------------------

  lemma RunsSame(entries: seq<Entry>, runs: Dict<string, EntryId>, e: EntryId, x: Entry)
    requires RunsOk(entries, runs) && e < |entries| && IdOf(x) == IdOf(entries[e])
    ensures RunsOk(entries[e := x], runs)
  {
    hide IdOf;
  }

  lemma DropMember(entries: seq<Entry>, runs: Dict<string, EntryId>, e: EntryId)
    requires RunsOk(entries, runs) && e < |entries| && e in Members(runs)
    ensures RunsOk(entries, runs.Drop(IdOf(entries[e]))) && Members(runs.Drop(IdOf(entries[e]))) == Members(runs) - {e}
    ensures IdOf(entries[e]) in runs.at
  {
    hide IdOf;
    DropWf(runs, IdOf(entries[e]));
    var t := runs.Drop(IdOf(entries[e]));
    forall x | x in Members(runs) && x != e
      ensures x in Members(t)
    {
      var id :| id in runs.at && runs.at[id] == x;
      assert id in t.at && t.at[id] == x;
    }
  }

  lemma HoldersAre(entries: seq<Entry>, e: EntryId, x: Entry)
    requires e < |entries|
    ensures Holders(entries[e := x]) == if x.holdsSlot then Holders(entries) + {e} else Holders(entries) - {e}
    ensures e in Holders(entries) <==> entries[e].holdsSlot
  {
  }

  lemma EntriesStay(entries: seq<Entry>, listed: set<EntryId>, e: EntryId, x: Entry, now: set<EntryId>)
    requires EntriesOk(entries, listed) && e < |entries| && EntryOk(x, e in now)
    requires now == listed || now == listed - {e}
    ensures EntriesOk(entries[e := x], now)
  {
    hide EntryOk;
  }

  lemma EntryAt(entries: seq<Entry>, listed: set<EntryId>, e: EntryId)
    requires EntriesOk(entries, listed) && e < |entries|
    ensures EntryOk(entries[e], e in listed)
  {
  }

  lemma QueueStays(entries: seq<Entry>, listed: set<EntryId>, queue: seq<EntryId>, e: EntryId, x: Entry)
    requires QueueOk(entries, listed, queue) && e < |entries| && x.phase.Waiting? == entries[e].phase.Waiting?
    ensures QueueOk(entries[e := x], listed, queue)
  {
  }

  lemma LaunchedStays(entries: seq<Entry>, queue: seq<EntryId>, launched: seq<EntryId>, e: EntryId, x: Entry, rest: seq<EntryId>)
    requires LaunchedOk(entries, queue, launched) && e < |entries| && x.phase.Waiting? == entries[e].phase.Waiting?
    requires forall y :: y in rest ==> y in queue
    ensures LaunchedOk(entries[e := x], rest, launched)
  {
  }

  lemma ReleasedStays(entries: seq<Entry>, released: seq<EntryId>, e: EntryId, x: Entry)
    requires ReleasedOk(entries, released) && e < |entries|
    requires x.phase.Waiting? == entries[e].phase.Waiting? && x.holdsSlot == entries[e].holdsSlot
    ensures ReleasedOk(entries[e := x], released)
  {
  }

  lemma SavesStay(entries: seq<Entry>, listed: set<EntryId>, saves: seq<SaveCall>, e: EntryId, x: Entry, now: set<EntryId>)
    requires SavesOk(entries, listed, saves) && e < |entries| && now <= listed
    requires x.messageId == entries[e].messageId && x.key == entries[e].key && x.caption == entries[e].caption
    requires e !in listed && (entries[e].phase.Answered? || entries[e].phase.Over?) ==> x.phase.Answered? || x.phase.Over?
    ensures SavesOk(entries[e := x], now, saves)
  {
  }

  /** An entry changes in ways that concern neither queue nor slots; it may leave the registry. */
  lemma TouchKeeps(r: Registry, e: EntryId, x: Entry, leaves: bool)
    requires Core(r) && e < |r.entries| && (leaves ==> e in Members(r.runs) && !x.phase.Waiting?)
    requires x.messageId == r.entries[e].messageId && x.key == r.entries[e].key && x.caption == r.entries[e].caption
    requires x.holdsSlot == r.entries[e].holdsSlot && x.phase.Waiting? == r.entries[e].phase.Waiting?
    requires EntryOk(x, e in Members(r.runs) && !leaves)
    requires e !in Members(r.runs) && (r.entries[e].phase.Answered? || r.entries[e].phase.Over?) ==> x.phase.Answered? || x.phase.Over?
    ensures Core(Set(r, e, x).(runs := if leaves then r.runs.Drop(IdOf(x)) else r.runs))
    ensures leaves ==> Members(r.runs.Drop(IdOf(x))) == Members(r.runs) - {e}
  {
    hide QueueOk, EntriesOk, EntryOk, LaunchedOk, ReleasedOk, SavesOk, Members, RunsOk;
    var runs := if leaves then r.runs.Drop(IdOf(x)) else r.runs;
    RunsSame(r.entries, r.runs, e, x);
    if leaves {
      DropMember(r.entries[e := x], r.runs, e);
      QueueLoses(r.entries, Members(r.runs), r.queue, e, x);
    } else {
      QueueStays(r.entries, Members(r.runs), r.queue, e, x);
    }
    HoldersAre(r.entries, e, x);
    EntriesStay(r.entries, Members(r.runs), e, x, Members(runs));
    LaunchedStays(r.entries, r.queue, r.launched, e, x, r.queue);
    ReleasedStays(r.entries, r.released, e, x);
    SavesStay(r.entries, Members(r.runs), r.saves, e, x, Members(runs));
  }

  lemma QueueLoses(entries: seq<Entry>, listed: set<EntryId>, queue: seq<EntryId>, e: EntryId, x: Entry)
    requires QueueOk(entries, listed, queue) && e < |entries| && !x.phase.Waiting? && !entries[e].phase.Waiting?
    ensures QueueOk(entries[e := x], listed - {e}, queue)
  {
  }

  // ---- launching ----------------------------------------------------------------------------------

  lemma HeadOnce(queue: seq<EntryId>)
    requires Increasing(queue) && queue != []
    ensures queue[0] !in queue[1..] && Increasing(queue[1..]) && forall x :: x in queue <==> x == queue[0] || x in queue[1..]
  {
    assert queue == [queue[0]] + queue[1..];
  }

  lemma HeadLeast(queue: seq<EntryId>)
    requires Increasing(queue) && queue != []
    ensures forall x :: x in queue[1..] ==> queue[0] < x
  {
    forall x | x in queue[1..]
      ensures queue[0] < x
    {
      var i :| 0 <= i < |queue[1..]| && queue[1..][i] == x;
      assert queue[0] < queue[i + 1];
    }
  }

  lemma QueueShifts(entries: seq<Entry>, listed: set<EntryId>, queue: seq<EntryId>, x: Entry)
    requires QueueOk(entries, listed, queue) && queue != [] && queue[0] < |entries| && !x.phase.Waiting?
    ensures QueueOk(entries[queue[0] := x], listed, queue[1..])
    ensures entries[queue[0]].phase.Waiting? && queue[0] in listed
  {
    HeadOnce(queue);
  }

  lemma LaunchedNext(entries: seq<Entry>, queue: seq<EntryId>, launched: seq<EntryId>, x: Entry)
    requires LaunchedOk(entries, queue, launched) && Increasing(queue) && queue != [] && queue[0] < |entries| && !x.phase.Waiting?
    ensures LaunchedOk(entries[queue[0] := x], queue[1..], launched + [queue[0]])
  {
    var e := queue[0];
    var next := launched + [e];
    HeadOnce(queue);
    assert forall i :: 0 <= i < |launched| ==> launched[i] in launched;
    HeadLeast(queue);
    assert forall y :: y in next ==> y in launched || y == e;
  }

  lemma ReleasedLater(entries: seq<Entry>, released: seq<EntryId>, e: EntryId, x: Entry)
    requires ReleasedOk(entries, released) && e < |entries| && entries[e].phase.Waiting? && !x.phase.Waiting? && x.holdsSlot
    ensures ReleasedOk(entries[e := x], released)
  {
  }

  lemma LaunchKeeps(r: Registry)
    requires Core(r) && r.queue != [] && r.active < MAX_CONCURRENT_RUNS && r.queue[0] < |r.entries|
    ensures Core(Launch(r.(queue := r.queue[1..]), r.queue[0]))
  {
    hide EntriesOk, LaunchedOk, ReleasedOk, SavesOk, Members, RunsOk, QueueOk;
    var e := r.queue[0];
    var x := r.entries[e].(status := Loading, ctrl := Some(false), holdsSlot := true, phase := Streaming);
    QueueShifts(r.entries, Members(r.runs), r.queue, x);
    EntryAt(r.entries, Members(r.runs), e);
    RunsSame(r.entries, r.runs, e, x);
    HoldersAre(r.entries, e, x);
    EntriesStay(r.entries, Members(r.runs), e, x, Members(r.runs));
    QueueIncreases(r.entries, Members(r.runs), r.queue);
    LaunchedNext(r.entries, r.queue, r.launched, x);
    ReleasedLater(r.entries, r.released, e, x);
    SavesStay(r.entries, Members(r.runs), r.saves, e, x, Members(r.runs));
  }

  lemma QueueIncreases(entries: seq<Entry>, listed: set<EntryId>, queue: seq<EntryId>)
    requires QueueOk(entries, listed, queue)
    ensures Increasing(queue)
  {
  }

  function Launching(entry: Entry): Entry {
    entry.(status := Loading, ctrl := Some(false), holdsSlot := true, phase := Streaming)
  }

  /** What pumping does: it launches a prefix of the queue and nothing else. */
  ghost predicate Pumped(r: Registry, t: Registry) {
    && t.runs == r.runs && t.stored == r.stored && t.released == r.released && t.saves == r.saves && |t.entries| == |r.entries|
    && |r.launched| <= |t.launched| && r.launched + r.queue == t.launched + t.queue
    && forall e :: 0 <= e < |r.entries| ==>
         t.entries[e] == r.entries[e] || (r.entries[e].phase.Waiting? && e in r.queue && t.entries[e] == Launching(r.entries[e]))
  }

  lemma {:induction false} PumpKeeps(r: Registry)
    requires Core(r) && InRange(r.queue, |r.entries|)
    ensures Inv(Pump(r)) && Pumped(r, Pump(r))
    decreases |r.queue|
  {
    hide RunsOk, EntriesOk, ReleasedOk, SavesOk, LaunchedOk, QueueOk, Holders, Members;
    if r.active < MAX_CONCURRENT_RUNS && r.queue != [] {
      LaunchKeeps(r);
      var e := r.queue[0];
      QueueShifts(r.entries, Members(r.runs), r.queue, Launching(r.entries[e]));
      var t := Launch(r.(queue := r.queue[1..]), e);
      PumpKeeps(t);
      assert r.launched + r.queue == t.launched + t.queue;
    }
  }

  // ---- releasing and discarding -------------------------------------------------------------------

  lemma ReleasedNow(entries: seq<Entry>, released: seq<EntryId>, e: EntryId)
    requires ReleasedOk(entries, released) && e < |entries| && entries[e].holdsSlot && !entries[e].phase.Waiting?
    ensures ReleasedOk(entries[e := entries[e].(holdsSlot := false)], released + [e])
  {
    assert e !in released;
  }

  lemma GiveBackKeeps(r: Registry, e: EntryId)
    requires Core(r) && e < |r.entries| && r.entries[e].holdsSlot && (e in Members(r.runs) ==> !r.entries[e].phase.Streaming?)
    ensures Core(GiveBack(r, e)) && GiveBack(r, e).active < MAX_CONCURRENT_RUNS
  {
    hide EntriesOk, LaunchedOk, ReleasedOk, SavesOk, Members, RunsOk, QueueOk;
    var x := r.entries[e].(holdsSlot := false);
    EntryAt(r.entries, Members(r.runs), e);
    RunsSame(r.entries, r.runs, e, x);
    HoldersAre(r.entries, e, x);
    EntriesStay(r.entries, Members(r.runs), e, x, Members(r.runs));
    QueueStays(r.entries, Members(r.runs), r.queue, e, x);
    LaunchedStays(r.entries, r.queue, r.launched, e, x, r.queue);
    ReleasedNow(r.entries, r.released, e);
    SavesStay(r.entries, Members(r.runs), r.saves, e, x, Members(r.runs));
  }

  /** Giving back a slot keeps the invariant; the slot goes to the head of the queue. */
  lemma ReleaseKeeps(r: Registry, e: EntryId)
    requires Inv(r) && e < |r.entries| && InRange(r.queue, |r.entries|) && (e in Members(r.runs) ==> !r.entries[e].phase.Streaming?)
    ensures var t := Release(r, e);
      Inv(t) && (if r.entries[e].holdsSlot then Pumped(GiveBack(r, e), t) && (r.queue != [] ==> |t.launched| > |r.launched|) else t == r)
  {
    hide RunsOk, EntriesOk, ReleasedOk, SavesOk, LaunchedOk, QueueOk, Holders, Members, Pumped;
    if r.entries[e].holdsSlot {
      GiveBackKeeps(r, e);
      PumpKeeps(GiveBack(r, e));
      if r.queue != [] {
        PumpLaunches(GiveBack(r, e));
      }
    }
  }

  lemma PumpLaunches(r: Registry)
    requires Core(r) && InRange(r.queue, |r.entries|) && r.queue != [] && r.active < MAX_CONCURRENT_RUNS
    ensures |Pump(r).launched| > |r.launched|
  {
    hide RunsOk, EntriesOk, ReleasedOk, SavesOk, LaunchedOk, QueueOk, Holders, Members;
    LaunchKeeps(r);
    PumpKeeps(Launch(r.(queue := r.queue[1..]), r.queue[0]));
  }

  lemma PutFirst(x: EntryId, queue: seq<EntryId>)
    requires Increasing(queue) && forall y :: y in queue ==> x < y
    ensures Increasing([x] + queue) && forall y :: y in [x] + queue <==> y == x || y in queue
  {
    assert forall i :: 0 <= i < |queue| ==> queue[i] in queue;
  }

  lemma {:induction false} UnqueuedIs(queue: seq<EntryId>, e: EntryId)
    requires Increasing(queue)
    ensures Increasing(Unqueued(queue, e)) && forall x :: x in Unqueued(queue, e) <==> x in queue && x != e
  {
    hide Increasing;
    if queue != [] {
      HeadOnce(queue);
      HeadLeast(queue);
      UnqueuedIs(queue[1..], e);
      if queue[0] != e {
        PutFirst(queue[0], Unqueued(queue[1..], e));
      }
    }
  }

  lemma QueueWithout(entries: seq<Entry>, listed: set<EntryId>, queue: seq<EntryId>, e: EntryId, x: Entry)
    requires QueueOk(entries, listed, queue) && e < |entries|
    ensures QueueOk(entries[e := x], listed - {e}, Unqueued(queue, e))
  {
    UnqueuedIs(queue, e);
  }

  lemma DroppedKeeps(r: Registry, e: EntryId)
    requires Core(r) && e < |r.entries| && InRange(r.queue, |r.entries|) && e in Members(r.runs)
    ensures var t := Dropped(r, e); Core(t) && Members(t.runs) == Members(r.runs) - {e} && t.active == r.active
  {
    hide EntriesOk, LaunchedOk, ReleasedOk, SavesOk, Members, RunsOk, QueueOk;
    var entry := r.entries[e];
    var x := entry.(ctrl := if entry.ctrl.Some? then Some(true) else None);
    EntryAt(r.entries, Members(r.runs), e);
    RunsSame(r.entries, r.runs, e, x);
    DropMember(r.entries[e := x], r.runs, e);
    HoldersAre(r.entries, e, x);
    var now := Members(r.runs.Drop(IdOf(entry)));
    EntriesStay(r.entries, Members(r.runs), e, x, now);
    QueueWithout(r.entries, Members(r.runs), r.queue, e, x);
    LaunchedStays(r.entries, r.queue, r.launched, e, x, Unqueued(r.queue, e));
    ReleasedStays(r.entries, r.released, e, x);
    SavesStay(r.entries, Members(r.runs), r.saves, e, x, now);
  }

  /** Cancelling an entry: it is gone from registry and queue, aborted, and its slot, if it had one, goes to the
      next. */
  lemma DiscardKeeps(r: Registry, e: EntryId)
    requires Inv(r) && e < |r.entries| && InRange(r.queue, |r.entries|) && e in Members(r.runs)
    ensures var t := Discard(r, e);
      Inv(t) && Members(t.runs) == Members(r.runs) - {e} && t.saves == r.saves && t.stored == r.stored && t.runs == r.runs.Drop(IdOf(r.entries[e]))
    ensures r.queue == [] ==> Discard(r, e).queue == []
  {
    hide RunsOk, EntriesOk, ReleasedOk, SavesOk, LaunchedOk, QueueOk, Holders, Members;
    DroppedKeeps(r, e);
    var d := Dropped(r, e);
    ReleaseKeeps(d, e);
    var t := Discard(r, e);
    if r.queue == [] && d.entries[e].holdsSlot {
      assert |d.launched + d.queue| == |t.launched + t.queue|;
    }
  }

  // ---- calls --------------------------------------------------------------------------------------

  lemma AddMember(entries: seq<Entry>, runs: Dict<string, EntryId>, entry: Entry)
    requires RunsOk(entries, runs) && IdOf(entry) !in runs.at
    ensures RunsOk(entries + [entry], runs.Put(IdOf(entry), |entries|))
    ensures Members(runs.Put(IdOf(entry), |entries|)) == Members(runs) + {|entries|}
  {
    hide IdOf;
    PutWf(runs, IdOf(entry), |entries|);
    var t := runs.Put(IdOf(entry), |entries|);
    forall x | x in Members(runs)
      ensures x in Members(t)
    {
      var id :| id in runs.at && runs.at[id] == x;
      assert id in t.at && t.at[id] == x;
    }
    assert t.at[IdOf(entry)] == |entries|;
  }

  lemma EntriesMore(entries: seq<Entry>, listed: set<EntryId>, entry: Entry)
    requires EntriesOk(entries, listed) && EntryOk(entry, true)
    ensures EntriesOk(entries + [entry], listed + {|entries|})
  {
    hide EntryOk;
  }

  lemma QueueMore(entries: seq<Entry>, listed: set<EntryId>, queue: seq<EntryId>, launched: seq<EntryId>, entry: Entry)
    requires QueueOk(entries, listed, queue) && LaunchedOk(entries, queue, launched) && entry.phase.Waiting?
    ensures QueueOk(entries + [entry], listed + {|entries|}, queue + [|entries|])
    ensures LaunchedOk(entries + [entry], queue + [|entries|], launched)
  {
    assert forall i :: 0 <= i < |queue| ==> queue[i] in queue;
  }

  lemma ReleasedMore(entries: seq<Entry>, released: seq<EntryId>, entry: Entry)
    requires ReleasedOk(entries, released) && entry.phase.Waiting?
    ensures ReleasedOk(entries + [entry], released)
  {
  }

  lemma SavesMore(entries: seq<Entry>, listed: set<EntryId>, saves: seq<SaveCall>, entry: Entry)
    requires SavesOk(entries, listed, saves)
    ensures SavesOk(entries + [entry], listed + {|entries|}, saves)
  {
  }

  lemma EnqueuedKeeps(r: Registry, messageId: string, key: string, caption: string)
    requires Core(r) && InRange(r.queue, |r.entries|) && RunId(messageId, key) !in r.runs.at
    ensures Core(Enqueued(r, messageId, key, caption))
  {
    hide EntriesOk, LaunchedOk, ReleasedOk, SavesOk, Members, RunsOk, QueueOk;
    var entry := NewEntry(messageId, key, caption);
    AddMember(r.entries, r.runs, entry);
    EntriesMore(r.entries, Members(r.runs), entry);
    QueueMore(r.entries, Members(r.runs), r.queue, r.launched, entry);
    ReleasedMore(r.entries, r.released, entry);
    SavesMore(r.entries, Members(r.runs), r.saves, entry);
    assert Holders(r.entries + [entry]) == Holders(r.entries);
  }

  lemma MemberAt(entries: seq<Entry>, runs: Dict<string, EntryId>, id: string)
    requires RunsOk(entries, runs) && id in runs.at
    ensures runs.at[id] < |entries| && runs.at[id] in Members(runs) && IdOf(entries[runs.at[id]]) == id
  {
  }

  lemma StartKeeps(r: Registry, messageId: string, key: string, caption: string, callable: bool, force: bool)
    requires Inv(r) && Sound(r)
    ensures var t := StartRun(r, messageId, key, caption, callable, force); Inv(t) && t.saves == r.saves && t.stored == r.stored
  {
    hide EntriesOk, ReleasedOk, SavesOk, LaunchedOk, QueueOk, Holders, Members, RunsOk;
    var id := RunId(messageId, key);
    if id in r.runs.at {
      MemberAt(r.entries, r.runs, id);
      DiscardKeeps(r, r.runs.at[id]);
    }
    var d := if id in r.runs.at then Discard(r, r.runs.at[id]) else r;
    EnqueuedKeeps(d, messageId, key, caption);
    PumpKeeps(Enqueued(d, messageId, key, caption));
  }

  lemma CancelKeeps(r: Registry, messageId: string, key: string)
    requires Inv(r) && Sound(r)
    ensures var t := CancelRun(r, messageId, key); Inv(t) && RunId(messageId, key) !in t.runs.at && t.saves == r.saves && t.stored == r.stored
  {
    hide EntriesOk, ReleasedOk, SavesOk, LaunchedOk, QueueOk, Holders, Members, RunsOk;
    var id := RunId(messageId, key);
    if id in r.runs.at {
      MemberAt(r.entries, r.runs, id);
      DiscardKeeps(r, r.runs.at[id]);
    }
  }

  // ---- abort all ----------------------------------------------------------------------------------

  /** The invariant while everything is being aborted: the queue is empty, listed entries may still wait. */
  ghost predicate Aborting(r: Registry) {
    && RunsOk(r.entries, r.runs) && r.queue == [] && EntriesOk(r.entries, Members(r.runs))
    && r.active == |Holders(r.entries)| && r.active <= MAX_CONCURRENT_RUNS
    && LaunchedOk(r.entries, r.queue, r.launched) && ReleasedOk(r.entries, r.released) && SavesOk(r.entries, Members(r.runs), r.saves)
  }

  lemma AbortOneKeeps(r: Registry, e: EntryId)
    requires Aborting(r) && e < |r.entries| && e in Members(r.runs)
    ensures var t := Discard(r, e);
      Aborting(t) && Members(t.runs) == Members(r.runs) - {e} && t.saves == r.saves && t.stored == r.stored
  {
    hide EntriesOk, LaunchedOk, ReleasedOk, SavesOk, Members, RunsOk;
    var entry := r.entries[e];
    var x := entry.(ctrl := if entry.ctrl.Some? then Some(true) else None);
    var y := x.(holdsSlot := false);
    EntryAt(r.entries, Members(r.runs), e);
    RunsSame(r.entries, r.runs, e, x);
    DropMember(r.entries[e := x], r.runs, e);
    var now := Members(r.runs.Drop(IdOf(entry)));
    HoldersAre(r.entries, e, x);
    EntriesStay(r.entries, Members(r.runs), e, x, now);
    LaunchedStays(r.entries, [], r.launched, e, x, []);
    ReleasedStays(r.entries, r.released, e, x);
    SavesStay(r.entries, Members(r.runs), r.saves, e, x, now);
    var d := Dropped(r, e);
    if entry.holdsSlot {
      RunsSame(d.entries, d.runs, e, y);
      HoldersAre(d.entries, e, y);
      EntriesStay(d.entries, now, e, y, now);
      LaunchedStays(d.entries, [], d.launched, e, y, []);
      ReleasedNow(d.entries, d.released, e);
      SavesStay(d.entries, now, d.saves, e, y, now);
    }
  }

  lemma {:induction false} AbortKeeps(r: Registry, es: seq<EntryId>)
    requires Aborting(r) && InRange(es, |r.entries|) && Distinct(es) && forall e :: e in es ==> e in Members(r.runs)
    ensures var t := DiscardAll(r, es);
      Aborting(t) && Members(t.runs) == (set e | e in Members(r.runs) && e !in es) && t.saves == r.saves && t.stored == r.stored
    decreases |es|
  {
    hide EntriesOk, LaunchedOk, ReleasedOk, SavesOk, Members, RunsOk, Holders, Discard;
    if es != [] {
      AbortOneKeeps(r, es[0]);
      assert es == [es[0]] + es[1..];
      AbortKeeps(Discard(r, es[0]), es[1..]);
    }
  }

  lemma {:induction false} ValuesAre(order: seq<string>, at: map<string, EntryId>)
    requires forall id :: id in order ==> id in at
    requires forall a, b :: a in at && b in at && at[a] == at[b] ==> a == b
    requires Distinct(order)
    ensures Distinct(Values(order, at)) && forall e :: e in Values(order, at) <==> exists id :: id in order && at[id] == e
  {
    var es := Values(order, at);
    forall i, j | 0 <= i < j < |es|
      ensures es[i] != es[j]
    {
      assert order[i] != order[j];
    }
    forall e | e in es
      ensures exists id :: id in order && at[id] == e
    {
      var i :| 0 <= i < |es| && es[i] == e;
      assert order[i] in order && at[order[i]] == e;
    }
    forall id | id in order
      ensures at[id] in es
    {
      var i :| 0 <= i < |order| && order[i] == id;
      assert es[i] == at[id];
    }
  }

  lemma KeyedOnce(entries: seq<Entry>, runs: Dict<string, EntryId>)
    requires RunsOk(entries, runs)
    ensures forall a, b :: a in runs.at && b in runs.at && runs.at[a] == runs.at[b] ==> a == b
  {
    hide IdOf;
  }

  /** Aborting everything empties registry and queue, saves nothing, and launches nothing. */
  lemma AbortAllKeeps(r: Registry)
    requires Inv(r) && Sound(r) && r.runs.Wf()
    ensures var t := AbortAllRuns(r);
      Inv(t) && Members(t.runs) == {} && t.queue == [] && t.saves == r.saves && t.stored == r.stored
  {
    hide EntriesOk, ReleasedOk, SavesOk, Holders, DiscardAll;
    var es := Values(r.runs.order, r.runs.at);
    KeyedOnce(r.entries, r.runs);
    ValuesAre(r.runs.order, r.runs.at);
    AbortKeeps(r.(queue := []), es);
    assert forall e :: e in Members(r.runs) ==> e in es;
  }

  // ---- settling promises --------------------------------------------------------------------------

  lemma DeltaKeeps(r: Registry, e: EntryId, text: string)
    requires Inv(r) && e < |r.entries|
    ensures Inv(OnDelta(r, e, text))
  {
    hide EntriesOk, LaunchedOk, ReleasedOk, SavesOk, RunsOk, QueueOk, Members, Holders;
    EntryAt(r.entries, Members(r.runs), e);
    TouchKeeps(r, e, r.entries[e].(text := text), false);
  }

  lemma SaveMore(entries: seq<Entry>, listed: set<EntryId>, saves: seq<SaveCall>, x: Entry, e: EntryId, text: string, now: set<EntryId>)
    requires SavesOk(entries, listed, saves) && e in listed && now == listed - {e} && e < |entries| && text != "" && x.phase.Answered?
    requires x.messageId == entries[e].messageId && x.key == entries[e].key && x.caption == entries[e].caption
    ensures SavesOk(entries[e := x], now, saves + [SaveCall(e, x.messageId, x.key, text, x.caption)])
  {
    var s := SaveCall(e, x.messageId, x.key, text, x.caption);
    var t := saves + [s];
    forall i, j | 0 <= i < j < |t|
      ensures t[i].entry != t[j].entry
    {
      assert t[i] == saves[i] && saves[i].entry !in listed;
    }
  }

  /** A listed run that resolves with text saves it, once and under its own message and key, and leaves. */
  lemma ResolveKeeps(r: Registry, e: EntryId, text: string, now: nat, ok: bool)
    requires Inv(r) && e < |r.entries| && r.entries[e].phase.Streaming?
    ensures var t := OnResolve(r, e, text, now, ok);
      Inv(t) && Members(t.runs) == (if Current(r, e) && text != "" then Members(r.runs) - {e} else Members(r.runs))
  {
    hide EntriesOk, LaunchedOk, ReleasedOk, SavesOk, RunsOk, QueueOk, Members, Holders;
    IsListed(r, e);
    EntryAt(r.entries, Members(r.runs), e);
    var x := r.entries[e].(phase := Answered);
    if !Current(r, e) {
      TouchKeeps(r, e, x, false);
    } else if text != "" {
      TouchKeeps(r, e, x, true);
      SaveMore(r.entries, Members(r.runs), r.saves, x, e, text, Members(r.runs) - {e});
    } else {
      TouchKeeps(r, e, x.(status := Done, text := ""), false);
      assert r.entries[e := x][e := x.(status := Done, text := "")] == r.entries[e := x.(status := Done, text := "")];
    }
  }

  lemma RejectKeeps(r: Registry, e: EntryId, abortError: bool, message: string)
    requires Inv(r) && e < |r.entries| && r.entries[e].phase.Streaming?
    ensures var t := OnReject(r, e, abortError, message);
      Inv(t) && Members(t.runs) == (if Current(r, e) && abortError then Members(r.runs) - {e} else Members(r.runs))
  {
    hide EntriesOk, LaunchedOk, ReleasedOk, SavesOk, RunsOk, QueueOk, Members, Holders;
    IsListed(r, e);
    EntryAt(r.entries, Members(r.runs), e);
    var x := r.entries[e].(phase := Answered);
    if !Current(r, e) {
      TouchKeeps(r, e, x, false);
    } else if abortError {
      TouchKeeps(r, e, x, true);
    } else {
      TouchKeeps(r, e, x.(status := Error, text := message), false);
      assert r.entries[e := x][e := x.(status := Error, text := message)] == r.entries[e := x.(status := Error, text := message)];
    }
  }

  /** The finally of a run gives its slot back, unless a cancellation has; the slot goes to the next. */
  lemma FinallyKeeps(r: Registry, e: EntryId)
    requires Inv(r) && e < |r.entries| && r.entries[e].phase.Answered? && InRange(r.queue, |r.entries|)
    ensures var t := OnFinally(r, e);
      Inv(t) && Pumped(if r.entries[e].holdsSlot then Set(GiveBack(r, e), e, r.entries[e].(phase := Over, holdsSlot := false))
                       else Set(r, e, r.entries[e].(phase := Over)), t)
  {
    hide EntriesOk, LaunchedOk, ReleasedOk, SavesOk, RunsOk, QueueOk, Members, Holders;
    EntryAt(r.entries, Members(r.runs), e);
    if r.entries[e].holdsSlot {
      GiveBackKeeps(r, e);
      var g := GiveBack(r, e);
      EntryAt(g.entries, Members(g.runs), e);
      TouchKeeps(g, e, g.entries[e].(phase := Over), false);
      var o := Set(r, e, r.entries[e].(phase := Over));
      assert GiveBack(o, e).entries == Set(g, e, g.entries[e].(phase := Over)).entries;
      PumpKeeps(GiveBack(o, e));
    } else {
      TouchKeeps(r, e, r.entries[e].(phase := Over), false);
    }
  }

  // ---- runs ---------------------------------------------------------------------------------------

  datatype Step =
    | Start(messageId: string, key: string, caption: string, callable: bool, force: bool)
    | Cancel(messageId: string, key: string)
    | AbortAll
    | Delta(e: EntryId, text: string)
    | Resolve(e: EntryId, text: string, now: nat, ok: bool)
    | Reject(e: EntryId, abortError: bool, message: string)
    | Finally(e: EntryId)

  /** A promise calls back only when it has got so far: deltas once launched, then one of resolve and reject,
      then finally. */
  ghost predicate Enabled(r: Registry, step: Step) {
    match step
    case Delta(e, _) => e < |r.entries| && !r.entries[e].phase.Waiting?
    case Resolve(e, _, _, _) => e < |r.entries| && r.entries[e].phase.Streaming?
    case Reject(e, _, _) => e < |r.entries| && r.entries[e].phase.Streaming?
    case Finally(e) => e < |r.entries| && r.entries[e].phase.Answered?
    case _ => true
  }

  ghost function Apply(r: Registry, step: Step): Registry
    requires Inv(r)
  {
    CoreSound(r);
    if !Enabled(r, step) then r
    else
      match step
      case Start(messageId, key, caption, callable, force) => StartRun(r, messageId, key, caption, callable, force)
      case Cancel(messageId, key) => CancelRun(r, messageId, key)
      case AbortAll => AbortAllRuns(r)
      case Delta(e, text) => OnDelta(r, e, text)
      case Resolve(e, text, now, ok) => OnResolve(r, e, text, now, ok)
      case Reject(e, abortError, message) => OnReject(r, e, abortError, message)
      case Finally(e) => OnFinally(r, e)
  }

  lemma StepKeeps(r: Registry, step: Step)
    requires Inv(r)
    ensures Inv(Apply(r, step))
  {
    hide Core;
    CoreSound(r);
    if Enabled(r, step) {
      match step
      case Start(messageId, key, caption, callable, force) => StartKeeps(r, messageId, key, caption, callable, force);
      case Cancel(messageId, key) => CancelKeeps(r, messageId, key);
      case AbortAll => AbortAllKeeps(r);
      case Delta(e, text) => DeltaKeeps(r, e, text);
      case Resolve(e, text, now, ok) => ResolveKeeps(r, e, text, now, ok);
      case Reject(e, abortError, message) => RejectKeeps(r, e, abortError, message);
      case Finally(e) => FinallyKeeps(r, e);
    }
  }
}
