/** What the registry of AI runs promises over whole histories. */
module AiRunsPromises {
  import opened Wrappers
  import opened Dicts
  import opened AiRuns
  import opened AiRunsSafety
  import R = AiResults

  function Initial(stored: R.Stored): Registry {
    Registry([], EmptyDict(), [], 0, stored, [], [], [])
  }

  lemma InitialKeeps(stored: R.Stored)
    ensures Inv(Initial(stored))
  {
    assert Holders(Initial(stored).entries) == {};
  }

  /** The state after any calls and callbacks, in any order. */
  ghost function Run(r: Registry, steps: seq<Step>): (t: Registry)
    requires Inv(r)
    ensures Inv(t)
    decreases |steps|
  {
    if steps == [] then r
    else
      var before := Run(r, steps[..|steps| - 1]);
      StepKeeps(before, steps[|steps| - 1]);
      Apply(before, steps[|steps| - 1])
  }

  /** At most three entries hold a slot and active counts them; the queue is exactly the listed entries that
      wait, without repeats and in start order; none waits while a slot is free; launches follow the order of
      starts; a launched entry has been released once, or holds its slot still, and never after its
      finally; a stream goes on exactly for the entries the registry lists, those of all others are aborted. */
  ghost predicate Scheduled(r: Registry) {
    && r.active == |set e | 0 <= e < |r.entries| && r.entries[e].holdsSlot| <= 3
    && (forall i, j :: 0 <= i < j < |r.queue| ==> r.queue[i] < r.queue[j])
    && (forall e :: e in r.queue ==> e < |r.entries|)
    && (forall e :: 0 <= e < |r.entries| ==> (e in r.queue <==> Current(r, e) && r.entries[e].status.Queued?))
    && (r.queue != [] ==> r.active == 3)
    && (forall i, j :: 0 <= i < j < |r.launched| ==> r.launched[i] < r.launched[j])
    && (forall a, b :: a in r.launched && b in r.queue ==> a < b)
    && (forall i, j :: 0 <= i < j < |r.released| ==> r.released[i] != r.released[j])
    && (forall e :: 0 <= e < |r.entries| ==> (e in r.released <==> e in r.launched && !r.entries[e].holdsSlot))
    && (forall e :: 0 <= e < |r.entries| && r.entries[e].phase.Over? ==> e in r.released)
    && (forall e :: 0 <= e < |r.entries| && r.entries[e].phase.Streaming? ==> r.entries[e].ctrl == Some(!Current(r, e)))
  }

  lemma StreamIs(r: Registry, e: EntryId)
    requires Inv(r) && e < |r.entries| && r.entries[e].phase.Streaming?
    ensures r.entries[e].ctrl == Some(!Current(r, e))
  {
    hide LaunchedOk, ReleasedOk, SavesOk, Holders, QueueOk;
    IsListed(r, e);
    EntryAt(r.entries, Members(r.runs), e);
    assert r.entries[e].ctrl.Some? && (r.entries[e].ctrl.value <==> e !in Members(r.runs));
  }

  lemma QueueIs(r: Registry, e: EntryId)
    requires Inv(r) && e < |r.entries|
    ensures e in r.queue <==> Current(r, e) && r.entries[e].status.Queued?
  {
    hide LaunchedOk, ReleasedOk, SavesOk, Holders;
    IsListed(r, e);
    EntryAt(r.entries, Members(r.runs), e);
  }

  lemma ReleasedIs(r: Registry, e: EntryId)
    requires Inv(r) && e < |r.entries|
    ensures e in r.released <==> e in r.launched && !r.entries[e].holdsSlot
    ensures r.entries[e].phase.Over? ==> e in r.released
  {
    hide SavesOk, Holders, QueueOk, RunsOk;
    EntryAt(r.entries, Members(r.runs), e);
  }

  lemma SchedulerHolds(stored: R.Stored, steps: seq<Step>)
    ensures (InitialKeeps(stored); Scheduled(Run(Initial(stored), steps)))
  {
    hide Inv, Members;
    InitialKeeps(stored);
    var r := Run(Initial(stored), steps);
    forall e | 0 <= e < |r.entries|
      ensures e in r.queue <==> Current(r, e) && r.entries[e].status.Queued?
      ensures e in r.released <==> e in r.launched && !r.entries[e].holdsSlot
      ensures r.entries[e].phase.Over? ==> e in r.released
      ensures r.entries[e].phase.Streaming? ==> r.entries[e].ctrl == Some(!Current(r, e))
    {
      QueueIs(r, e);
      ReleasedIs(r, e);
      if r.entries[e].phase.Streaming? {
        StreamIs(r, e);
      }
    }
    Ordered(r);
    assert Holders(r.entries) == set e | 0 <= e < |r.entries| && r.entries[e].holdsSlot;
  }

  lemma Ordered(r: Registry)
    requires Inv(r)
    ensures forall i, j :: 0 <= i < j < |r.queue| ==> r.queue[i] < r.queue[j]
    ensures forall e :: e in r.queue ==> e < |r.entries|
    ensures forall i, j :: 0 <= i < j < |r.launched| ==> r.launched[i] < r.launched[j]
    ensures forall a, b :: a in r.launched && b in r.queue ==> a < b
    ensures forall i, j :: 0 <= i < j < |r.released| ==> r.released[i] != r.released[j]
    ensures r.active == |Holders(r.entries)| <= 3 && (r.queue != [] ==> r.active == 3)
  {
    hide RunsOk, EntriesOk, SavesOk;
  }

  // ---- late completions ---------------------------------------------------------------------------

  /** The entry a callback belongs to. */
  function Caller(step: Step): Option<EntryId> {
    match step
    case Delta(e, _) => Some(e)
    case Resolve(e, _, _, _) => Some(e)
    case Reject(e, _, _) => Some(e)
    case Finally(e) => Some(e)
    case _ => None
  }

  /** Entry x is as it was, or was waiting and has been launched. */
  ghost predicate Undisturbed(before: Entry, after: Entry, finished: bool) {
    after == before || (finished && before.phase.Waiting? && after == Launching(before))
  }

  /** Whatever comes late from a run that was cancelled, replaced or aborted: the registry, the stored results
      and the other runs stay as they are, but that its finally may let waiting runs start. */
  lemma LateIsHarmless(r: Registry, step: Step, e: EntryId)
    requires Inv(r) && Caller(step) == Some(e) && e < |r.entries| && !Current(r, e)
    ensures var t := Apply(r, step);
      && t.runs == r.runs && t.saves == r.saves && t.stored == r.stored && |t.entries| == |r.entries|
      && t.entries[e].text == r.entries[e].text
      && (forall x :: 0 <= x < |r.entries| && x != e ==> Undisturbed(r.entries[x], t.entries[x], step.Finally?))
  {
    hide Core;
    CoreSound(r);
    if Enabled(r, step) && step.Finally? {
      FinallyKeeps(r, e);
    }
  }

  /** How one step changes who is listed and what was saved. */
  ghost predicate Advances(r: Registry, step: Step, t: Registry) {
    && |r.entries| <= |t.entries|
    && (forall x :: x in Members(t.runs) ==> x in Members(r.runs) || x >= |r.entries|)
    && (forall x :: 0 <= x < |r.entries| ==>
          t.entries[x].messageId == r.entries[x].messageId && t.entries[x].key == r.entries[x].key && t.entries[x].caption == r.entries[x].caption)
    && (t.saves == r.saves ||
        (step.Resolve? && step.e < |r.entries| && step.e in Members(r.runs) && |t.saves| == |r.saves| + 1 &&
         t.saves[..|r.saves|] == r.saves && t.saves[|r.saves|].entry == step.e))
  }

  lemma MembersPut(runs: Dict<string, EntryId>, id: string, e: EntryId)
    ensures forall x :: x in Members(runs.Put(id, e)) ==> x in Members(runs) || x == e
  {
  }

  lemma DiscardAdvances(r: Registry, step: Step, e: EntryId)
    requires Inv(r) && InRange(r.queue, |r.entries|) && e < |r.entries| && e in Members(r.runs)
    ensures Advances(r, step, Discard(r, e))
  {
    hide Core, Members, Pumped;
    DiscardKeeps(r, e);
    DiscardEntries(r, e);
  }

  lemma DiscardEntries(r: Registry, e: EntryId)
    requires Inv(r) && InRange(r.queue, |r.entries|) && e < |r.entries| && e in Members(r.runs)
    ensures var t := Discard(r, e); forall x :: 0 <= x < |r.entries| ==>
      t.entries[x].messageId == r.entries[x].messageId && t.entries[x].key == r.entries[x].key && t.entries[x].caption == r.entries[x].caption
  {
    hide Core, Members;
    DroppedKeeps(r, e) by { CoreOf(r); }
    ReleaseKeepsNames(Dropped(r, e), e);
  }

  lemma CoreOf(r: Registry)
    requires Inv(r)
    ensures Core(r)
  {
  }

  lemma {:induction false} PumpNames(r: Registry)
    requires InRange(r.queue, |r.entries|)
    ensures var t := Pump(r); forall x :: 0 <= x < |r.entries| ==>
      t.entries[x].messageId == r.entries[x].messageId && t.entries[x].key == r.entries[x].key && t.entries[x].caption == r.entries[x].caption
    decreases |r.queue|
  {
    if r.active < MAX_CONCURRENT_RUNS && r.queue != [] {
      PumpNames(Launch(r.(queue := r.queue[1..]), r.queue[0]));
    }
  }

  lemma ReleaseKeepsNames(r: Registry, e: EntryId)
    requires e < |r.entries| && InRange(r.queue, |r.entries|)
    ensures var t := Release(r, e); forall x :: 0 <= x < |r.entries| ==>
      t.entries[x].messageId == r.entries[x].messageId && t.entries[x].key == r.entries[x].key && t.entries[x].caption == r.entries[x].caption
  {
    if r.entries[e].holdsSlot {
      PumpNames(GiveBack(r, e));
    }
  }

  lemma {:induction false} DiscardAllNames(r: Registry, es: seq<EntryId>)
    requires InRange(r.queue, |r.entries|) && InRange(es, |r.entries|)
    ensures var t := DiscardAll(r, es); forall x :: 0 <= x < |r.entries| ==>
      t.entries[x].messageId == r.entries[x].messageId && t.entries[x].key == r.entries[x].key && t.entries[x].caption == r.entries[x].caption
    decreases |es|
  {
    hide Release;
    if es != [] {
      ReleaseKeepsNames(Dropped(r, es[0]), es[0]);
      DiscardAllNames(Discard(r, es[0]), es[1..]);
    }
  }

  lemma StartAdvances(r: Registry, step: Step)
    requires Inv(r) && step.Start? && Sound(r)
    ensures Advances(r, step, StartRun(r, step.messageId, step.key, step.caption, step.callable, step.force))
  {
    hide EntriesOk, LaunchedOk, ReleasedOk, SavesOk, QueueOk, RunsOk, Holders, Discard, Members;
    var id := RunId(step.messageId, step.key);
    if id in r.runs.at {
      MemberAt(r.entries, r.runs, id);
      DiscardKeeps(r, r.runs.at[id]);
      DiscardAdvances(r, step, r.runs.at[id]);
    }
    var d := if id in r.runs.at then Discard(r, r.runs.at[id]) else r;
    var q := Enqueued(d, step.messageId, step.key, step.caption);
    MembersPut(d.runs, id, |d.entries|);
    EnqueuedKeeps(d, step.messageId, step.key, step.caption);
    PumpKeeps(q);
    PumpNames(q);
  }

  lemma CancelAdvances(r: Registry, step: Step)
    requires Inv(r) && step.Cancel? && Sound(r)
    ensures Advances(r, step, CancelRun(r, step.messageId, step.key))
  {
    hide Core, Members, Discard;
    var id := RunId(step.messageId, step.key);
    if id in r.runs.at {
      ListedAt(r, id);
      DiscardAdvances(r, step, r.runs.at[id]);
    }
  }

  lemma AbortAdvances(r: Registry)
    requires Inv(r) && Sound(r) && r.runs.Wf()
    ensures Advances(r, AbortAll, AbortAllRuns(r))
  {
    hide Core, Members, DiscardAll;
    AbortAllKeeps(r);
    DiscardAllNames(r.(queue := []), Values(r.runs.order, r.runs.at));
  }

  lemma SettleAdvances(r: Registry, step: Step)
    requires Inv(r) && (step.Delta? || step.Resolve? || step.Reject?) && Enabled(r, step)
    ensures Advances(r, step, Apply(r, step))
  {
    hide Core, Members;
    CurrentMember(r, step.e);
    if step.Resolve? {
      ResolveKeeps(r, step.e, step.text, step.now, step.ok);
    } else if step.Reject? {
      RejectKeeps(r, step.e, step.abortError, step.message);
    }
  }

  lemma FinallyAdvances(r: Registry, e: EntryId)
    requires Inv(r) && e < |r.entries| && r.entries[e].phase.Answered? && InRange(r.queue, |r.entries|)
    ensures Advances(r, Finally(e), OnFinally(r, e))
  {
    hide Core, Members, Release;
    ReleaseKeepsNames(Set(r, e, r.entries[e].(phase := Over)), e);
    FinallySaves(r, e);
  }

  lemma StepAdvances(r: Registry, step: Step)
    requires Inv(r)
    ensures Advances(r, step, Apply(r, step))
  {
    hide Inv, Members, Advances, StartRun, CancelRun, AbortAllRuns, OnFinally, OnDelta, OnResolve, OnReject;
    CoreSound(r) by { CoreOf(r); }
    Same(r, step);
    if Enabled(r, step) {
      match step
      case Start(_, _, _, _, _) => StartAdvances(r, step);
      case Cancel(_, _) => CancelAdvances(r, step);
      case AbortAll => AbortAdvances(r);
      case Finally(e) => FinallyAdvances(r, e);
      case _ => SettleAdvances(r, step);
    }
  }

  lemma Same(r: Registry, step: Step)
    ensures Advances(r, step, r)
  {
  }

  lemma ListedAt(r: Registry, id: string)
    requires Inv(r) && id in r.runs.at
    ensures r.runs.at[id] < |r.entries| && r.runs.at[id] in Members(r.runs)
  {
  }

  lemma CurrentMember(r: Registry, e: EntryId)
    requires Inv(r) && e < |r.entries|
    ensures Current(r, e) <==> e in Members(r.runs)
  {
    IsListed(r, e);
  }

  lemma FinallySaves(r: Registry, e: EntryId)
    requires Inv(r) && e < |r.entries| && r.entries[e].phase.Answered? && InRange(r.queue, |r.entries|)
    ensures var t := OnFinally(r, e); t.saves == r.saves && t.runs == r.runs && |t.entries| == |r.entries|
  {
    hide Core;
    FinallyKeeps(r, e);
  }

  /** A run that has left the registry never comes back, and saves nothing any more. */
  lemma {:induction false} GoneForGood(r: Registry, steps: seq<Step>, e: EntryId)
    requires Inv(r) && e < |r.entries| && !Current(r, e)
    ensures var t := Run(r, steps);
      && e < |t.entries| && !Current(t, e) && |r.saves| <= |t.saves| && t.saves[..|r.saves|] == r.saves
      && forall i :: |r.saves| <= i < |t.saves| ==> t.saves[i].entry != e
    decreases |steps|
  {
    hide Core, Members, Apply;
    if steps != [] {
      var before := Run(r, steps[..|steps| - 1]);
      GoneForGood(r, steps[..|steps| - 1], e);
      StepAdvances(before, steps[|steps| - 1]);
      StepKeeps(before, steps[|steps| - 1]);
      var t := Run(r, steps);
      CurrentMember(before, e);
      CurrentMember(t, e);
    }
  }

  // ---- discarded runs -----------------------------------------------------------------------------

  /** A discarded run: it has no slot any more, and its stream, if it was launched, is aborted. */
  ghost predicate Aborted(before: Entry, after: Entry) {
    && after == before.(ctrl := after.ctrl, holdsSlot := false)
    && (if before.phase.Waiting? then after.ctrl.None? else after.ctrl == Some(true))
  }

  lemma DiscardEnds(r: Registry, e: EntryId)
    requires Inv(r) && InRange(r.queue, |r.entries|) && e < |r.entries| && e in Members(r.runs)
    ensures var t := Discard(r, e);
      && |t.entries| == |r.entries| && Aborted(r.entries[e], t.entries[e]) && e !in t.queue
      && forall x :: 0 <= x < |r.entries| && x != e ==> Undisturbed(r.entries[x], t.entries[x], true)
  {
    hide RunsOk, EntriesOk, ReleasedOk, SavesOk, LaunchedOk, Holders, Members;
    EntryAt(r.entries, Members(r.runs), e);
    DroppedKeeps(r, e);
    ReleaseKeeps(Dropped(r, e), e);
    DiscardKeeps(r, e);
  }

  /** Cancelling aborts the run and takes it off registry and queue; the others go on, but that the freed slot
      may let waiting runs start. */
  lemma CancelAborts(r: Registry, messageId: string, key: string)
    requires Inv(r) && RunId(messageId, key) in r.runs.at
    ensures var t := Apply(r, Cancel(messageId, key)); var e := r.runs.at[RunId(messageId, key)];
      && e < |r.entries| == |t.entries| && t.runs == r.runs.Drop(RunId(messageId, key))
      && Aborted(r.entries[e], t.entries[e]) && e !in t.queue
      && forall x :: 0 <= x < |r.entries| && x != e ==> Undisturbed(r.entries[x], t.entries[x], true)
  {
    hide Core, Discard, Members, Aborted, Undisturbed;
    CoreSound(r) by { CoreOf(r); }
    var id := RunId(messageId, key);
    MemberAt(r.entries, r.runs, id) by { RunsOf(r); }
    DiscardEnds(r, r.runs.at[id]);
    DiscardKeeps(r, r.runs.at[id]);
  }

  lemma RunsOf(r: Registry)
    requires Inv(r)
    ensures RunsOk(r.entries, r.runs) && EntriesOk(r.entries, Members(r.runs))
  {
  }

  lemma {:induction false} DiscardAllEnds(r: Registry, es: seq<EntryId>)
    requires r.queue == [] && InRange(es, |r.entries|)
    ensures var t := DiscardAll(r, es);
      && t.queue == [] && |t.entries| == |r.entries|
      && forall x :: 0 <= x < |r.entries| ==>
           var before, after := r.entries[x], t.entries[x];
           if x in es
           then after == before.(ctrl := after.ctrl, holdsSlot := false) && (after.ctrl == if before.ctrl.Some? then Some(true) else None)
           else after == before
    decreases |es|
  {
    if es != [] {
      assert es == [es[0]] + es[1..];
      DiscardAllEnds(Discard(r, es[0]), es[1..]);
    }
  }

  /** Aborting everything aborts every run the registry has, launches none, and leaves the entries of earlier
      runs as they were. */
  lemma AbortAllAborts(r: Registry)
    requires Inv(r)
    ensures var t := Apply(r, AbortAll);
      && t.runs.at == map[] && t.queue == [] && |t.entries| == |r.entries|
      && forall x :: 0 <= x < |r.entries| ==>
           if Current(r, x) then Aborted(r.entries[x], t.entries[x]) else t.entries[x] == r.entries[x]
  {
    hide Core, DiscardAll, EntryOk, EntriesOk, RunsOk;
    CoreSound(r) by { CoreOf(r); }
    RunsOf(r);
    AbortAllKeeps(r);
    var t := Apply(r, AbortAll);
    var es := Values(r.runs.order, r.runs.at);
    DiscardAllEnds(r.(queue := []), es);
    KeyedOnce(r.entries, r.runs);
    ValuesAre(r.runs.order, r.runs.at);
    assert forall id :: id in t.runs.at ==> t.runs.at[id] in Members(t.runs);
    forall x | 0 <= x < |r.entries|
      ensures if Current(r, x) then Aborted(r.entries[x], t.entries[x]) else t.entries[x] == r.entries[x]
    {
      CurrentMember(r, x);
      EntryAt(r.entries, Members(r.runs), x);
      CtrlIs(r.entries[x], x in Members(r.runs));
    }
  }

  lemma CtrlIs(entry: Entry, listed: bool)
    requires EntryOk(entry, listed)
    ensures entry.ctrl.None? <==> entry.phase.Waiting?
  {
  }

  /** A start that replaces a run aborts it. */
  lemma ReplacedIsAborted(r: Registry, messageId: string, key: string, caption: string, force: bool)
    requires Inv(r) && messageId != "" && key != "" && RunId(messageId, key) in r.runs.at
    requires var e := r.runs.at[RunId(messageId, key)]; force || (e < |r.entries| && (r.entries[e].phase.Answered? || r.entries[e].phase.Over?))
    ensures var t := Apply(r, Start(messageId, key, caption, true, force)); var e := r.runs.at[RunId(messageId, key)];
      e < |r.entries| < |t.entries| && Aborted(r.entries[e], t.entries[e]) && e !in t.queue
  {
    hide RunsOk, EntriesOk, ReleasedOk, SavesOk, LaunchedOk, QueueOk, Holders, Members, Discard;
    CoreSound(r);
    var id := RunId(messageId, key);
    MemberAt(r.entries, r.runs, id);
    var e := r.runs.at[id];
    EntryAt(r.entries, Members(r.runs), e);
    DiscardEnds(r, e);
    DiscardKeeps(r, e);
    var q := Enqueued(Discard(r, e), messageId, key, caption);
    EnqueuedKeeps(Discard(r, e), messageId, key, caption);
    PumpKeeps(q);
    var t := Pump(q);
    assert t.launched + t.queue == q.launched + q.queue;
    NotQueuedAgain(q, t, e);
  }

  lemma NotQueuedAgain(q: Registry, t: Registry, e: EntryId)
    requires Pumped(q, t)
    ensures e in t.queue ==> e in q.queue
  {
    if i :| 0 <= i < |t.queue| && t.queue[i] == e {
      assert (t.launched + t.queue)[|t.launched| + i] == e;
      assert (q.launched + q.queue)[|t.launched| + i] == q.queue[|t.launched| + i - |q.launched|];
    }
  }

  /** What a listed run's callback shows: the text so far; without a text or with an error the run stays listed
      with it; an abort or a result takes it off. No callback before finally touches another entry. */
  lemma CallbackShows(r: Registry, step: Step, e: EntryId)
    requires Inv(r) && Caller(step) == Some(e) && !step.Finally? && Enabled(r, step) && Current(r, e)
    ensures var t := Apply(r, step);
      && |t.entries| == |r.entries| && (forall x :: 0 <= x < |r.entries| && x != e ==> t.entries[x] == r.entries[x])
      && match step
         case Delta(_, text) => t.runs == r.runs && t.entries[e] == r.entries[e].(text := text)
         case Resolve(_, text, _, _) =>
           if text == "" then t.runs == r.runs && View(t.entries[e]) == RunView(Done, "", r.entries[e].caption) && t.saves == r.saves
           else t.runs == r.runs.Drop(IdOf(r.entries[e]))
         case Reject(_, abortError, message) =>
           if abortError then t.runs == r.runs.Drop(IdOf(r.entries[e])) && t.saves == r.saves
           else t.runs == r.runs && View(t.entries[e]) == RunView(Error, message, r.entries[e].caption) && t.saves == r.saves
         case _ => true
  {
    hide Core;
  }

  // ---- results ------------------------------------------------------------------------------------

  /** A listed run that resolves with text calls saveResult once, under its own message and action, and that
      is the last the registry hears of it; the pane of the message finds the text when the write succeeds. */
  lemma ResultIsSaved(r: Registry, e: EntryId, text: string, now: nat, ok: bool)
    requires Inv(r) && e < |r.entries| && Current(r, e) && r.entries[e].phase.Streaming? && text != ""
    ensures var t := Apply(r, Resolve(e, text, now, ok)); var entry := r.entries[e];
      && t.saves == r.saves + [SaveCall(e, entry.messageId, entry.key, text, entry.caption)]
      && (forall i :: 0 <= i < |r.saves| ==> r.saves[i].entry != e)
      && !Current(t, e)
      && (ok && R.Wf(R.Read(r.stored)) && entry.messageId != "" && entry.key != "" ==>
            var shown := R.ResultsOf(R.Read(t.stored), entry.messageId);
            entry.key in shown && shown[entry.key] == R.Result(text, now, entry.caption))
  {
    hide EntriesOk, LaunchedOk, ReleasedOk, QueueOk, RunsOk, Holders, Members, R.Saved, R.Wf;
    var entry := r.entries[e];
    CurrentMember(r, e);
    ResolveKeeps(r, e, text, now, ok);
    CurrentMember(Apply(r, Resolve(e, text, now, ok)), e);
    if ok && R.Wf(R.Read(r.stored)) && entry.messageId != "" && entry.key != "" {
      R.SavedIsRead(R.Read(r.stored), entry.messageId, entry.key, R.Result(text, now, entry.caption));
    }
  }

  /** Starting a run: a request without message, action or function does nothing; a run that is queued or
      streaming is reused, unless it is forced; otherwise the new one, with a number above all others, is what
      the registry has for the message and action, and it waits or streams without text. */
  lemma StartReplaces(r: Registry, messageId: string, key: string, caption: string, callable: bool, force: bool)
    requires Inv(r)
    ensures var t := Apply(r, Start(messageId, key, caption, callable, force)); var id := RunId(messageId, key);
      if messageId == "" || key == "" || !callable then t == r
      else if id in r.runs.at && !force && r.runs.at[id] in r.queue then t == r
      else if id in r.runs.at && !force && r.runs.at[id] < |r.entries| && r.entries[r.runs.at[id]].phase.Streaming? then t == r
      else id in t.runs.at && t.runs.at[id] == |r.entries| && |t.entries| == |r.entries| + 1 &&
           View(t.entries[|r.entries|]) == RunView(Loading, "", caption) &&
           forall x :: x in r.runs.at && x != id ==> x in t.runs.at && t.runs.at[x] == r.runs.at[x]
  {
    hide EntriesOk, LaunchedOk, ReleasedOk, SavesOk, Holders, QueueOk, Members, RunsOk, Discard, Pump, Enqueued, IdOf;
    CoreSound(r);
    var id := RunId(messageId, key);
    if messageId != "" && key != "" && callable {
      if id in r.runs.at {
        ListedAt(r, id);
        MemberAt(r.entries, r.runs, id);
        var e := r.runs.at[id];
        QueueIs(r, e);
        EntryAt(r.entries, Members(r.runs), e);
        DiscardKeeps(r, e);
        NewIsShown(Discard(r, e), messageId, key, caption);
      } else {
        NewIsShown(r, messageId, key, caption);
      }
    }
  }

  /** A run that enters is the one the registry has; it waits or streams, without text. */
  lemma NewIsShown(r: Registry, messageId: string, key: string, caption: string)
    requires Inv(r) && InRange(r.queue, |r.entries|) && RunId(messageId, key) !in r.runs.at
    ensures var t := Pump(Enqueued(r, messageId, key, caption)); var id := RunId(messageId, key);
      && id in t.runs.at && t.runs.at[id] == |r.entries| && |t.entries| == |r.entries| + 1
      && View(t.entries[|r.entries|]) == RunView(Loading, "", caption)
      && forall x :: x in r.runs.at ==> x in t.runs.at && t.runs.at[x] == r.runs.at[x]
  {
    hide EntriesOk, LaunchedOk, ReleasedOk, SavesOk, Holders, QueueOk, Members, RunsOk, Pump;
    EnqueuedKeeps(r, messageId, key, caption);
    PumpKeeps(Enqueued(r, messageId, key, caption));
  }
}
