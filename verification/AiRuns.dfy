/** The background registry of AI runs (frontend/src/aiRuns.js): at most three runs stream at once, further ones
    wait in a FIFO queue; runs can be cancelled, replaced or finish late. */
module AiRuns {
  import opened Wrappers
  import opened Dicts
  import R = AiResults

  const MAX_CONCURRENT_RUNS := 3

  datatype Status = Queued | Loading | Done | Error

  /** How far the promise of an entry is: not launched, running, its then-callback run, its finally run. */
  datatype Phase = Waiting | Streaming | Answered | Over

  /** One run. ctrl: its AbortController, once launched, and whether it was aborted. */
  datatype Entry = Entry(messageId: string, key: string, caption: string, status: Status, text: string,
                         ctrl: Option<bool>, holdsSlot: bool, phase: Phase)

  type EntryId = nat

  /** A call of saveResult, and the run that made it. */
  datatype SaveCall = SaveCall(entry: EntryId, messageId: string, key: string, text: string, caption: string)

  /** The module's state. Entries are numbered as they are created. launched, released and saves are history:
      entries launched, entries whose slot was given back, calls of saveResult. */
  datatype Registry = Registry(entries: seq<Entry>, runs: Dict<string, EntryId>, queue: seq<EntryId>, active: int,
                               stored: R.Stored, launched: seq<EntryId>, released: seq<EntryId>, saves: seq<SaveCall>)

  function RunId(messageId: string, key: string): string {
    messageId + ['\0'] + key
  }

  function IdOf(entry: Entry): string {
    RunId(entry.messageId, entry.key)
  }

  predicate Current(r: Registry, e: EntryId)
    requires e < |r.entries|
  {
    IdOf(r.entries[e]) in r.runs.at && r.runs.at[IdOf(r.entries[e])] == e
  }

  // ---- the module's functions ---------------------------------------------------------------------

  function Set(r: Registry, e: EntryId, entry: Entry): Registry
    requires e < |r.entries|
  {
    r.(entries := r.entries[e := entry])
  }

  function Launch(r: Registry, e: EntryId): Registry
    requires e < |r.entries|
  {
    Set(r, e, r.entries[e].(status := Loading, ctrl := Some(false), holdsSlot := true, phase := Streaming))
    .(active := r.active + 1, launched := r.launched + [e])
  }

  ghost predicate InRange(s: seq<EntryId>, n: nat) {
    forall i :: 0 <= i < |s| ==> s[i] < n
  }

  function Pump(r: Registry): (t: Registry)
    requires InRange(r.queue, |r.entries|)
    ensures |t.entries| == |r.entries| && InRange(t.queue, |t.entries|) && t.runs == r.runs
    decreases |r.queue|
  {
    if r.active < MAX_CONCURRENT_RUNS && r.queue != []
    then Pump(Launch(r.(queue := r.queue[1..]), r.queue[0]))
    else r
  }

  function GiveBack(r: Registry, e: EntryId): Registry
    requires e < |r.entries|
  {
    Set(r, e, r.entries[e].(holdsSlot := false)).(active := r.active - 1, released := r.released + [e])
  }

  function Release(r: Registry, e: EntryId): (t: Registry)
    requires e < |r.entries| && InRange(r.queue, |r.entries|)
    ensures |t.entries| == |r.entries| && InRange(t.queue, |t.entries|) && t.runs == r.runs
  {
    if r.entries[e].holdsSlot then Pump(GiveBack(r, e)) else r
  }

  /** queue without the first e. */
  function Unqueued(queue: seq<EntryId>, e: EntryId): (q: seq<EntryId>)
    ensures forall x :: x in q ==> x in queue
  {
    if queue == [] then [] else if queue[0] == e then queue[1..] else [queue[0]] + Unqueued(queue[1..], e)
  }

  /** The entry leaves registry and queue and is aborted; its slot is still its own. */
  function Dropped(r: Registry, e: EntryId): (t: Registry)
    requires e < |r.entries| && InRange(r.queue, |r.entries|)
    ensures |t.entries| == |r.entries| && InRange(t.queue, |t.entries|)
  {
    var entry := r.entries[e];
    assert forall i :: 0 <= i < |Unqueued(r.queue, e)| ==> Unqueued(r.queue, e)[i] in r.queue;
    Set(r, e, entry.(ctrl := if entry.ctrl.Some? then Some(true) else None))
    .(runs := r.runs.Drop(IdOf(entry)), queue := Unqueued(r.queue, e))
  }

  function Discard(r: Registry, e: EntryId): (t: Registry)
    requires e < |r.entries| && InRange(r.queue, |r.entries|)
    ensures |t.entries| == |r.entries| && InRange(t.queue, |t.entries|)
  {
    Release(Dropped(r, e), e)
  }

  function NewEntry(messageId: string, key: string, caption: string): Entry {
    Entry(messageId, key, caption, Queued, "", None, false, Waiting)
  }

  /** A new entry enters registry and queue. */
  function Enqueued(r: Registry, messageId: string, key: string, caption: string): (t: Registry)
    requires InRange(r.queue, |r.entries|)
    ensures InRange(t.queue, |t.entries|)
  {
    var e := |r.entries|;
    r.(entries := r.entries + [NewEntry(messageId, key, caption)], runs := r.runs.Put(RunId(messageId, key), e), queue := r.queue + [e])
  }

  ghost predicate Sound(r: Registry) {
    InRange(r.queue, |r.entries|) && forall id :: id in r.runs.at ==> r.runs.at[id] < |r.entries|
  }

  /** callable: run is a function. */
  function StartRun(r: Registry, messageId: string, key: string, caption: string, callable: bool, force: bool): Registry
    requires Sound(r)
  {
    var id := RunId(messageId, key);
    if messageId == "" || key == "" || !callable then r
    else if id in r.runs.at && !force && (r.entries[r.runs.at[id]].status.Queued? || r.entries[r.runs.at[id]].status.Loading?) then r
    else
      var d := if id in r.runs.at then Discard(r, r.runs.at[id]) else r;
      Pump(Enqueued(d, messageId, key, caption))
  }

  function CancelRun(r: Registry, messageId: string, key: string): Registry
    requires Sound(r)
  {
    var id := RunId(messageId, key);
    if id in r.runs.at then Discard(r, r.runs.at[id]) else r
  }

  function DiscardAll(r: Registry, es: seq<EntryId>): (t: Registry)
    requires InRange(r.queue, |r.entries|) && InRange(es, |r.entries|)
    ensures |t.entries| == |r.entries| && InRange(t.queue, |t.entries|)
    decreases |es|
  {
    if es == [] then r else DiscardAll(Discard(r, es[0]), es[1..])
  }

  /** The values of a dictionary in its order. */
  function Values(order: seq<string>, at: map<string, EntryId>): (es: seq<EntryId>)
    requires forall id :: id in order ==> id in at
    ensures |es| == |order| && forall i :: 0 <= i < |order| ==> es[i] == at[order[i]]
  {
    if order == [] then [] else [at[order[0]]] + Values(order[1..], at)
  }

  function AbortAllRuns(r: Registry): Registry
    requires Sound(r) && r.runs.Wf()
  {
    DiscardAll(r.(queue := []), Values(r.runs.order, r.runs.at))
  }

  // ---- what a launched promise does, some time later ----------------------------------------------

  function OnDelta(r: Registry, e: EntryId, text: string): Registry
    requires e < |r.entries|
  {
    if Current(r, e) then Set(r, e, r.entries[e].(text := text)) else r
  }

  /** The run resolves with text at time now; ok: localStorage takes the write. */
  function OnResolve(r: Registry, e: EntryId, text: string, now: nat, ok: bool): Registry
    requires e < |r.entries|
  {
    var entry := r.entries[e];
    var t := Set(r, e, entry.(phase := Answered));
    if !Current(r, e) then t
    else if text != "" then
      t.(stored := R.Called(r.stored, R.Save(entry.messageId, entry.key, R.Result(text, now, entry.caption), ok)),
         saves := r.saves + [SaveCall(e, entry.messageId, entry.key, text, entry.caption)],
         runs := r.runs.Drop(IdOf(entry)))
    else Set(t, e, t.entries[e].(status := Done, text := ""))
  }

  function OnReject(r: Registry, e: EntryId, abortError: bool, message: string): Registry
    requires e < |r.entries|
  {
    var entry := r.entries[e];
    var t := Set(r, e, entry.(phase := Answered));
    if !Current(r, e) then t
    else if abortError then t.(runs := r.runs.Drop(IdOf(entry)))
    else Set(t, e, t.entries[e].(status := Error, text := message))
  }

  function OnFinally(r: Registry, e: EntryId): Registry
    requires e < |r.entries| && InRange(r.queue, |r.entries|)
  {
    Release(Set(r, e, r.entries[e].(phase := Over)), e)
  }

  // ---- what panes read ----------------------------------------------------------------------------

  datatype RunView = RunView(status: Status, text: string, caption: string)

  function View(entry: Entry): RunView {
    RunView(if entry.status.Queued? then Loading else entry.status, entry.text, entry.caption)
  }

  /** out is what the registry has of a message. */
  ghost predicate ShowsRuns(r: Registry, messageId: string, out: map<string, RunView>)
    requires Sound(r)
  {
    && (forall k :: k in out ==>
          exists id :: id in r.runs.at && var entry := r.entries[r.runs.at[id]]; entry.messageId == messageId && entry.key == k)
    && (forall id :: id in r.runs.at ==>
          var entry := r.entries[r.runs.at[id]]; entry.messageId == messageId ==> entry.key in out && out[entry.key] == View(entry))
  }

  /** state is the stored results of a message as finished runs, under the runs shown for it. */
  ghost predicate Overlaid(results: map<string, R.Result>, shown: map<string, RunView>, state: map<string, RunView>) {
    && state.Keys == results.Keys + shown.Keys
    && forall k :: k in state ==>
         state[k] == if k in shown then shown[k] else RunView(Done, results[k].text, results[k].caption)
  }

  /** Every entry of the registry is filed under its own ID. */
  ghost predicate Keyed(r: Registry)
    requires Sound(r)
  {
    forall id :: id in r.runs.at ==> IdOf(r.entries[r.runs.at[id]]) == id
  }
}
