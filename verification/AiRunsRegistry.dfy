/** The module's state updated in place. Every function it exports and every callback of a promise is a step of
    AiRunsSafety and keeps its invariant, from the first state on. */
module AiRunsRegistry {
  import opened Wrappers
  import opened Dicts
  import opened AiRuns
  import R = AiResults
  import V = AiRunsSafety

  /** Starting a run, as one step. */
  lemma Starts(r: Registry, messageId: string, key: string, caption: string, callable: bool, force: bool)
    requires V.Inv(r)
    ensures Sound(r)
    ensures var t := StartRun(r, messageId, key, caption, callable, force);
      && V.Apply(r, V.Start(messageId, key, caption, callable, force)) == t && V.Inv(t) && t.stored == r.stored && t.saves == r.saves
      && (messageId != "" && key != "" && callable ==> RunId(messageId, key) in t.runs.at)
  {
    hide V.Core, Discard;
    V.CoreSound(r);
    V.StartKeeps(r, messageId, key, caption, callable, force);
  }

  lemma MembersAreListed(runs: Dict<string, EntryId>)
    ensures forall id :: id in runs.at ==> runs.at[id] in V.Members(runs)
  {
  }

  /** Aborting everything, as one step. */
  lemma AbortsAll(r: Registry)
    requires V.Inv(r)
    ensures Sound(r) && r.runs.Wf()
    ensures var t := AbortAllRuns(r);
      V.Apply(r, V.AbortAll) == t && V.Inv(t) && t.runs.at == map[] && t.queue == [] && t.stored == r.stored && t.saves == r.saves
    ensures AbortAllRuns(r) == DiscardAll(r.(queue := []), Values(r.runs.order, r.runs.at))
  {
    hide V.Core, DiscardAll;
    V.CoreSound(r);
    V.AbortAllKeeps(r);
    var t := AbortAllRuns(r);
    MembersAreListed(t.runs);
  }

  /** out has what the first n entries of the registry show of a message, and nothing else. */
  ghost predicate ShowsFirst(r: Registry, messageId: string, n: nat, out: map<string, RunView>)
    requires Sound(r) && r.runs.Wf() && n <= |r.runs.order|
  {
    && (forall k :: k in out ==>
          exists id :: id in r.runs.at && var entry := r.entries[r.runs.at[id]]; entry.messageId == messageId && entry.key == k)
    && (forall i :: 0 <= i < n ==>
          var entry := r.entries[r.runs.at[r.runs.order[i]]];
          entry.messageId == messageId ==> entry.key in out && out[entry.key] == View(entry))
  }

  lemma ShowsNone(r: Registry, messageId: string)
    requires Sound(r) && r.runs.Wf()
    ensures ShowsFirst(r, messageId, 0, map[])
  {
  }

  lemma ShowsNext(r: Registry, messageId: string, n: nat, out: map<string, RunView>)
    requires Sound(r) && Keyed(r) && r.runs.Wf() && n < |r.runs.order| && ShowsFirst(r, messageId, n, out)
    ensures var entry := r.entries[r.runs.at[r.runs.order[n]]];
      ShowsFirst(r, messageId, n + 1, if entry.messageId == messageId then out[entry.key := View(entry)] else out)
  {
    hide IdOf, View;
    var entry := r.entries[r.runs.at[r.runs.order[n]]];
    if entry.messageId == messageId {
      forall i | 0 <= i < n && r.entries[r.runs.at[r.runs.order[i]]].messageId == messageId
        ensures r.entries[r.runs.at[r.runs.order[i]]].key != entry.key
      {
        KeysApart(r.entries[r.runs.at[r.runs.order[i]]], entry);
      }
    }
  }

  /** Two runs of one message differ in their action. */
  lemma KeysApart(a: Entry, b: Entry)
    requires IdOf(a) != IdOf(b) && a.messageId == b.messageId
    ensures a.key != b.key
  {
  }

  lemma ShowsAll(r: Registry, messageId: string, out: map<string, RunView>)
    requires Sound(r) && r.runs.Wf() && ShowsFirst(r, messageId, |r.runs.order|, out)
    ensures ShowsRuns(r, messageId, out)
  {
    hide View;
    forall id | id in r.runs.at
      ensures var entry := r.entries[r.runs.at[id]]; entry.messageId == messageId ==> entry.key in out && out[entry.key] == View(entry)
    {
      assert id in r.runs.order;
    }
  }

  class RunRegistry {
    var entries: seq<Entry>
    var runs: Dict<string, EntryId>
    var queue: seq<EntryId>
    var active: int
    var stored: R.Stored
    var launched: seq<EntryId>
    var released: seq<EntryId>
    var saves: seq<SaveCall>

    function State(): Registry
      reads this
    {
      Registry(entries, runs, queue, active, stored, launched, released, saves)
    }

    /** What holds between the calls of the module and the callbacks of its promises. */
    ghost predicate Valid()
      reads this
    {
      V.Inv(State())
    }

    constructor (stored: R.Stored)
      ensures Valid() && State() == Registry([], EmptyDict(), [], 0, stored, [], [], [])
    {
      entries, runs, queue, active, this.stored, launched, released, saves := [], EmptyDict(), [], 0, stored, [], [], [];
    }

    method LaunchEntry(e: EntryId)
      requires e < |entries|
      modifies this
      ensures State() == Launch(old(State()), e)
    {
      active := active + 1;
      entries := entries[e := entries[e].(holdsSlot := true, status := Loading, ctrl := Some(false), phase := Streaming)];
      launched := launched + [e];
    }

    method PumpQueue()
      requires InRange(queue, |entries|)
      modifies this
      ensures State() == Pump(old(State()))
    {
      while active < MAX_CONCURRENT_RUNS && queue != []
        invariant InRange(queue, |entries|) && Pump(State()) == Pump(old(State()))
        decreases |queue|
      {
        var e := queue[0];
        queue := queue[1..];
        LaunchEntry(e);
      }
    }

    method ReleaseEntry(e: EntryId)
      requires e < |entries| && InRange(queue, |entries|)
      modifies this
      ensures State() == Release(old(State()), e)
    {
      if !entries[e].holdsSlot {
        return;
      }
      entries := entries[e := entries[e].(holdsSlot := false)];
      active := active - 1;
      released := released + [e];
      PumpQueue();
    }

    method DiscardEntry(e: EntryId)
      requires e < |entries| && InRange(queue, |entries|)
      modifies this
      ensures State() == Discard(old(State()), e)
    {
      ghost var was := State();
      runs := runs.Drop(IdOf(entries[e]));
      queue := Unqueued(queue, e);
      if entries[e].ctrl.Some? {
        entries := entries[e := entries[e].(ctrl := Some(true))];
      }
      assert State() == Dropped(was, e);
      ReleaseEntry(e);
    }

    method Start(messageId: string, key: string, caption: string, callable: bool, force: bool)
      requires Valid()
      modifies this
      ensures Valid() && State() == V.Apply(old(State()), V.Start(messageId, key, caption, callable, force))
      ensures messageId != "" && key != "" && callable ==> RunId(messageId, key) in runs.at
      ensures stored == old(stored) && saves == old(saves)
    {
      hide V.Inv, V.Apply, Discard, Pump, V.RunsOk;
      Starts(State(), messageId, key, caption, callable, force);
      if messageId == "" || key == "" || !callable {
        return;
      }
      var id := RunId(messageId, key);
      if id in runs.at {
        var existing := runs.at[id];
        if !force && (entries[existing].status.Queued? || entries[existing].status.Loading?) {
          return;
        }
        DiscardEntry(existing);
      }
      var e := |entries|;
      entries := entries + [NewEntry(messageId, key, caption)];
      runs := runs.Put(id, e);
      queue := queue + [e];
      PumpQueue();
    }

    method Cancel(messageId: string, key: string)
      requires Valid()
      modifies this
      ensures Valid() && State() == V.Apply(old(State()), V.Cancel(messageId, key))
      ensures RunId(messageId, key) !in runs.at && stored == old(stored) && saves == old(saves)
    {
      hide V.Core;
      V.CoreSound(State());
      V.CancelKeeps(State(), messageId, key);
      var id := RunId(messageId, key);
      if id in runs.at {
        DiscardEntry(runs.at[id]);
      }
    }

    /** Every entry of all is discarded. */
    method DiscardEach(all: seq<EntryId>)
      requires InRange(queue, |entries|) && InRange(all, |entries|)
      modifies this
      ensures State() == DiscardAll(old(State()), all)
    {
      hide Discard;
      ghost var was := State();
      var i := 0;
      while i < |all|
        invariant 0 <= i <= |all| && InRange(queue, |entries|) && |entries| == |was.entries|
        invariant DiscardAll(State(), all[i..]) == DiscardAll(was, all)
      {
        assert all[i..][0] == all[i] && all[i..][1..] == all[i + 1..];
        DiscardEntry(all[i]);
        i := i + 1;
      }
    }

    method AbortAll()
      requires Valid()
      modifies this
      ensures Valid() && State() == V.Apply(old(State()), V.AbortAll)
      ensures runs.at == map[] && queue == [] && stored == old(stored) && saves == old(saves)
    {
      hide V.Inv, V.Apply, DiscardAll, AbortAllRuns;
      AbortsAll(State());
      var all := Values(runs.order, runs.at);
      queue := [];
      DiscardEach(all);
    }

    method Delta(e: EntryId, text: string)
      requires Valid() && V.Enabled(State(), V.Delta(e, text))
      modifies this
      ensures Valid() && State() == V.Apply(old(State()), V.Delta(e, text))
    {
      hide V.Core;
      V.DeltaKeeps(State(), e, text);
      if Current(State(), e) {
        entries := entries[e := entries[e].(text := text)];
      }
    }

    method Resolve(e: EntryId, text: string, now: nat, ok: bool)
      requires Valid() && V.Enabled(State(), V.Resolve(e, text, now, ok))
      modifies this
      ensures Valid() && State() == V.Apply(old(State()), V.Resolve(e, text, now, ok))
    {
      hide V.Core;
      V.ResolveKeeps(State(), e, text, now, ok);
      entries := entries[e := entries[e].(phase := Answered)];
      if !Current(State(), e) {
        return;
      }
      var entry := entries[e];
      if text != "" {
        stored := R.Called(stored, R.Save(entry.messageId, entry.key, R.Result(text, now, entry.caption), ok));
        saves := saves + [SaveCall(e, entry.messageId, entry.key, text, entry.caption)];
        runs := runs.Drop(IdOf(entry));
      } else {
        entries := entries[e := entry.(status := Done, text := "")];
      }
    }

    method Reject(e: EntryId, abortError: bool, message: string)
      requires Valid() && V.Enabled(State(), V.Reject(e, abortError, message))
      modifies this
      ensures Valid() && State() == V.Apply(old(State()), V.Reject(e, abortError, message))
    {
      hide V.Core;
      V.RejectKeeps(State(), e, abortError, message);
      entries := entries[e := entries[e].(phase := Answered)];
      if !Current(State(), e) {
        return;
      }
      if abortError {
        runs := runs.Drop(IdOf(entries[e]));
      } else {
        entries := entries[e := entries[e].(status := Error, text := message)];
      }
    }

    method Finally(e: EntryId)
      requires Valid() && V.Enabled(State(), V.Finally(e))
      modifies this
      ensures Valid() && State() == V.Apply(old(State()), V.Finally(e))
    {
      hide V.Core;
      V.CoreSound(State());
      V.FinallyKeeps(State(), e);
      entries := entries[e := entries[e].(phase := Over)];
      ReleaseEntry(e);
    }

    /** getRuns: exactly the registry's entries of the message, queued ones as loading. */
    method GetRuns(messageId: string) returns (out: map<string, RunView>)
      requires Valid()
      ensures Sound(State())
      ensures if messageId == "" then out == map[] else ShowsRuns(State(), messageId, out)
    {
      assert Sound(State()) && Keyed(State()) && runs.Wf() by { V.CoreSound(State()); }
      hide V.Inv, V.Core, IdOf, View, ShowsFirst, ShowsRuns;
      out := map[];
      if messageId == "" {
        return;
      }
      var i := 0;
      assert ShowsFirst(State(), messageId, 0, out) by { ShowsNone(State(), messageId); }
      while i < |runs.order|
        invariant 0 <= i <= |runs.order|
        invariant ShowsFirst(State(), messageId, i, out)
      {
        ShowsNext(State(), messageId, i, out);
        var entry := entries[runs.at[runs.order[i]]];
        if entry.messageId == messageId {
          out := out[entry.key := View(entry)];
        }
        i := i + 1;
      }
      ShowsAll(State(), messageId, out);
    }

    /** getAiState: stored results, overlaid with the runs of the registry. */
    method GetAiState(messageId: string) returns (state: map<string, RunView>)
      requires Valid()
      ensures Sound(State())
      ensures messageId == "" ==> state == map[]
      ensures messageId != "" ==> exists shown ::
        ShowsRuns(State(), messageId, shown) && Overlaid(R.ResultsOf(R.Read(stored), messageId), shown, state)
    {
      V.CoreSound(State());
      hide V.Inv, V.Core, ShowsRuns, Sound, R.Read, R.ResultsOf;
      state := map[];
      if messageId == "" {
        return;
      }
      var results := R.ResultsOf(R.Read(stored), messageId);
      var todo := results.Keys;
      while todo != {}
        invariant todo <= results.Keys && state.Keys == results.Keys - todo
        invariant forall k :: k in state ==> state[k] == RunView(Done, results[k].text, results[k].caption)
        decreases todo
      {
        var k :| k in todo;
        state := state[k := RunView(Done, results[k].text, results[k].caption)];
        todo := todo - {k};
      }
      var shown := GetRuns(messageId);
      state := state + shown;
    }
  }
}
