/** The device's cache of AI results (frontend/src/aiResults.js): an LRU store of at most 200 messages, kept as
    an order list and a map in one stored value. */
module AiResults {
  import opened Wrappers
  import opened Dicts

  type MessageId = string
  type ActionKey = string

  const MSG_CAP := 200

  datatype Result = Result(text: string, at: nat, caption: string)

  datatype Store = Store(order: seq<MessageId>, data: map<MessageId, map<ActionKey, Result>>)

  /** What localStorage holds: nothing that parses to an object, or an object whose order need not be a list
      and whose data may be missing. */
  datatype Stored = Unreadable | Readable(order: Option<seq<MessageId>>, data: Option<map<MessageId, map<ActionKey, Result>>>)

  const EMPTY_STORE := Store([], map[])

  function Read(stored: Stored): Store {
    if stored.Readable? && stored.data.Some?
    then Store(if stored.order.Some? then stored.order.value else [], stored.data.value)
    else EMPTY_STORE
  }

  function Write(store: Store): Stored {
    Readable(Some(store.order), Some(store.data))
  }

  function ResultsOf(store: Store, m: MessageId): map<ActionKey, Result> {
    if m != "" && m in store.data then store.data[m] else map[]
  }

  // ---- the operations as functions ----------------------------------------------------------------

  /** Drop the oldest messages until n are left. */
  function Evicted(store: Store, n: nat): Store
    decreases |store.order|
  {
    if |store.order| <= n then store
    else Evicted(Store(store.order[1..], store.data - {store.order[0]}), n)
  }

  /** The result is filed and its message moved to the end. */
  function Filed(store: Store, m: MessageId, k: ActionKey, result: Result): Store {
    var known := if m in store.data then store.data[m] else map[];
    Store(Without(store.order, m) + [m], store.data[m := known[k := result]])
  }

  function Saved(store: Store, m: MessageId, k: ActionKey, result: Result): Store {
    if m == "" || k == "" then store else Evicted(Filed(store, m, k, result), MSG_CAP)
  }

  function Removed(store: Store, m: MessageId, k: ActionKey): Store {
    if m == "" || k == "" || m !in store.data || k !in store.data[m] then store
    else
      var rest := store.data[m] - {k};
      if rest == map[] then Store(Without(store.order, m), store.data - {m})
      else store.(data := store.data[m := rest])
  }

  // ---- the module's state -------------------------------------------------------------------------

  class AiResultsCache {
    var stored: Stored

    constructor (stored: Stored)
      ensures this.stored == stored
    {
      this.stored := stored;
    }

    method GetResults(m: MessageId) returns (results: map<ActionKey, Result>)
      ensures results == ResultsOf(Read(stored), m)
      ensures m == "" ==> results == map[]
    {
      var store := Read(stored);
      results := if m != "" && m in store.data then store.data[m] else map[];
    }

    /** ok: localStorage takes the write. */
    method SaveResult(m: MessageId, k: ActionKey, text: string, caption: string, now: nat, ok: bool)
      modifies this
      ensures stored == if m == "" || k == "" || !ok then old(stored)
                        else Write(Saved(Read(old(stored)), m, k, Result(text, now, caption)))
    {
      if m == "" || k == "" {
        return;
      }
      var store := Read(stored);
      var data, order := store.data, store.order;
      if m !in data {
        data := data[m := map[]];
      }
      data := data[m := data[m][k := Result(text, now, caption)]];
      order := Without(order, m);
      order := order + [m];
      ghost var full := Store(order, data);
      assert full.data == store.data[m := (if m in store.data then store.data[m] else map[])[k := Result(text, now, caption)]];
      while |order| > MSG_CAP
        invariant Evicted(Store(order, data), MSG_CAP) == Evicted(full, MSG_CAP)
        decreases |order|
      {
        var evicted := order[0];
        order := order[1..];
        data := data - {evicted};
      }
      if ok {
        stored := Write(Store(order, data));
      }
    }

    method RemoveResult(m: MessageId, k: ActionKey, ok: bool)
      modifies this
      ensures var store := Read(old(stored));
        stored == if m == "" || k == "" || m !in store.data || k !in store.data[m] || !ok then old(stored)
                  else Write(Removed(store, m, k))
    {
      if m == "" || k == "" {
        return;
      }
      var store := Read(stored);
      if m !in store.data || k !in store.data[m] {
        return;
      }
      var data, order := store.data, store.order;
      data := data[m := data[m] - {k}];
      if data[m] == map[] {
        data := data - {m};
        order := Without(order, m);
        assert data == store.data - {m};
      }
      if ok {
        stored := Write(Store(order, data));
      }
    }
  }

  // ---- well-formed stores -------------------------------------------------------------------------

  /** The order lists every message with results once, each has at least one, and there are at most n. */
  ghost predicate WfUpTo(store: Store, n: nat) {
    && Distinct(store.order) && |store.order| <= n
    && (forall m :: m in store.order <==> m in store.data)
    && (forall m :: m in store.data ==> m != "" && store.data[m] != map[])
  }

  ghost predicate Wf(store: Store) {
    WfUpTo(store, MSG_CAP)
  }

  // ---- a simple most-recently-saved list ----------------------------------------------------------

  /** One message with its results. */
  datatype Item = Item(id: MessageId, results: map<ActionKey, Result>)

  /** The reference model: items from the least to the most recently saved. */
  function ItemOf(items: seq<Item>, m: MessageId): map<ActionKey, Result> {
    if items == [] then map[] else if items[0].id == m then items[0].results else ItemOf(items[1..], m)
  }

  function OtherItems(items: seq<Item>, m: MessageId): seq<Item> {
    if items == [] then []
    else if items[0].id == m then OtherItems(items[1..], m)
    else [items[0]] + OtherItems(items[1..], m)
  }

  function Newest(items: seq<Item>, n: nat): seq<Item> {
    if |items| <= n then items else items[|items| - n..]
  }

  /** Saving moves the message to the end, and the newest 200 stay. */
  function SaveItem(items: seq<Item>, m: MessageId, k: ActionKey, result: Result): seq<Item> {
    if m == "" || k == "" then items
    else Newest(OtherItems(items, m) + [Item(m, ItemOf(items, m)[k := result])], MSG_CAP)
  }

  function RemoveItem(items: seq<Item>, m: MessageId, k: ActionKey): seq<Item>
    decreases items
  {
    if items == [] then []
    else if items[0].id != m then [items[0]] + RemoveItem(items[1..], m, k)
    else if items[0].results - {k} == map[] then items[1..]
    else [Item(m, items[0].results - {k})] + items[1..]
  }

  /** The list a store stands for. */
  function Items(order: seq<MessageId>, data: map<MessageId, map<ActionKey, Result>>): seq<Item>
    requires forall m :: m in order ==> m in data
  {
    seq(|order|, i requires 0 <= i < |order| => Item(order[i], data[order[i]]))
  }

  ghost predicate Represents(store: Store, items: seq<Item>) {
    Wf(store) && items == Items(store.order, store.data)
  }

  // ---- the store refines the list -----------------------------------------------------------------

  lemma ItemsTail(order: seq<MessageId>, data: map<MessageId, map<ActionKey, Result>>)
    requires order != [] && forall m :: m in order ==> m in data
    ensures Items(order, data) == [Item(order[0], data[order[0]])] + Items(order[1..], data)
  {
  }

  lemma {:induction false} ItemOfItems(order: seq<MessageId>, data: map<MessageId, map<ActionKey, Result>>, m: MessageId)
    requires forall x :: x in order ==> x in data
    ensures ItemOf(Items(order, data), m) == if m in order then data[m] else map[]
  {
    if order != [] {
      ItemsTail(order, data);
      ItemOfItems(order[1..], data, m);
    }
  }

  lemma {:induction false} OtherItemsAre(order: seq<MessageId>, data: map<MessageId, map<ActionKey, Result>>, m: MessageId)
    requires forall x :: x in order ==> x in data
    ensures OtherItems(Items(order, data), m) == Items(Without(order, m), data)
  {
    if order != [] {
      ItemsTail(order, data);
      OtherItemsAre(order[1..], data, m);
      if order[0] != m {
        ItemsTail(Without(order, m), data);
      }
    }
  }

  lemma OldestDrops(store: Store)
    requires WfUpTo(store, |store.order|) && store.order != []
    ensures var t := Store(store.order[1..], store.data - {store.order[0]}); WfUpTo(t, |t.order|)
  {
    var t := Store(store.order[1..], store.data - {store.order[0]});
    assert store.order == [store.order[0]] + t.order;
  }

  lemma OldestItems(store: Store)
    requires WfUpTo(store, |store.order|) && store.order != []
    requires var t := Store(store.order[1..], store.data - {store.order[0]}); WfUpTo(t, |t.order|)
    ensures var t := Store(store.order[1..], store.data - {store.order[0]});
      Items(t.order, t.data) == Items(store.order, store.data)[1..]
  {
  }

  lemma NewestRest(items: seq<Item>, n: nat)
    requires |items| > n
    ensures Newest(items[1..], n) == Newest(items, n)
  {
  }

  /** Evicting keeps the store in order and drops the front of its list. */
  lemma {:induction false} EvictedWf(store: Store, n: nat)
    requires WfUpTo(store, |store.order|)
    ensures var t := Evicted(store, n);
      WfUpTo(t, n) && Items(t.order, t.data) == Newest(Items(store.order, store.data), n)
    decreases |store.order|
  {
    hide Newest, Distinct;
    if |store.order| > n {
      OldestDrops(store);
      OldestItems(store);
      NewestRest(Items(store.order, store.data), n);
      EvictedWf(Store(store.order[1..], store.data - {store.order[0]}), n);
    } else {
      FewItems(Items(store.order, store.data), n);
    }
  }

  lemma FewItems(items: seq<Item>, n: nat)
    requires |items| <= n
    ensures Newest(items, n) == items
  {
  }

  lemma FiledWf(store: Store, m: MessageId, k: ActionKey, result: Result)
    requires Wf(store) && m != ""
    ensures var t := Filed(store, m, k, result);
      WfUpTo(t, |t.order|) && |t.order| == |store.order| + if m in store.data then 0 else 1
  {
    WithoutDistinct(store.order, m);
    var t := Filed(store, m, k, result);
    assert k in t.data[m];
  }

  lemma FiledItems(store: Store, m: MessageId, k: ActionKey, result: Result)
    requires Wf(store) && m != ""
    requires var t := Filed(store, m, k, result); WfUpTo(t, |t.order|)
    ensures var t := Filed(store, m, k, result); var items := Items(store.order, store.data);
      Items(t.order, t.data) == OtherItems(items, m) + [Item(m, ItemOf(items, m)[k := result])]
  {
    hide Distinct, OtherItems, ItemOf;
    ItemOfItems(store.order, store.data, m);
    OtherItemsAre(store.order, store.data, m);
    assert forall i :: 0 <= i < |Without(store.order, m)| ==> Without(store.order, m)[i] in Without(store.order, m);
  }

  /** Saving: a well-formed store stays so and does what the list does. */
  lemma SavedRefines(store: Store, items: seq<Item>, m: MessageId, k: ActionKey, result: Result)
    requires Represents(store, items)
    ensures Represents(Saved(store, m, k, result), SaveItem(items, m, k, result))
  {
    hide Evicted, Newest, Filed, Distinct;
    if m != "" && k != "" {
      FiledWf(store, m, k, result);
      FiledItems(store, m, k, result);
      EvictedWf(Filed(store, m, k, result), MSG_CAP);
    }
  }

  lemma {:induction false} RemoveItemIs(order: seq<MessageId>, data: map<MessageId, map<ActionKey, Result>>, m: MessageId, k: ActionKey)
    requires Distinct(order) && forall x :: x in order ==> x in data
    ensures RemoveItem(Items(order, data), m, k) ==
      if m !in order then Items(order, data)
      else if data[m] - {k} == map[] then Items(Without(order, m), data)
      else Items(order, data[m := data[m] - {k}])
  {
    if order != [] {
      ItemsTail(order, data);
      RemoveItemIs(order[1..], data, m, k);
      if order[0] == m {
        assert m !in order[1..];
        NotThere(order[1..], m);
        assert Items(order[1..], data) == Items(order[1..], data[m := data[m] - {k}]);
        ItemsTail(order, data[m := data[m] - {k}]);
      } else if m in order {
        ItemsTail(order, data[m := data[m] - {k}]);
        ItemsTail(Without(order, m), data);
      }
    }
  }

  lemma {:induction false} NotThere(order: seq<MessageId>, m: MessageId)
    requires m !in order
    ensures Without(order, m) == order
  {
    if order != [] {
      NotThere(order[1..], m);
    }
  }

  lemma NoSuchKey(items: seq<Item>, order: seq<MessageId>, data: map<MessageId, map<ActionKey, Result>>, m: MessageId, k: ActionKey)
    requires Distinct(order) && (forall x :: x in order <==> x in data) && items == Items(order, data)
    requires forall x :: x in data ==> data[x] != map[]
    requires m !in data || k !in data[m]
    ensures RemoveItem(items, m, k) == items
  {
    hide RemoveItem, Distinct, Items;
    RemoveItemIs(order, data, m, k);
    if m in data {
      assert data[m] - {k} == data[m];
      assert data[m := data[m]] == data;
    }
  }

  /** Removing: likewise. */
  lemma RemovedRefines(store: Store, items: seq<Item>, m: MessageId, k: ActionKey)
    requires Represents(store, items)
    ensures Represents(Removed(store, m, k), if m == "" || k == "" then items else RemoveItem(items, m, k))
  {
    if m != "" && k != "" {
      if m !in store.data || k !in store.data[m] {
        NoSuchKey(items, store.order, store.data, m, k);
      } else {
        RemoveItemIs(store.order, store.data, m, k);
        WithoutDistinct(store.order, m);
        var t := Removed(store, m, k);
        if store.data[m] - {k} == map[] {
          assert Items(t.order, t.data) == Items(Without(store.order, m), store.data);
        }
      }
    }
  }

  // ---- whole histories ----------------------------------------------------------------------------

  /** One call; ok: localStorage took its write. */
  datatype Call =
    | Save(m: MessageId, k: ActionKey, result: Result, ok: bool)
    | Remove(m: MessageId, k: ActionKey, ok: bool)

  function Called(stored: Stored, call: Call): Stored {
    var store := Read(stored);
    match call
    case Save(m, k, result, ok) => if m == "" || k == "" || !ok then stored else Write(Saved(store, m, k, result))
    case Remove(m, k, ok) =>
      if m == "" || k == "" || m !in store.data || k !in store.data[m] || !ok then stored else Write(Removed(store, m, k))
  }

  function AllCalled(stored: Stored, calls: seq<Call>): Stored
    decreases |calls|
  {
    if calls == [] then stored else Called(AllCalled(stored, calls[..|calls| - 1]), calls[|calls| - 1])
  }

  /** The list model; a write that fails is a call that was not made. */
  function ListAfter(items: seq<Item>, calls: seq<Call>): seq<Item>
    decreases |calls|
  {
    if calls == [] then items
    else
      var before := ListAfter(items, calls[..|calls| - 1]);
      var last := calls[|calls| - 1];
      if !last.ok then before
      else if last.Save? then SaveItem(before, last.m, last.k, last.result)
      else if last.m == "" || last.k == "" then before
      else RemoveItem(before, last.m, last.k)
  }

  /** From a well-formed store, through any saves and removals, also when writes fail, the store is well-formed
      and holds what the list of the 200 most recently saved messages holds. */
  lemma {:induction false} HistoryRefines(stored: Stored, items: seq<Item>, calls: seq<Call>)
    requires Represents(Read(stored), items)
    ensures Represents(Read(AllCalled(stored, calls)), ListAfter(items, calls))
    decreases |calls|
  {
    hide Saved, Removed, Represents;
    if calls != [] {
      HistoryRefines(stored, items, calls[..|calls| - 1]);
      var before, last := AllCalled(stored, calls[..|calls| - 1]), calls[|calls| - 1];
      var list := ListAfter(items, calls[..|calls| - 1]);
      if last.Save? {
        SavedRefines(Read(before), list, last.m, last.k, last.result);
      } else {
        RemovedRefines(Read(before), list, last.m, last.k);
        RemovedOrSame(Read(before), last.m, last.k);
      }
    }
  }

  lemma RemovedOrSame(store: Store, m: MessageId, k: ActionKey)
    ensures m == "" || k == "" || m !in store.data || k !in store.data[m] ==> Removed(store, m, k) == store
  {
  }

  /** What was saved last is there, and no result of another message is changed; at most the least recently
      saved message goes. */
  lemma SavedIsRead(store: Store, m: MessageId, k: ActionKey, result: Result)
    requires Wf(store) && m != "" && k != ""
    ensures var t := Saved(store, m, k, result);
      && k in ResultsOf(t, m) && ResultsOf(t, m) == ResultsOf(store, m)[k := result]
      && (forall x :: x != m && x in t.data ==> x in store.data && t.data[x] == store.data[x])
      && (forall x :: x in store.data && x !in t.data ==> x == store.order[0] && |store.order| == MSG_CAP && m !in store.data)
  {
    hide Distinct, WfUpTo;
    FiledWf(store, m, k, result);
    var full := Filed(store, m, k, result);
    assert |full.order| > MSG_CAP ==> |store.order| == MSG_CAP && m !in store.data && m !in store.order by { SizeOf(store, full, m); }
    if |full.order| > MSG_CAP {
      NotThere(store.order, m);
      assert Evicted(full, MSG_CAP) == Store(full.order[1..], full.data - {full.order[0]});
      assert full.order[0] == store.order[0] != m;
    }
  }

  lemma SizeOf(store: Store, full: Store, m: MessageId)
    requires Wf(store) && |full.order| == |store.order| + if m in store.data then 0 else 1
    ensures |full.order| > MSG_CAP ==> |store.order| == MSG_CAP && m !in store.data && m !in store.order
  {
  }
}
