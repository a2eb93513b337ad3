/** Folder counts of a queued move (queueMove in backend/src/routes/mail.js). */
module MoveCounts {
  import opened Dicts

  type RowId = nat
  datatype Path = Path(text: string)

  /** A message row of the account: its folder and whether it is read. */
  datatype Row = Row(folder: Path, isRead: bool)

  /** What the move queue answers of a row it moved: the folder and read state it saw under its lock. */
  datatype Moved = Moved(id: RowId, from: Path, isRead: bool)

  datatype Delta = Delta(total: int, unread: int)

  function NoChange(): Delta {
    Delta(0, 0)
  }

  function Plus(a: Delta, b: Delta): Delta {
    Delta(a.total + b.total, a.unread + b.unread)
  }

  // ---- what the counts should be ------------------------------------------------------------------

  function In(db: map<RowId, Row>, path: Path): set<RowId> {
    set id | id in db && db[id].folder == path
  }

  function UnreadIn(db: map<RowId, Row>, path: Path): set<RowId> {
    set id | id in db && db[id].folder == path && !db[id].isRead
  }

  /** The rows after the move: every moved row is in dest. */
  function AfterMove(db: map<RowId, Row>, results: seq<Moved>, dest: Path): map<RowId, Row> {
    if results == [] then db
    else
      var before := AfterMove(db, results[..|results| - 1], dest);
      before[results[|results| - 1].id := Row(dest, results[|results| - 1].isRead)]
  }

  /** The queue moved rows of the account, each once, and answered what they were. */
  ghost predicate Answers(db: map<RowId, Row>, results: seq<Moved>) {
    && (forall i :: 0 <= i < |results| ==> results[i].id in db && db[results[i].id] == Row(results[i].from, results[i].isRead))
    && (forall i, j :: 0 <= i < j < |results| ==> results[i].id != results[j].id)
  }

  /** The counts of path. */
  function Count(db: map<RowId, Row>, path: Path): Delta {
    Delta(|In(db, path)|, |UnreadIn(db, path)|)
  }

  // ---- the net change of one path -----------------------------------------------------------------

  function Leaving(r: Moved, dest: Path, path: Path): Delta {
    if r.from == dest || r.from != path then NoChange() else Delta(-1, if r.isRead then 0 else -1)
  }

  function Arriving(r: Moved, dest: Path, path: Path): Delta {
    if r.from == dest || dest != path then NoChange() else Delta(1, if r.isRead then 0 else 1)
  }

  function Net(results: seq<Moved>, dest: Path, path: Path): Delta {
    if results == [] then NoChange()
    else
      var last := results[|results| - 1];
      Plus(Net(results[..|results| - 1], dest, path), Plus(Leaving(last, dest, path), Arriving(last, dest, path)))
  }

  lemma {:induction false} AfterMoveAt(db: map<RowId, Row>, results: seq<Moved>, dest: Path, id: RowId)
    requires Answers(db, results)
    ensures AfterMove(db, results, dest).Keys == db.Keys
    ensures id in db && (forall i :: 0 <= i < |results| ==> results[i].id != id) ==> AfterMove(db, results, dest)[id] == db[id]
  {
    if results != [] {
      AfterMoveAt(db, results[..|results| - 1], dest, id);
    }
  }

  lemma RowMoves(db: map<RowId, Row>, id: RowId, row: Row, path: Path)
    requires id in db
    ensures In(db[id := row], path) == if row.folder == path then In(db, path) + {id} else In(db, path) - {id}
    ensures UnreadIn(db[id := row], path) == if row.folder == path && !row.isRead then UnreadIn(db, path) + {id} else UnreadIn(db, path) - {id}
    ensures id in In(db, path) <==> db[id].folder == path
    ensures id in UnreadIn(db, path) <==> db[id].folder == path && !db[id].isRead
  {
  }

  lemma CardOne(s: set<RowId>, id: RowId)
    ensures |s + {id}| == |s| + if id in s then 0 else 1
    ensures |s - {id}| == |s| - if id in s then 1 else 0
  {
    if id in s {
      assert s + {id} == s;
    } else {
      assert s - {id} == s;
    }
  }

  lemma StaysPut(r: Moved, dest: Path, path: Path)
    requires r.from == dest
    ensures Plus(Leaving(r, dest, path), Arriving(r, dest, path)) == NoChange()
  {
  }

  lemma ChangesOf(r: Moved, dest: Path, path: Path)
    requires r.from != dest
    ensures Leaving(r, dest, path) == if path == r.from then Delta(-1, -(if r.isRead then 0 else 1)) else NoChange()
    ensures Arriving(r, dest, path) == if path == dest then Delta(1, if r.isRead then 0 else 1) else NoChange()
  {
  }

  lemma AddUp(a: Delta, b: Delta, c: Delta)
    requires c.total == a.total + b.total && c.unread == a.unread + b.unread
    ensures c == Plus(a, b)
  {
  }

  /** One row changes its folder. */
  lemma OneMoves(db: map<RowId, Row>, r: Moved, dest: Path, path: Path)
    requires r.id in db && db[r.id] == Row(r.from, r.isRead)
    ensures Count(db[r.id := Row(dest, r.isRead)], path) == Plus(Count(db, path), Plus(Leaving(r, dest, path), Arriving(r, dest, path)))
  {
    hide In, UnreadIn, Leaving, Arriving, Plus;
    var t := db[r.id := Row(dest, r.isRead)];
    RowMoves(db, r.id, Row(dest, r.isRead), path);
    CardOne(In(db, path), r.id);
    CardOne(UnreadIn(db, path), r.id);
    NetOfOne(r, dest, path);
    AddUp(Count(db, path), Plus(Leaving(r, dest, path), Arriving(r, dest, path)), Count(t, path));
  }

  lemma NetOfOne(r: Moved, dest: Path, path: Path)
    ensures Plus(Leaving(r, dest, path), Arriving(r, dest, path)) ==
      Delta((if dest == path then 1 else 0) - (if r.from == path then 1 else 0),
            (if dest == path && !r.isRead then 1 else 0) - (if r.from == path && !r.isRead then 1 else 0))
  {
    hide Leaving, Arriving;
    if r.from == dest {
      StaysPut(r, dest, path);
    } else {
      ChangesOf(r, dest, path);
    }
  }

  /** A recount after the move finds the old count and the net change. */
  lemma {:induction false} NetIsRecount(db: map<RowId, Row>, results: seq<Moved>, dest: Path, path: Path)
    requires Answers(db, results)
    ensures Count(AfterMove(db, results, dest), path) == Plus(Count(db, path), Net(results, dest, path))
  {
    hide Count, Leaving, Arriving;
    if results != [] {
      var some, last := results[..|results| - 1], results[|results| - 1];
      NetIsRecount(db, some, dest, path);
      AfterMoveAt(db, some, dest, last.id);
      assert forall i :: 0 <= i < |some| ==> some[i] == results[i] && results[i].id != results[|results| - 1].id;
      OneMoves(AfterMove(db, some, dest), last, dest, path);
    }
  }

  // ---- sums over all folders ----------------------------------------------------------------------

  function Sum(order: seq<Path>, at: map<Path, Delta>): Delta
    requires forall p :: p in order ==> p in at
  {
    if order == [] then NoChange() else Plus(at[order[0]], Sum(order[1..], at))
  }

  lemma {:induction false} SumElsewhere(order: seq<Path>, at: map<Path, Delta>, path: Path, d: Delta)
    requires path !in order && forall p :: p in order ==> p in at
    ensures Sum(order, at[path := d]) == Sum(order, at)
  {
    if order != [] {
      SumElsewhere(order[1..], at, path, d);
    }
  }

  lemma {:induction false} SumUpdate(order: seq<Path>, at: map<Path, Delta>, path: Path, d: Delta)
    requires Distinct(order) && path in order && forall p :: p in order ==> p in at
    ensures Plus(Sum(order, at[path := d]), at[path]) == Plus(Sum(order, at), d)
  {
    if order[0] == path {
      assert path !in order[1..];
      SumElsewhere(order[1..], at, path, d);
    } else {
      SumUpdate(order[1..], at, path, d);
    }
  }

  lemma {:induction false} SumAppend(order: seq<Path>, at: map<Path, Delta>, path: Path)
    requires path in at && forall p :: p in order ==> p in at
    ensures Sum(order + [path], at) == Plus(Sum(order, at), at[path])
  {
    if order == [] {
      assert [path][1..] == [];
    } else {
      SumAppend(order[1..], at, path);
      assert (order + [path])[1..] == order[1..] + [path];
    }
  }

  function SumOf(deltas: Dict<Path, Delta>): Delta
    requires deltas.Wf()
  {
    Sum(deltas.order, deltas.at)
  }

  function At(deltas: Dict<Path, Delta>, path: Path): Delta {
    if path in deltas.at then deltas.at[path] else NoChange()
  }

  /** The add of queueMove. */
  function Added(deltas: Dict<Path, Delta>, untracked: set<Path>, path: Path, d: Delta): Dict<Path, Delta> {
    if path in untracked then deltas else deltas.Put(path, Plus(At(deltas, path), d))
  }

  lemma AddedSum(deltas: Dict<Path, Delta>, untracked: set<Path>, path: Path, d: Delta)
    requires deltas.Wf()
    ensures var t := Added(deltas, untracked, path, d);
      t.Wf() && SumOf(t) == if path in untracked then SumOf(deltas) else Plus(SumOf(deltas), d)
  {
    if path !in untracked {
      var v := Plus(At(deltas, path), d);
      PutWf(deltas, path, v);
      if path in deltas.at {
        SumUpdate(deltas.order, deltas.at, path, v);
      } else {
        SumElsewhere(deltas.order, deltas.at, path, v);
        SumAppend(deltas.order, deltas.at[path := v], path);
      }
    }
  }

  // ---- queueMove ----------------------------------------------------------------------------------

  function MovedIds(results: seq<Moved>): set<RowId> {
    set i | 0 <= i < |results| :: results[i].id
  }

  function Froms(results: seq<Moved>, dest: Path): set<Path> {
    set i | 0 <= i < |results| && results[i].from != dest :: results[i].from
  }

  /** Folders whose counts are not kept: the destination of a move to All Mail, and sources that are All
      Mail. */
  function Untracked(results: seq<Moved>, dest: Path, allMail: bool, allMailFolders: set<Path>): set<Path> {
    (if allMail then {dest} else {}) + Froms(results, dest) * allMailFolders
  }

  /** The counts of path are kept: it is not the All Mail the rows go to, and not an All Mail some row has left. */
  ghost predicate KeepsCounts(results: seq<Moved>, dest: Path, allMail: bool, allMailFolders: set<Path>, path: Path) {
    && !(allMail && path == dest)
    && !(path in allMailFolders && path != dest && exists i :: 0 <= i < |results| && results[i].from == path)
  }

  lemma UntrackedKeepsNone(results: seq<Moved>, dest: Path, allMail: bool, allMailFolders: set<Path>)
    ensures var untracked := Untracked(results, dest, allMail, allMailFolders);
      (forall path :: path in untracked <==> !KeepsCounts(results, dest, allMail, allMailFolders, path)) &&
      ((forall path :: KeepsCounts(results, dest, allMail, allMailFolders, path)) ==> untracked == {})
  {
    forall path
      ensures path in Untracked(results, dest, allMail, allMailFolders) <==> !KeepsCounts(results, dest, allMail, allMailFolders, path)
    {
      if path != dest && exists i :: 0 <= i < |results| && results[i].from == path {
        assert path in Froms(results, dest);
      }
    }
  }

  /** The rows, of those asked for, that the queue answered, in their order. */
  function Kept(rows: seq<RowId>, ids: set<RowId>): seq<RowId> {
    if rows == [] then []
    else Kept(rows[..|rows| - 1], ids) + if rows[|rows| - 1] in ids then [rows[|rows| - 1]] else []
  }

  /** Both adds of one counted row. */
  function Counted(deltas: Dict<Path, Delta>, untracked: set<Path>, r: Moved, dest: Path): Dict<Path, Delta> {
    var unread := if r.isRead then 0 else 1;
    Added(Added(deltas, untracked, r.from, Delta(-1, -unread)), untracked, dest, Delta(1, unread))
  }

  lemma AddedAt(deltas: Dict<Path, Delta>, untracked: set<Path>, path: Path, d: Delta, p: Path)
    ensures var t := Added(deltas, untracked, path, d);
      (p !in untracked ==> At(t, p) == Plus(At(deltas, p), if p == path then d else NoChange())) &&
      (p in t.at ==> p in deltas.at || p !in untracked)
  {
  }

  lemma PlusPlus(a: Delta, b: Delta, c: Delta)
    ensures Plus(Plus(a, b), c) == Plus(a, Plus(b, c))
  {
  }

  lemma CountedAt(deltas: Dict<Path, Delta>, untracked: set<Path>, r: Moved, dest: Path, path: Path)
    requires r.from != dest
    ensures var t := Counted(deltas, untracked, r, dest);
      (path !in untracked ==> At(t, path) == Plus(At(deltas, path), Plus(Leaving(r, dest, path), Arriving(r, dest, path)))) &&
      (path in t.at ==> path in deltas.at || path !in untracked)
  {
    hide Added, At, Plus, Leaving, Arriving;
    var unread := if r.isRead then 0 else 1;
    var a := Added(deltas, untracked, r.from, Delta(-1, -unread));
    AddedAt(deltas, untracked, r.from, Delta(-1, -unread), path);
    AddedAt(a, untracked, dest, Delta(1, unread), path);
    ChangesOf(r, dest, path);
    PlusPlus(At(deltas, path), Leaving(r, dest, path), Arriving(r, dest, path));
  }

  lemma CountedSum(deltas: Dict<Path, Delta>, r: Moved, dest: Path, untracked: set<Path>)
    requires deltas.Wf()
    ensures var t := Counted(deltas, untracked, r, dest); t.Wf() && (untracked == {} ==> SumOf(t) == SumOf(deltas))
  {
    hide SumOf, Distinct, Added;
    var unread := if r.isRead then 0 else 1;
    AddedSum(deltas, untracked, r.from, Delta(-1, -unread));
    AddedSum(Added(deltas, untracked, r.from, Delta(-1, -unread)), untracked, dest, Delta(1, unread));
  }

  lemma CountedRow(deltas: Dict<Path, Delta>, untracked: set<Path>, r: Moved, dest: Path)
    requires deltas.Wf() && r.from != dest && forall path :: path in deltas.at ==> path !in untracked
    ensures var t := Counted(deltas, untracked, r, dest);
      && t.Wf() && (forall path :: path in t.at ==> path !in untracked)
      && (untracked == {} ==> SumOf(t) == SumOf(deltas))
      && (forall path :: path !in untracked ==> At(t, path) == Plus(At(deltas, path), Plus(Leaving(r, dest, path), Arriving(r, dest, path))))
  {
    hide SumOf, Distinct, Counted, At, Plus, Leaving, Arriving;
    CountedSum(deltas, r, dest, untracked);
    var t := Counted(deltas, untracked, r, dest);
    forall path
      ensures path in t.at ==> path !in untracked
      ensures path !in untracked ==> At(t, path) == Plus(At(deltas, path), Plus(Leaving(r, dest, path), Arriving(r, dest, path)))
    {
      CountedAt(deltas, untracked, r, dest, path);
    }
  }

  lemma {:induction false} NetSkips(results: seq<Moved>, dest: Path, path: Path)
    requires results != [] && results[|results| - 1].from == dest
    ensures Net(results, dest, path) == Net(results[..|results| - 1], dest, path)
  {
    hide Leaving, Arriving;
    StaysPut(results[|results| - 1], dest, path);
  }

  /** moved is what stands in rows at the places of, in their order. */
  ghost predicate StandsAt(rows: seq<RowId>, places: seq<nat>, moved: seq<RowId>) {
    && |moved| == |places| && (forall k :: 0 <= k < |places| ==> places[k] < |rows| && moved[k] == rows[places[k]])
    && (forall k, l :: 0 <= k < l < |places| ==> places[k] < places[l])
  }

  /** The places of the rows whose IDs are in ids. */
  ghost predicate PlacesOf(rows: seq<RowId>, ids: set<RowId>, places: seq<nat>) {
    forall i :: 0 <= i < |rows| ==> (rows[i] in ids <==> i in places)
  }

  /** moved is the subsequence of the rows whose IDs were answered: each of their occurrences, and nothing else, in
      the order of rows. */
  ghost predicate Subsequence(rows: seq<RowId>, ids: set<RowId>, moved: seq<RowId>) {
    exists places :: StandsAt(rows, places, moved) && PlacesOf(rows, ids, places)
  }

  lemma OnePlaceMore(rows: seq<RowId>, ids: set<RowId>, places: seq<nat>, moved: seq<RowId>)
    requires rows != [] && StandsAt(rows[..|rows| - 1], places, moved) && PlacesOf(rows[..|rows| - 1], ids, places)
    ensures var n := |rows| - 1;
      if rows[n] in ids then StandsAt(rows, places + [n], moved + [rows[n]]) && PlacesOf(rows, ids, places + [n])
      else StandsAt(rows, places, moved) && PlacesOf(rows, ids, places)
  {
    var n := |rows| - 1;
    var front := rows[..n];
    assert forall k :: 0 <= k < |places| ==> places[k] < n && front[places[k]] == rows[places[k]];
    assert n !in places;
    assert forall i :: 0 <= i < n ==> front[i] == rows[i];
  }

  lemma {:induction false} KeptIsSubsequence(rows: seq<RowId>, ids: set<RowId>)
    ensures Subsequence(rows, ids, Kept(rows, ids))
  {
    hide StandsAt, PlacesOf;
    if rows == [] {
      NoPlaces(ids);
      assert StandsAt(rows, [], Kept(rows, ids)) && PlacesOf(rows, ids, []);
    } else {
      var front := rows[..|rows| - 1];
      KeptIsSubsequence(front, ids);
      var places :| StandsAt(front, places, Kept(front, ids)) && PlacesOf(front, ids, places);
      OnePlaceMore(rows, ids, places, Kept(front, ids));
      var n := |rows| - 1;
      assert rows[n] !in ids ==> Kept(rows, ids) == Kept(front, ids);
      var more := if rows[n] in ids then places + [n] else places;
      assert StandsAt(rows, more, Kept(rows, ids)) && PlacesOf(rows, ids, more);
    }
  }

  lemma NoPlaces(ids: set<RowId>)
    ensures StandsAt([], [], []) && PlacesOf([], ids, [])
  {
  }

  method MovedRows(rows: seq<RowId>, movedIds: set<RowId>) returns (moved: seq<RowId>)
    ensures Subsequence(rows, movedIds, moved)
    ensures moved == Kept(rows, movedIds)
  {
    moved := [];
    for i := 0 to |rows|
      invariant moved == Kept(rows[..i], movedIds)
    {
      assert rows[..i + 1][..i] == rows[..i];
      if rows[i] in movedIds {
        moved := moved + [rows[i]];
      }
    }
    assert rows[..|rows|] == rows;
    KeptIsSubsequence(rows, movedIds);
  }

  /** queueMove after the queue's answer: the rows that moved, and the counts to adjust by folder. Tracked
      folders get their net change; when all are tracked nothing is lost or made up. */
  method QueueMove(rows: seq<RowId>, results: seq<Moved>, dest: Path, allMail: bool, allMailFolders: set<Path>)
    returns (moved: seq<RowId>, deltas: Dict<Path, Delta>)
    ensures Subsequence(rows, MovedIds(results), moved)
    ensures deltas.Wf()
    ensures forall path :: path in deltas.at ==> KeepsCounts(results, dest, allMail, allMailFolders, path)
    ensures forall path :: KeepsCounts(results, dest, allMail, allMailFolders, path) ==> At(deltas, path) == Net(results, dest, path)
    ensures (forall path :: KeepsCounts(results, dest, allMail, allMailFolders, path)) ==> SumOf(deltas) == NoChange()
  {
    hide KeepsCounts, Untracked, Kept, Subsequence, Leaving, Arriving, Counted, Sum, At;
    moved := MovedRows(rows, MovedIds(results));
    var untracked := Untracked(results, dest, allMail, allMailFolders);
    deltas := EmptyDict();
    UntrackedKeepsNone(results, dest, allMail, allMailFolders);
    NoCounts(untracked, dest);
    for i := 0 to |results|
      invariant deltas.Wf()
      invariant forall path :: path in deltas.at ==> path !in untracked
      invariant forall path :: path !in untracked ==> At(deltas, path) == Net(results[..i], dest, path)
      invariant untracked == {} ==> SumOf(deltas) == NoChange()
    {
      var r := results[i];
      ghost var upTo := results[..i + 1];
      assert upTo[..i] == results[..i] && upTo[i] == r;
      if r.from != dest {
        CountedRow(deltas, untracked, r, dest);
        deltas := Counted(deltas, untracked, r, dest);
      } else {
        forall path
          ensures Net(upTo, dest, path) == Net(results[..i], dest, path)
        {
          NetSkips(upTo, dest, path);
        }
      }
    }
    assert results[..|results|] == results;
  }

  lemma NoCounts(untracked: set<Path>, dest: Path)
    ensures EmptyDict<Path, Delta>().Wf() && SumOf(EmptyDict()) == NoChange()
    ensures forall path :: At(EmptyDict(), path) == NoChange() && Net([], dest, path) == NoChange()
  {
  }

  /** The counts queueMove adjusts are those of a recount, for every folder whose counts are kept. */
  lemma AdjustmentsAreRecount(db: map<RowId, Row>, results: seq<Moved>, dest: Path, allMail: bool, allMailFolders: set<Path>,
                              deltas: Dict<Path, Delta>, path: Path)
    requires Answers(db, results) && KeepsCounts(results, dest, allMail, allMailFolders, path)
    requires forall p :: KeepsCounts(results, dest, allMail, allMailFolders, p) ==> At(deltas, p) == Net(results, dest, p)
    ensures Count(AfterMove(db, results, dest), path) == Plus(Count(db, path), At(deltas, path))
  {
    NetIsRecount(db, results, dest, path);
  }
}
