/** Renaming a folder (POST /folders/rename in backend/src/routes/mail.js): IMAP RENAME moves the whole subtree
    (section 6.3.5 of RFC 3501), and the rename is mirrored in four tables. */
module FolderRename {
  import opened Dicts

  type Account = nat
  type RowId = nat
  type Path = string

  const DEFAULT_DELIMITER := '/'

  // ---- paths --------------------------------------------------------------------------------------

  /** path.split(delim) */
  function Split(path: Path, delim: char): (parts: seq<string>)
    ensures parts != []
  {
    if path == "" then [""]
    else
      var parts := Split(path[..|path| - 1], delim);
      var last := path[|path| - 1];
      if last == delim then parts + [""] else parts[..|parts| - 1] + [parts[|parts| - 1] + [last]]
  }

  /** parts.join(delim) */
  function Join(parts: seq<string>, delim: char): Path {
    if parts == [] then ""
    else if |parts| == 1 then parts[0]
    else Join(parts[..|parts| - 1], delim) + [delim] + parts[|parts| - 1]
  }

  /** The old path with its last component replaced. */
  function NewPath(oldPath: Path, delim: char, newName: string): Path {
    var parts := Split(oldPath, delim);
    Join(parts[|parts| - 1 := newName], delim)
  }

  /** Where the last component of a path begins. */
  function LastStart(path: Path, delim: char): (n: nat)
    ensures n <= |path| && (n > 0 ==> path[n - 1] == delim) && forall i :: n <= i < |path| ==> path[i] != delim
  {
    if path == "" then 0
    else if path[|path| - 1] == delim then |path|
    else LastStart(path[..|path| - 1], delim)
  }

  lemma JoinLast(parts: seq<string>, delim: char, name: string, tail: string)
    requires parts != []
    ensures Join(parts[|parts| - 1 := name + tail], delim) == Join(parts[|parts| - 1 := name], delim) + tail
  {
    var a, b := parts[|parts| - 1 := name + tail], parts[|parts| - 1 := name];
    assert a[..|a| - 1] == b[..|b| - 1];
    if |parts| > 1 {
      assert Join(a, delim) == Join(a[..|a| - 1], delim) + [delim] + (name + tail);
      assert Join(b, delim) + tail == Join(a[..|a| - 1], delim) + [delim] + (name + tail);
    }
  }

  lemma JoinMore(parts: seq<string>, delim: char, name: string)
    requires parts != []
    ensures Join(parts + [name], delim) == Join(parts, delim) + [delim] + name
  {
    assert (parts + [name])[..|parts|] == parts;
  }

  /** Splitting and joining give the path back, and the last part is what follows the last delimiter. */
  lemma {:induction false} SplitEnds(path: Path, delim: char)
    ensures var parts := Split(path, delim); parts[|parts| - 1] == path[LastStart(path, delim)..] && Join(parts, delim) == path
  {
    hide Join;
    if path == "" {
      assert Join([""], delim) == "" by { JoinOne("", delim); }
    } else {
      var front, last := path[..|path| - 1], path[|path| - 1];
      var before := Split(front, delim);
      SplitEnds(front, delim);
      assert path == front + [last];
      if last == delim {
        JoinMore(before, delim, "");
        assert front + [delim] + "" == path;
      } else {
        var end := before[|before| - 1];
        JoinLast(before, delim, end, [last]);
        assert before[|before| - 1 := end] == before;
        assert Split(path, delim) == before[|before| - 1 := end + [last]];
        assert path[LastStart(front, delim)..] == end + [last];
      }
    }
  }

  lemma JoinOne(part: string, delim: char)
    ensures Join([part], delim) == part
  {
  }

  /** The new path replaces what follows the last delimiter. */
  lemma NewPathIs(oldPath: Path, delim: char, newName: string)
    ensures NewPath(oldPath, delim, newName) == oldPath[..LastStart(oldPath, delim)] + newName
  {
    SplitEnds(oldPath, delim);
    var parts := Split(oldPath, delim);
    var last := parts[|parts| - 1];
    JoinLast(parts, delim, "", newName);
    JoinLast(parts, delim, "", last);
    assert "" + last == last && "" + newName == newName;
    assert parts[|parts| - 1 := "" + last] == parts && parts[|parts| - 1 := "" + newName] == parts[|parts| - 1 := newName];
    var parent := Join(parts[|parts| - 1 := ""], delim);
    assert oldPath == parent + last;
    assert parent == oldPath[..|oldPath| - |last|];
  }

  /** path = $2 OR substr(path, 1, length($3)) = $3, with $3 = oldPath || delim. */
  predicate InTree(path: Path, root: Path, delim: char) {
    path == root || (|path| > |root| && path[..|root|] == root && path[|root|] == delim)
  }

  /** $4 || substr(path, length($2) + 1) */
  function Moved(path: Path, oldPath: Path, newPath: Path): Path {
    newPath + if |path| >= |oldPath| then path[|oldPath|..] else ""
  }

  /** What the rename makes of a path. */
  function Followed(path: Path, oldPath: Path, newPath: Path, delim: char): Path {
    if InTree(path, oldPath, delim) then Moved(path, oldPath, newPath) else path
  }

  /** The path map is injective on the subtree. */
  lemma MovedInjective(p: Path, q: Path, oldPath: Path, newPath: Path, delim: char)
    requires InTree(p, oldPath, delim) && InTree(q, oldPath, delim) && Moved(p, oldPath, newPath) == Moved(q, oldPath, newPath)
    ensures p == q
  {
    var a, b := Moved(p, oldPath, newPath), Moved(q, oldPath, newPath);
    assert a[|newPath|..] == p[|oldPath|..] && b[|newPath|..] == q[|oldPath|..];
    assert p == oldPath + p[|oldPath|..] && q == oldPath + q[|oldPath|..];
  }

  /** The new tree lies inside the old one. A caller can tell: the new name is the old last component, alone
      or followed by the delimiter. */
  predicate Inside(oldPath: Path, newName: string, delim: char) {
    var last := oldPath[LastStart(oldPath, delim)..];
    newName == last || (|newName| > |last| && newName[..|last|] == last && newName[|last|] == delim)
  }

  lemma InsideIsInTree(oldPath: Path, newName: string, delim: char)
    ensures Inside(oldPath, newName, delim) <==> InTree(NewPath(oldPath, delim, newName), oldPath, delim)
  {
    NewPathIs(oldPath, delim, newName);
    var n := LastStart(oldPath, delim);
    var parent, last := oldPath[..n], oldPath[n..];
    var newPath := parent + newName;
    assert oldPath == parent + last;
    if |newName| >= |last| {
      assert newPath[..|oldPath|] == parent + newName[..|last|];
      if newPath[..|oldPath|] == oldPath {
        assert newPath[n..|oldPath|] == last;
        assert newPath[n..|oldPath|] == newName[..|last|];
      }
      assert newName[..|newName|] == newName;
    }
  }

  /** A path of the old tree is moved out of it, or into it again, according to the new name alone. */
  lemma MovedInTree(path: Path, oldPath: Path, newName: string, delim: char)
    requires InTree(path, oldPath, delim) && newName != ""
    ensures InTree(Moved(path, oldPath, NewPath(oldPath, delim, newName)), oldPath, delim) <==> Inside(oldPath, newName, delim)
  {
    InsideIsInTree(oldPath, newName, delim);
    NewPathIs(oldPath, delim, newName);
    var n := LastStart(oldPath, delim);
    var newPath := NewPath(oldPath, delim, newName);
    var moved := Moved(path, oldPath, newPath);
    var rest := path[|oldPath|..];
    assert moved == newPath + rest;
    if InTree(newPath, oldPath, delim) {
      if newPath != oldPath {
        assert moved[..|oldPath|] == newPath[..|oldPath|] && moved[|oldPath|] == newPath[|oldPath|];
      }
    } else if |newPath| > |oldPath| {
      assert moved[..|oldPath|] == newPath[..|oldPath|] && moved[|oldPath|] == newPath[|oldPath|];
    } else if |newPath| == |oldPath| {
      assert moved[..|oldPath|] == newPath;
    } else if rest != "" {
      assert moved[|newPath|] == rest[0] == delim && oldPath[|newPath|] != delim;
      assert |moved| >= |oldPath| ==> moved[..|oldPath|][|newPath|] == delim;
    }
  }

  // ---- the tables ---------------------------------------------------------------------------------

  datatype FolderRow = FolderRow(account: Account, path: Path, name: string)
  datatype MessageRow = MessageRow(account: Account, uid: nat, folder: Path)
  datatype SnoozeRow = SnoozeRow(account: Account, original: Path, snoozed: Path)
  datatype MoveState = Queued | Moving | AwaitingUid
  datatype MoveRow = MoveRow(account: Account, src: Path, dest: Path, state: MoveState)

  type Folders = map<RowId, FolderRow>
  type Messages = map<RowId, MessageRow>
  type Snoozes = map<RowId, SnoozeRow>
  type Moves = map<RowId, MoveRow>

  /** What the statements are about: $1, $2, $4 and the delimiter. */
  datatype Rename = Rename(account: Account, oldPath: Path, newPath: Path, delim: char)

  predicate Hits(r: Rename, account: Account, path: Path) {
    account == r.account && InTree(path, r.oldPath, r.delim)
  }

  function Target(r: Rename, path: Path): Path {
    Moved(path, r.oldPath, r.newPath)
  }

  function MapPath(r: Rename, path: Path): Path {
    Followed(path, r.oldPath, r.newPath, r.delim)
  }

  /** A row stands at the path this one is to move to. */
  predicate FolderTaken(r: Rename, folders: Folders, row: FolderRow) {
    exists n | n in folders :: folders[n].account == r.account && folders[n].path == Target(r, row.path)
  }

  function FoldersDeleted(r: Rename, folders: Folders): Folders {
    Filtered(folders, (row: FolderRow) => !(Hits(r, row.account, row.path) && FolderTaken(r, folders, row)))
  }

  function FoldersMoved(r: Rename, folders: Folders): Folders {
    Mapped(folders, (id: RowId, row: FolderRow) => if Hits(r, row.account, row.path) then row.(path := Target(r, row.path)) else row)
  }

  function FoldersNamed(r: Rename, folders: Folders, newName: string): Folders {
    Mapped(folders, (id: RowId, row: FolderRow) =>
      if row.account == r.account && row.path == r.newPath then row.(name := newName) else row)
  }

  predicate MessageTaken(r: Rename, messages: Messages, row: MessageRow) {
    exists n | n in messages ::
      messages[n].account == r.account && messages[n].folder == Target(r, row.folder) && messages[n].uid == row.uid
  }

  function MessagesDeleted(r: Rename, messages: Messages): Messages {
    Filtered(messages, (row: MessageRow) => !(Hits(r, row.account, row.folder) && MessageTaken(r, messages, row)))
  }

  function MessagesMoved(r: Rename, messages: Messages): Messages {
    Mapped(messages, (id: RowId, row: MessageRow) => if Hits(r, row.account, row.folder) then row.(folder := Target(r, row.folder)) else row)
  }

  function SnoozesMoved(r: Rename, snoozes: Snoozes): Snoozes {
    Mapped(snoozes, (id: RowId, row: SnoozeRow) =>
      if row.account == r.account then row.(original := MapPath(r, row.original), snoozed := MapPath(r, row.snoozed)) else row)
  }

  function MovesMoved(r: Rename, moves: Moves): Moves {
    Mapped(moves, (id: RowId, row: MoveRow) =>
      if row.account == r.account then row.(src := MapPath(r, row.src), dest := MapPath(r, row.dest)) else row)
  }

  /** movesTouchFolder for the states 'moving' and 'awaiting_uid'. */
  predicate MoveUnderWay(r: Rename, moves: Moves) {
    exists id | id in moves :: moves[id].account == r.account && (moves[id].state.Moving? || moves[id].state.AwaitingUid?) &&
      (InTree(moves[id].src, r.oldPath, r.delim) || InTree(moves[id].dest, r.oldPath, r.delim))
  }

  predicate ValidFolderName(name: string) {
    0 < |name| <= 255 && forall i | 0 <= i < |name| :: name[i] > '\U{1f}' && name[i] != '\U{7f}'
  }
}
