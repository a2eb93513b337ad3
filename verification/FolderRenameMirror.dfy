/** The rename of a folder, mirrored in the tables: what it keeps, what it moves, and when it goes wrong. */
module FolderRenameMirror {
  import opened FolderRename

  /** The statements of a rename to newName. */
  function RenameTo(account: Account, oldPath: Path, delim: char, newName: string): Rename {
    Rename(account, oldPath, NewPath(oldPath, delim, newName), delim)
  }

  function FoldersAfter(r: Rename, folders: Folders, newName: string): Folders {
    FoldersNamed(r, FoldersMoved(r, FoldersDeleted(r, folders)), newName)
  }

  function MessagesAfter(r: Rename, messages: Messages): Messages {
    MessagesMoved(r, MessagesDeleted(r, messages))
  }

  /** UNIQUE (account_id, path) */
  ghost predicate FolderKeys(folders: Folders) {
    forall a, b :: a in folders && b in folders && folders[a].account == folders[b].account && folders[a].path == folders[b].path ==> a == b
  }

  predicate SameKey(a: MessageRow, b: MessageRow) {
    a.account == b.account && a.folder == b.folder && a.uid == b.uid
  }

  /** UNIQUE (account_id, uid, folder) */
  ghost predicate MessageKeys(messages: Messages) {
    forall a, b :: a in messages && b in messages && SameKey(messages[a], messages[b]) ==> a == b
  }

  // ---- unique keys --------------------------------------------------------------------------------

  /** No row the update moves meets another one, moved or not: the delete has taken the stale rows. */
  lemma FolderMeetsNone(r: Rename, folders: Folders, id: RowId, n: RowId)
    requires var t := FoldersDeleted(r, folders);
      id in t && n in t && Hits(r, t[id].account, t[id].path) && t[n].account == r.account
    ensures FoldersDeleted(r, folders)[n].path != Target(r, FoldersDeleted(r, folders)[id].path)
  {
    hide InTree, Target;
    assert !FolderTaken(r, folders, folders[id]);
  }

  /** The rename keeps the unique key of folders. */
  lemma FolderKeysKept(r: Rename, folders: Folders, newName: string)
    requires FolderKeys(folders)
    ensures FolderKeys(FoldersAfter(r, folders, newName))
  {
    hide InTree, Target, FoldersDeleted, FolderTaken;
    var d := FoldersDeleted(r, folders);
    var t := FoldersMoved(r, d);
    assert FolderKeys(d) by { FoldersDeletedSome(r, folders); }
    forall a, b | a in t && b in t && t[a].account == t[b].account && t[a].path == t[b].path
      ensures a == b
    {
      if Hits(r, d[a].account, d[a].path) && Hits(r, d[b].account, d[b].path) {
        SameTarget(r, d[a].path, d[b].path);
      } else if Hits(r, d[a].account, d[a].path) {
        FolderMeetsNone(r, folders, a, b);
      } else if Hits(r, d[b].account, d[b].path) {
        FolderMeetsNone(r, folders, b, a);
      }
    }
  }

  lemma FoldersDeletedSome(r: Rename, folders: Folders)
    ensures forall id :: id in FoldersDeleted(r, folders) ==> id in folders && FoldersDeleted(r, folders)[id] == folders[id]
  {
  }

  lemma SameTarget(r: Rename, p: Path, q: Path)
    requires InTree(p, r.oldPath, r.delim) && InTree(q, r.oldPath, r.delim) && Target(r, p) == Target(r, q)
    ensures p == q
  {
    MovedInjective(p, q, r.oldPath, r.newPath, r.delim);
  }

  lemma MessageMeetsNone(r: Rename, messages: Messages, id: RowId, n: RowId)
    requires var t := MessagesDeleted(r, messages);
      id in t && n in t && Hits(r, t[id].account, t[id].folder) && t[n].account == r.account && t[n].uid == t[id].uid
    ensures MessagesDeleted(r, messages)[n].folder != Target(r, MessagesDeleted(r, messages)[id].folder)
  {
    hide InTree, Target;
    assert !MessageTaken(r, messages, messages[id]);
  }

  /** The rename keeps the unique key of messages. */
  lemma MessageKeysKept(r: Rename, messages: Messages)
    requires MessageKeys(messages)
    ensures MessageKeys(MessagesAfter(r, messages))
  {
    hide InTree, Target, MessagesDeleted, MessageTaken;
    var d := MessagesDeleted(r, messages);
    var t := MessagesMoved(r, d);
    assert MessageKeys(d) by { MessagesDeletedSome(r, messages); }
    forall a, b | a in t && b in t && SameKey(t[a], t[b])
      ensures a == b
    {
      if Hits(r, d[a].account, d[a].folder) && Hits(r, d[b].account, d[b].folder) {
        SameTarget(r, d[a].folder, d[b].folder);
      } else if Hits(r, d[a].account, d[a].folder) {
        MessageMeetsNone(r, messages, a, b);
      } else if Hits(r, d[b].account, d[b].folder) {
        MessageMeetsNone(r, messages, b, a);
      }
    }
  }

  lemma MessagesDeletedSome(r: Rename, messages: Messages)
    ensures forall id :: id in MessagesDeleted(r, messages) ==> id in messages && MessagesDeleted(r, messages)[id] == messages[id]
  {
  }

  // ---- the old path -------------------------------------------------------------------------------

  /** Any path: after the rename it is under the old path exactly if it was and the new name puts the tree
      into itself. */
  lemma FollowedInTree(account: Account, oldPath: Path, delim: char, newName: string, path: Path)
    requires newName != ""
    ensures InTree(MapPath(RenameTo(account, oldPath, delim, newName), path), oldPath, delim) <==>
      InTree(path, oldPath, delim) && Inside(oldPath, newName, delim)
  {
    hide InTree, Inside, Moved, NewPath;
    if InTree(path, oldPath, delim) {
      MovedInTree(path, oldPath, newName, delim);
    }
  }

  /** What is left under the old path: in every table a row that stays is under it afterwards exactly if it was
      before and the new name is the old one or continues it with the delimiter. */
  lemma FoldersLeft(account: Account, oldPath: Path, delim: char, newName: string, folders: Folders, id: RowId)
    requires newName != "" && id in FoldersAfter(RenameTo(account, oldPath, delim, newName), folders, newName)
    requires id in folders && folders[id].account == account
    ensures var f := FoldersAfter(RenameTo(account, oldPath, delim, newName), folders, newName);
      InTree(f[id].path, oldPath, delim) <==> InTree(folders[id].path, oldPath, delim) && Inside(oldPath, newName, delim)
  {
    hide InTree, Inside, Moved, NewPath, FolderTaken;
    FollowedInTree(account, oldPath, delim, newName, folders[id].path);
  }

  lemma MessagesLeft(account: Account, oldPath: Path, delim: char, newName: string, messages: Messages, id: RowId)
    requires newName != "" && id in MessagesAfter(RenameTo(account, oldPath, delim, newName), messages)
    requires id in messages && messages[id].account == account
    ensures var m := MessagesAfter(RenameTo(account, oldPath, delim, newName), messages);
      InTree(m[id].folder, oldPath, delim) <==> InTree(messages[id].folder, oldPath, delim) && Inside(oldPath, newName, delim)
  {
    hide InTree, Inside, Moved, NewPath, MessageTaken;
    FollowedInTree(account, oldPath, delim, newName, messages[id].folder);
  }

  lemma SnoozesLeft(account: Account, oldPath: Path, delim: char, newName: string, snoozes: Snoozes, id: RowId)
    requires newName != "" && id in snoozes && snoozes[id].account == account
    ensures var s := SnoozesMoved(RenameTo(account, oldPath, delim, newName), snoozes); var inside := Inside(oldPath, newName, delim);
      && (InTree(s[id].original, oldPath, delim) <==> InTree(snoozes[id].original, oldPath, delim) && inside)
      && (InTree(s[id].snoozed, oldPath, delim) <==> InTree(snoozes[id].snoozed, oldPath, delim) && inside)
  {
    hide InTree, Inside, Moved, NewPath;
    FollowedInTree(account, oldPath, delim, newName, snoozes[id].original);
    FollowedInTree(account, oldPath, delim, newName, snoozes[id].snoozed);
  }

  lemma MovesLeft(account: Account, oldPath: Path, delim: char, newName: string, moves: Moves, id: RowId)
    requires newName != "" && id in moves && moves[id].account == account
    ensures var v := MovesMoved(RenameTo(account, oldPath, delim, newName), moves); var inside := Inside(oldPath, newName, delim);
      && (InTree(v[id].src, oldPath, delim) <==> InTree(moves[id].src, oldPath, delim) && inside)
      && (InTree(v[id].dest, oldPath, delim) <==> InTree(moves[id].dest, oldPath, delim) && inside)
  {
    hide InTree, Inside, Moved, NewPath;
    FollowedInTree(account, oldPath, delim, newName, moves[id].src);
    FollowedInTree(account, oldPath, delim, newName, moves[id].dest);
  }

  /** A name without the delimiter that differs from the old one never puts the tree into itself. */
  lemma PlainNameIsOutside(oldPath: Path, newName: string, delim: char)
    requires delim !in newName && newName != oldPath[LastStart(oldPath, delim)..]
    ensures !Inside(oldPath, newName, delim)
  {
    var last := oldPath[LastStart(oldPath, delim)..];
    assert |newName| > |last| ==> newName[|last|] in newName;
  }

  /** Renaming to the same name deletes every folder and message row of the subtree: each is its own stale
      double. */
  lemma SameNameDeletesTree(account: Account, oldPath: Path, delim: char, folders: Folders, messages: Messages, id: RowId)
    ensures var r := RenameTo(account, oldPath, delim, oldPath[LastStart(oldPath, delim)..]);
      && (id in folders && Hits(r, folders[id].account, folders[id].path) ==> id !in FoldersDeleted(r, folders))
      && (id in messages && Hits(r, messages[id].account, messages[id].folder) ==> id !in MessagesDeleted(r, messages))
  {
    hide NewPath;
    var last := oldPath[LastStart(oldPath, delim)..];
    var r := RenameTo(account, oldPath, delim, last);
    NewPathIs(oldPath, delim, last);
    assert oldPath == oldPath[..LastStart(oldPath, delim)] + last;
    forall path | InTree(path, oldPath, delim)
      ensures Target(r, path) == path
    {
      assert path == oldPath + path[|oldPath|..];
    }
  }

  // ---- what the tables hold -----------------------------------------------------------------------

  /** There is a folder of the account at path. */
  ghost predicate HasFolder(folders: Folders, account: Account, path: Path) {
    exists id :: id in folders && folders[id].account == account && folders[id].path == path
  }

  ghost predicate HasMessage(messages: Messages, account: Account, uid: nat, folder: Path) {
    exists id :: id in messages && messages[id].account == account && messages[id].uid == uid && messages[id].folder == folder
  }

  /** The folders afterwards are exactly the folders before under their new paths: none is lost, none is
      made up, as the server's rename leaves them. */
  lemma FoldersMirrored(account: Account, oldPath: Path, delim: char, newName: string, folders: Folders, path: Path)
    requires newName != "" && !Inside(oldPath, newName, delim)
    ensures var r := RenameTo(account, oldPath, delim, newName);
      HasFolder(FoldersAfter(r, folders, newName), account, path) <==>
      exists was :: was in folders && folders[was].account == account && MapPath(r, folders[was].path) == path
  {
    hide InTree, Inside, Moved, NewPath, FolderTaken, MapPath;
    var r := RenameTo(account, oldPath, delim, newName);
    var t := FoldersAfter(r, folders, newName);
    if HasFolder(t, account, path) {
      var id :| id in t && t[id].account == account && t[id].path == path;
      FolderIs(r, folders, newName, id);
    }
    if was :| was in folders && folders[was].account == account && MapPath(r, folders[was].path) == path {
      if was in FoldersDeleted(r, folders) {
        FolderIs(r, folders, newName, was);
      } else {
        var n := FolderDouble(account, oldPath, delim, newName, folders, was);
        FolderIs(r, folders, newName, n);
      }
    }
  }

  /** A folder that stays is where the path map puts it. */
  lemma FolderIs(r: Rename, folders: Folders, newName: string, id: RowId)
    requires id in FoldersDeleted(r, folders)
    ensures id in folders && id in FoldersAfter(r, folders, newName)
    ensures FoldersAfter(r, folders, newName)[id].account == folders[id].account
    ensures folders[id].account == r.account ==> FoldersAfter(r, folders, newName)[id].path == MapPath(r, folders[id].path)
  {
    hide InTree, Moved, FolderTaken;
  }

  /** A deleted folder had a double at its new path, which stays there. */
  lemma FolderDouble(account: Account, oldPath: Path, delim: char, newName: string, folders: Folders, was: RowId) returns (n: RowId)
    requires newName != "" && !Inside(oldPath, newName, delim) && was in folders && folders[was].account == account
    requires was !in FoldersDeleted(RenameTo(account, oldPath, delim, newName), folders)
    ensures var r := RenameTo(account, oldPath, delim, newName);
      n in FoldersDeleted(r, folders) && folders[n].account == account && MapPath(r, folders[n].path) == MapPath(r, folders[was].path)
  {
    hide InTree, Inside, Moved, NewPath;
    var r := RenameTo(account, oldPath, delim, newName);
    n :| n in folders && folders[n].account == account && folders[n].path == Target(r, folders[was].path);
    FollowedInTree(account, oldPath, delim, newName, folders[was].path);
  }

  /** Likewise for messages, by UID and folder. */
  lemma MessagesMirrored(account: Account, oldPath: Path, delim: char, newName: string, messages: Messages, uid: nat, folder: Path)
    requires newName != "" && !Inside(oldPath, newName, delim)
    ensures var r := RenameTo(account, oldPath, delim, newName);
      HasMessage(MessagesAfter(r, messages), account, uid, folder) <==>
      exists was :: was in messages && messages[was].account == account && messages[was].uid == uid && MapPath(r, messages[was].folder) == folder
  {
    hide InTree, Inside, Moved, NewPath;
    var r := RenameTo(account, oldPath, delim, newName);
    var t := MessagesAfter(r, messages);
    if HasMessage(t, account, uid, folder) {
      var id :| id in t && t[id].account == account && t[id].uid == uid && t[id].folder == folder;
      assert MapPath(r, messages[id].folder) == folder;
    }
    if was :| was in messages && messages[was].account == account && messages[was].uid == uid && MapPath(r, messages[was].folder) == folder {
      if was in MessagesDeleted(r, messages) {
        assert t[was].folder == folder;
      } else {
        var n :| n in messages && messages[n].account == account && messages[n].folder == Target(r, messages[was].folder) && messages[n].uid == uid;
        FollowedInTree(account, oldPath, delim, newName, messages[was].folder);
        assert n in MessagesDeleted(r, messages) && t[n].folder == folder;
      }
    }
  }

  /** Outside the old subtree no folder or message changes, but the name of the folder at the new path. */
  lemma OthersStay(r: Rename, folders: Folders, messages: Messages, newName: string, id: RowId)
    ensures var f, m := FoldersAfter(r, folders, newName), MessagesAfter(r, messages);
      && (id in folders && !Hits(r, folders[id].account, folders[id].path) ==>
            id in f && f[id] == (if folders[id].account == r.account && folders[id].path == r.newPath
                                 then folders[id].(name := newName) else folders[id]))
      && (id in messages && !Hits(r, messages[id].account, messages[id].folder) ==> id in m && m[id] == messages[id])
  {
    hide InTree, Moved, FolderTaken, MessageTaken;
  }

  /** Rows that stay keep all but their path; the folder that is at the new path afterwards takes the new name,
      every other keeps its own, also below the renamed one; no snooze or queued move is lost, and both paths of
      each follow the same map. */
  lemma RowsFollow(r: Rename, folders: Folders, messages: Messages, snoozes: Snoozes, moves: Moves, newName: string, id: RowId)
    ensures var f, m, s, v := FoldersAfter(r, folders, newName), MessagesAfter(r, messages), SnoozesMoved(r, snoozes), MovesMoved(r, moves);
      && (id in f ==> id in folders && f[id].account == folders[id].account)
      && (id in f ==> f[id].path == if folders[id].account == r.account then MapPath(r, folders[id].path) else folders[id].path)
      && (id in f ==> f[id].name == if f[id].account == r.account && f[id].path == r.newPath then newName else folders[id].name)
      && (id in m ==> id in messages)
      && (id in m ==>
            m[id] == if messages[id].account == r.account then messages[id].(folder := MapPath(r, messages[id].folder)) else messages[id])
      && s.Keys == snoozes.Keys && v.Keys == moves.Keys
      && (id in snoozes && snoozes[id].account != r.account ==> s[id] == snoozes[id])
      && (id in moves ==>
            v[id] == if moves[id].account == r.account
                     then moves[id].(src := MapPath(r, moves[id].src), dest := MapPath(r, moves[id].dest)) else moves[id])
  {
    hide InTree, Moved, FolderTaken, MessageTaken;
  }
}
