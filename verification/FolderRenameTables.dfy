/** The route that renames a folder, on tables updated in place: what a client and the next request find. */
module FolderRenameTables {
  import opened FolderRename
  import opened FolderRenameMirror

  datatype Reply = MissingFields | InvalidName | InvalidPath | NoAccount | MovePending | Failed | Renamed(newPath: Path)

  // ---- what a rename leaves -----------------------------------------------------------------------

  /** The folders of the account are those of before under their new paths. */
  ghost predicate FoldersFollow(r: Rename, before: Folders, after: Folders) {
    forall path :: HasFolder(after, r.account, path) <==>
      (exists was :: was in before && before[was].account == r.account && MapPath(r, before[was].path) == path)
  }

  /** And so are its messages, by UID and folder. */
  ghost predicate MessagesFollow(r: Rename, before: Messages, after: Messages) {
    forall uid, folder :: HasMessage(after, r.account, uid, folder) <==>
      (exists was :: was in before && before[was].account == r.account && before[was].uid == uid && MapPath(r, before[was].folder) == folder)
  }

  /** Every snooze stays and follows with both paths. */
  ghost predicate SnoozesFollow(r: Rename, before: Snoozes, after: Snoozes) {
    && after.Keys == before.Keys
    && forall id :: id in before ==>
         after[id] == if before[id].account == r.account
                      then before[id].(original := MapPath(r, before[id].original), snoozed := MapPath(r, before[id].snoozed)) else before[id]
  }

  ghost predicate MovesFollow(r: Rename, before: Moves, after: Moves) {
    && after.Keys == before.Keys
    && forall id :: id in before ==>
         after[id] == if before[id].account == r.account
                      then before[id].(src := MapPath(r, before[id].src), dest := MapPath(r, before[id].dest)) else before[id]
  }

  /** Every folder left is one of before: at its new path, under the new name if that is the path renamed to and
      else under its own. */
  ghost predicate NamesFollow(r: Rename, before: Folders, after: Folders, newName: string) {
    forall id :: id in after ==>
      && id in before && after[id].account == before[id].account
      && after[id].path == (if before[id].account == r.account then MapPath(r, before[id].path) else before[id].path)
      && after[id].name == (if after[id].account == r.account && after[id].path == r.newPath then newName else before[id].name)
  }

  /** Nothing of the account is under the old path any more. */
  ghost predicate Emptied(r: Rename, folders: Folders, messages: Messages, snoozes: Snoozes, moves: Moves) {
    && (forall id :: id in folders && folders[id].account == r.account ==> !InTree(folders[id].path, r.oldPath, r.delim))
    && (forall id :: id in messages && messages[id].account == r.account ==> !InTree(messages[id].folder, r.oldPath, r.delim))
    && (forall id :: id in snoozes && snoozes[id].account == r.account ==>
          !InTree(snoozes[id].original, r.oldPath, r.delim) && !InTree(snoozes[id].snoozed, r.oldPath, r.delim))
    && (forall id :: id in moves && moves[id].account == r.account ==>
          !InTree(moves[id].src, r.oldPath, r.delim) && !InTree(moves[id].dest, r.oldPath, r.delim))
  }

  /** Folders and messages outside the old tree stay as they are; the folder at the new path takes the new name. */
  ghost predicate RestStays(r: Rename, folders: Folders, messages: Messages, f: Folders, m: Messages, newName: string) {
    && (forall id :: id in folders && !Hits(r, folders[id].account, folders[id].path) ==>
          id in f && f[id] == (if folders[id].account == r.account && folders[id].path == r.newPath
                               then folders[id].(name := newName) else folders[id]))
    && (forall id :: id in messages && !Hits(r, messages[id].account, messages[id].folder) ==> id in m && m[id] == messages[id])
  }

  lemma TablesFollow(account: Account, oldPath: Path, delim: char, newName: string, folders: Folders, messages: Messages)
    requires newName != "" && !Inside(oldPath, newName, delim)
    ensures var r := RenameTo(account, oldPath, delim, newName);
      FoldersFollow(r, folders, FoldersAfter(r, folders, newName)) && MessagesFollow(r, messages, MessagesAfter(r, messages))
  {
    hide FoldersAfter, MessagesAfter, MapPath, Inside, NewPath;
    var r := RenameTo(account, oldPath, delim, newName);
    forall path
      ensures HasFolder(FoldersAfter(r, folders, newName), account, path) <==>
        (exists was :: was in folders && folders[was].account == account && MapPath(r, folders[was].path) == path)
    {
      FoldersMirrored(account, oldPath, delim, newName, folders, path);
    }
    forall uid, folder
      ensures HasMessage(MessagesAfter(r, messages), account, uid, folder) <==>
        (exists was :: was in messages && messages[was].account == account && messages[was].uid == uid && MapPath(r, messages[was].folder) == folder)
    {
      MessagesMirrored(account, oldPath, delim, newName, messages, uid, folder);
    }
  }

  lemma TablesEmptied(account: Account, oldPath: Path, delim: char, newName: string,
                      folders: Folders, messages: Messages, snoozes: Snoozes, moves: Moves)
    requires newName != "" && !Inside(oldPath, newName, delim)
    ensures var r := RenameTo(account, oldPath, delim, newName);
      Emptied(r, FoldersAfter(r, folders, newName), MessagesAfter(r, messages), SnoozesMoved(r, snoozes), MovesMoved(r, moves))
  {
    hide FoldersAfter, MessagesAfter, InTree, Inside, NewPath;
    var r := RenameTo(account, oldPath, delim, newName);
    var f, m := FoldersAfter(r, folders, newName), MessagesAfter(r, messages);
    forall id | id in f && f[id].account == account
      ensures !InTree(f[id].path, oldPath, delim)
    {
      RowsFollow(r, folders, messages, snoozes, moves, newName, id);
      FoldersLeft(account, oldPath, delim, newName, folders, id);
    }
    forall id | id in m && m[id].account == account
      ensures !InTree(m[id].folder, oldPath, delim)
    {
      RowsFollow(r, folders, messages, snoozes, moves, newName, id);
      MessagesLeft(account, oldPath, delim, newName, messages, id);
    }
    forall id | id in snoozes && snoozes[id].account == account
      ensures !InTree(SnoozesMoved(r, snoozes)[id].original, oldPath, delim) && !InTree(SnoozesMoved(r, snoozes)[id].snoozed, oldPath, delim)
    {
      SnoozesLeft(account, oldPath, delim, newName, snoozes, id);
    }
    forall id | id in moves && moves[id].account == account
      ensures !InTree(MovesMoved(r, moves)[id].src, oldPath, delim) && !InTree(MovesMoved(r, moves)[id].dest, oldPath, delim)
    {
      MovesLeft(account, oldPath, delim, newName, moves, id);
    }
  }

  lemma TablesKeepRest(r: Rename, folders: Folders, messages: Messages, newName: string)
    ensures RestStays(r, folders, messages, FoldersAfter(r, folders, newName), MessagesAfter(r, messages), newName)
  {
    hide FoldersAfter, MessagesAfter, Hits;
    forall id
      ensures id in folders && !Hits(r, folders[id].account, folders[id].path) ==>
        id in FoldersAfter(r, folders, newName) &&
        FoldersAfter(r, folders, newName)[id] == (if folders[id].account == r.account && folders[id].path == r.newPath
                                                  then folders[id].(name := newName) else folders[id])
      ensures id in messages && !Hits(r, messages[id].account, messages[id].folder) ==>
        id in MessagesAfter(r, messages) && MessagesAfter(r, messages)[id] == messages[id]
    {
      OthersStay(r, folders, messages, newName, id);
    }
  }

  lemma TablesNamed(r: Rename, folders: Folders, newName: string)
    ensures NamesFollow(r, folders, FoldersAfter(r, folders, newName), newName)
  {
    hide FoldersAfter, MapPath;
    forall id | id in FoldersAfter(r, folders, newName)
      ensures var f := FoldersAfter(r, folders, newName)[id];
        && id in folders && f.account == folders[id].account
        && f.path == (if folders[id].account == r.account then MapPath(r, folders[id].path) else folders[id].path)
        && f.name == (if f.account == r.account && f.path == r.newPath then newName else folders[id].name)
    {
      RowsFollow(r, folders, map[], map[], map[], newName, id);
    }
  }

  lemma PathsFollow(r: Rename, snoozes: Snoozes, moves: Moves)
    ensures SnoozesFollow(r, snoozes, SnoozesMoved(r, snoozes)) && MovesFollow(r, moves, MovesMoved(r, moves))
  {
    hide MapPath;
  }

  // ---- the route ----------------------------------------------------------------------------------

  class MailTables {
    var accounts: set<Account>
    var delimiters: map<(Account, Path), char>
    var folders: Folders
    var messages: Messages
    var snoozes: Snoozes
    var moves: Moves

    /** The unique keys of the tables. */
    ghost predicate Valid()
      reads this
    {
      FolderKeys(folders) && MessageKeys(messages)
    }

    function Delimiter(account: Account, path: Path): char
      reads this
    {
      if (account, path) in delimiters then delimiters[(account, path)] else DEFAULT_DELIMITER
    }

    constructor (accounts: set<Account>, delimiters: map<(Account, Path), char>)
      ensures Valid() && folders == map[] && messages == map[] && snoozes == map[] && moves == map[]
    {
      this.accounts, this.delimiters := accounts, delimiters;
      folders, messages, snoozes, moves := map[], map[], map[], map[];
    }

    /** newName is the name without surrounding blanks; server: the server renames the folder. The tables change
        only when the rename goes through; then they mirror the server's, unless the new name puts the tree into
        itself, and both unique keys hold in any case. */
    method RenameFolder(account: Account, oldPath: Path, newName: string, server: bool) returns (reply: Reply)
      requires Valid()
      modifies this`folders, this`messages, this`snoozes, this`moves
      ensures Valid()
      ensures reply.Renamed? <==>
        oldPath != "" && ValidFolderName(newName) && ValidFolderName(oldPath) && account in accounts && server &&
        !MoveUnderWay(RenameTo(account, oldPath, Delimiter(account, oldPath), newName), old(moves))
      ensures reply == MovePending ==> MoveUnderWay(RenameTo(account, oldPath, Delimiter(account, oldPath), newName), old(moves))
      ensures reply == NoAccount ==> account !in accounts
      ensures reply == Failed ==> !server
      ensures !reply.Renamed? ==> folders == old(folders) && messages == old(messages) && snoozes == old(snoozes) && moves == old(moves)
      ensures reply.Renamed? ==> reply.newPath == oldPath[..LastStart(oldPath, Delimiter(account, oldPath))] + newName
      ensures reply.Renamed? ==>
        var r := RenameTo(account, oldPath, Delimiter(account, oldPath), newName);
        && SnoozesFollow(r, old(snoozes), snoozes) && MovesFollow(r, old(moves), moves)
        && RestStays(r, old(folders), old(messages), folders, messages, newName) && NamesFollow(r, old(folders), folders, newName)
        && (!Inside(oldPath, newName, r.delim) ==>
              && FoldersFollow(r, old(folders), folders) && MessagesFollow(r, old(messages), messages)
              && Emptied(r, folders, messages, snoozes, moves))
    {
      hide Inside, InTree, FoldersDeleted, FoldersMoved, FoldersNamed, MessagesDeleted, MessagesMoved, SnoozesMoved, MovesMoved, Split, Join,
           FolderKeys, MessageKeys, FoldersFollow, MessagesFollow, SnoozesFollow, MovesFollow, RestStays, Emptied,
           NamesFollow;
      if oldPath == "" || newName == "" {
        return MissingFields;
      }
      if !ValidFolderName(newName) {
        return InvalidName;
      }
      if !ValidFolderName(oldPath) {
        return InvalidPath;
      }
      if account !in accounts {
        return NoAccount;
      }
      var delim := Delimiter(account, oldPath);
      var parts := Split(oldPath, delim);
      parts := parts[|parts| - 1 := newName];
      var newPath := Join(parts, delim);
      var r := Rename(account, oldPath, newPath, delim);
      assert r == RenameTo(account, oldPath, delim, newName);
      if MoveUnderWay(r, moves) {
        return MovePending;
      }
      if !server {
        return Failed;
      }
      NewPathIs(oldPath, delim, newName);
      FolderKeysKept(r, folders, newName);
      MessageKeysKept(r, messages);
      PathsFollow(r, snoozes, moves);
      TablesKeepRest(r, folders, messages, newName);
      TablesNamed(r, folders, newName);
      if !Inside(oldPath, newName, delim) {
        TablesFollow(account, oldPath, delim, newName, folders, messages);
        TablesEmptied(account, oldPath, delim, newName, folders, messages, snoozes, moves);
      }
      folders := FoldersDeleted(r, folders);
      folders := FoldersMoved(r, folders);
      folders := FoldersNamed(r, folders, newName);
      messages := MessagesDeleted(r, messages);
      messages := MessagesMoved(r, messages);
      snoozes := SnoozesMoved(r, snoozes);
      moves := MovesMoved(r, moves);
      return Renamed(newPath);
    }
  }
}
