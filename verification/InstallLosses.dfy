/** Calls of the updater's exchange that fail at one step and do not restore the
    installation: there is one for every entry that can be seen to lose a file. */
module InstallLosses {
  import opened FileMoves
  import opened MoveRuns
  import opened InstallSwap

  /** The backup is empty or missing, and can be made. */
  ghost predicate EmptyBackup(fs: FileSystem, backup: Path)
  {
    (forall i :: 0 <= i <= |backup| ==> !IsFile(fs, backup[..i])) && forall p :: p in fs && Under(backup, p) ==> p == backup
  }

  /** The call visits entry `n` first, one move fails, and the rollback goes through. */
  ghost predicate FailsAtFirst(made: FileSystem, moves: seq<Move>, at: Places, n: Name)
  {
    && Ran(made, moves, at) && (forall i :: 0 <= i < |moves| ==> moves[i].name == n)
    && if at.root + [n] !in made then
         |moves| == 1 && moves[0].way == Install && !moves[0].ok
       else if |moves| == 1 then
         moves[0].way == Save && !moves[0].ok
       else
         && |moves| == 3 && moves[0].way == Save && moves[0].ok && moves[1].way == Install && !moves[1].ok
         && moves[2].way == Restore && moves[2].ok
  }

  lemma {:induction false} PathMade(fs: FileSystem, to: Path, i: nat) returns (made: FileSystem)
    requires WellFormed(fs) && i <= |to| && forall j :: 0 <= j <= |to| ==> !IsFile(fs, to[..j])
    ensures WellFormed(made) && OnlyFoldersTo(fs, made, to) && IsFolder(made, to[..i])
  {
    hide WellFormed, OnlyFoldersTo;
    if i == 0 {
      made := fs;
      NothingMade(fs, to);
    } else {
      made := PathMade(fs, to, i - 1);
    }
    if to[..i] !in made {
      FolderMade(fs, made, to, i);
      made := made[to[..i] := Folder];
    } else {
      OnlyFolderMade(fs, made, to, to[..i]);
    }
  }

  lemma OnlyFolderMade(fs: FileSystem, made: FileSystem, to: Path, d: Path)
    requires OnlyFoldersTo(fs, made, to) && d in made && !IsFile(fs, d)
    ensures IsFolder(made, d)
  {
  }

  /** With the backup made, what a move of entry `n` needs. */
  ghost predicate Ready(fs: FileSystem, made: FileSystem, at: Places, n: Name)
  {
    && WellFormed(made) && OnlyFoldersTo(fs, made, at.backup) && IsFolder(made, at.backup) && IsFolder(made, at.root)
    && SameBelow(fs, made, at.root + [n]) && SameBelow(fs, made, at.payload + [n])
    && at.backup + [n] !in made
    && Apart(at.root + [n], at.backup + [n]) && Apart(at.payload + [n], at.root + [n]) && Apart(at.payload + [n], at.backup + [n])
  }

  lemma MakeReady(fs: FileSystem, at: Places, names: set<Name>, n: Name) returns (made: FileSystem)
    requires WellFormed(fs) && Fits(at, names) && n in names && IsFolder(fs, at.root) && EmptyBackup(fs, at.backup)
    ensures Ready(fs, made, at, n)
  {
    hide WellFormed, Fits, Apart, OnlyFoldersTo, SameBelow, Halfway, FilesOf, Under;
    made := PathMade(fs, at.backup, |at.backup|);
    assert at.backup[..|at.backup|] == at.backup;
    SameFiles(fs, made, at.backup);
    HalfwayStart(fs, made, at, names);
    StandsBelow(fs, made, at, names, n);
    PlacesApart(at, names, n, n);
    ChildUnder(at.backup, n, at.backup);
    NotAbove(at.backup, n);
    NothingElseMade(fs, made, at.backup, at.backup + [n]);
  }

  lemma StandsBelow(fs: FileSystem, made: FileSystem, at: Places, names: set<Name>, n: Name)
    requires Halfway(fs, made, at, names, {}, {}) && n in names
    ensures SameBelow(fs, made, at.root + [n]) && SameBelow(fs, made, at.payload + [n])
  {
    hide SameBelow, EntryAt, FilesOf, Progress;
  }

  lemma NothingElseMade(fs: FileSystem, made: FileSystem, to: Path, p: Path)
    requires OnlyFoldersTo(fs, made, to) && !Under(p, to) && p !in fs
    ensures p !in made
  {
  }

  lemma ParentOf(fs: FileSystem, d: Path, n: Name)
    requires IsFolder(fs, d)
    ensures HasParent(fs, d + [n])
  {
    assert (d + [n])[..|d|] == d;
  }

  lemma SameBelowFlip(a: FileSystem, b: FileSystem, d: Path)
    requires SameBelow(a, b, d)
    ensures SameBelow(b, a, d)
  {
    hide Under;
    forall p | Under(d, p) ensures SameAt(b, a, p) {
      assert SameAt(a, b, p);
    }
  }

  /** The backup of the entry stops half way. */
  lemma SaveStops(fs: FileSystem, made: FileSystem, at: Places, n: Name, q: Path) returns (moves: seq<Move>)
    requires Ready(fs, made, at, n) && Beside(fs, at.root + [n], q)
    ensures FailsAtFirst(made, moves, at, n) && q !in DiskAt(made, moves, |moves|)
  {
    hide WellFormed, Apart, OnlyFoldersTo, SameBelow, Beside, Replays, HasParent, Under, OnlyTheWay;
    var from, to := at.root + [n], at.backup + [n];
    SameBelowFlip(fs, made, from);
    BesideSame(made, fs, from, q);
    ParentOf(made, at.backup, n);
    var s, after := HalfMove(made, from, to, q);
    moves := [Move(Save, n, s, false, after)];
    var e := BesideIsBelow(made, from, q);
  }

  /** There is nothing to save, and the install stops half way. */
  lemma InstallStops(fs: FileSystem, made: FileSystem, at: Places, n: Name, q: Path) returns (moves: seq<Move>)
    requires Ready(fs, made, at, n) && at.root + [n] !in made && Beside(fs, at.payload + [n], q)
    ensures FailsAtFirst(made, moves, at, n) && q !in DiskAt(made, moves, |moves|)
  {
    hide WellFormed, Apart, OnlyFoldersTo, SameBelow, Beside, Replays, HasParent, Under, OnlyTheWay;
    var from, to := at.payload + [n], at.root + [n];
    SameBelowFlip(fs, made, from);
    BesideSame(made, fs, from, q);
    ParentOf(made, at.root, n);
    var s, after := HalfMove(made, from, to, q);
    moves := [Move(Install, n, s, false, after)];
  }

  /** The entry is saved, the install stops half way, and the saved entry comes back. */
  lemma InstallStopsLater(fs: FileSystem, made: FileSystem, at: Places, n: Name, q: Path) returns (moves: seq<Move>)
    requires Ready(fs, made, at, n) && at.root + [n] in made && Beside(fs, at.payload + [n], q)
    requires PlaceFree(fs, at.root + [n], Rebase(q, at.payload + [n], at.root + [n]))
    ensures FailsAtFirst(made, moves, at, n) && q !in DiskAt(made, moves, |moves|)
  {
    hide WellFormed, Apart, OnlyFoldersTo, SameBelow, Beside, Replays, HasParent, Under, OnlyTheWay, Clear, Arrived, Near, FoldersWent, PlaceFree;
    var root, payload, backup := at.root + [n], at.payload + [n], at.backup + [n];
    ApartFlip(root, backup);
    ApartFlip(root, payload);
    ApartFlip(payload, backup);
    ParentOf(made, at.backup, n);
    ClearOfNew(made, root, backup);
    SameBelowFlip(fs, made, payload);
    BesideSame(made, fs, payload, q);
    var e := BesideIsBelow(made, payload, q);
    RootIsFolder(fs, made, root, payload, q);
    var save, saved := FullMove(made, root, backup);
    BelowKept(made, root, backup, save, true, saved, payload);
    SameBelowTransitive(fs, made, saved, payload);
    SameBelowFlip(fs, saved, payload);
    BesideSame(saved, fs, payload, q);
    NotAbove(at.root, n);
    StaysFolder(made, root, backup, save, true, saved, at.root);
    ParentOf(saved, at.root, n);
    var install, stopped := HalfMove(saved, payload, root, q);
    FoldersGo(made, root, backup, save, saved);
    FolderWent(made, saved, root, backup);
    BelowKept(saved, payload, root, install, false, stopped, backup);
    FolderStays(saved, stopped, backup);
    ComesBack(fs, made, saved, stopped, at, n, q);
    ChildUnder(at.root, n, root);
    PrefixTransitive(payload, at.root, root);
    ApartMeans(payload, root);
    StaysFolder(saved, payload, root, install, false, stopped, at.root);
    ParentOf(stopped, at.root, n);
    var restore, restored := FullMove(stopped, backup, root);
    BelowKept(stopped, backup, root, restore, true, restored, payload);
    StaysAway(stopped, restored, payload, q);
    moves := [Move(Save, n, save, true, saved), Move(Install, n, install, false, stopped), Move(Restore, n, restore, true, restored)];
  }

  lemma RootIsFolder(fs: FileSystem, made: FileSystem, root: Path, payload: Path, q: Path)
    requires SameBelow(fs, made, root) && root in made && Under(payload, q) && q != payload
    requires PlaceFree(fs, root, Rebase(q, payload, root))
    ensures IsFolder(made, root)
  {
    hide Under;
    var t := Rebase(q, payload, root);
    UnderSelf(root);
    assert SameAt(fs, made, root);
    RebaseBack(q, payload, root);
    NotRebased(payload, root, q);
    StrictlyInside(root, t);
    assert t[..|root|] == root;
  }

  lemma StaysFolder(before: FileSystem, from: Path, to: Path, s: Script, ok: bool, after: FileSystem, d: Path)
    requires Replays(before, from, to, s, ok, after) && IsFolder(before, d) && !Under(from, d)
    ensures IsFolder(after, d)
  {
    hide Replays, Under;
    ReplayKeepsOthers(before, from, to, s, ok, after, d);
  }

  lemma FolderStays(a: FileSystem, b: FileSystem, d: Path)
    requires SameBelow(a, b, d) && IsFolder(a, d)
    ensures IsFolder(b, d)
  {
    hide Under;
    UnderSelf(d);
    assert SameAt(a, b, d);
  }

  lemma FolderWent(a: FileSystem, b: FileSystem, from: Path, to: Path)
    requires FoldersWent(a, b, from, to) && IsFolder(a, from)
    ensures IsFolder(b, to)
  {
    RebaseTop(from, to);
    assert IsFolder(b, Rebase(from, from, to));
  }

  lemma StaysAway(a: FileSystem, b: FileSystem, d: Path, q: Path)
    requires SameBelow(a, b, d) && Under(d, q) && q !in a
    ensures q !in b
  {
    hide Under;
    assert SameAt(a, b, q);
  }

  /** The file that was left leaves room for all that comes back. */
  lemma ComesBack(fs: FileSystem, made: FileSystem, saved: FileSystem, stopped: FileSystem, at: Places, n: Name, q: Path)
    requires var root, payload, backup := at.root + [n], at.payload + [n], at.backup + [n];
             && WellFormed(made) && SameBelow(fs, made, root) && backup !in made && Under(payload, q)
             && Arrived(made, saved, root, backup) && SameBelow(saved, stopped, backup)
             && OnlyTheWay(stopped, root, Rebase(q, payload, root)) && PlaceFree(fs, root, Rebase(q, payload, root))
    ensures Clear(stopped, at.backup + [n], at.root + [n])
  {
    hide WellFormed, SameBelow, Arrived, OnlyTheWay, PlaceFree, Under;
    var root, payload, backup := at.root + [n], at.payload + [n], at.backup + [n];
    NothingIn(made, backup);
    forall p | p in stopped && Under(backup, p)
      ensures if stopped[p].File? then Rebase(p, backup, root) !in stopped else !IsFile(stopped, Rebase(p, backup, root))
    {
      CameFrom(fs, made, saved, stopped, root, backup, p);
      RebaseBack(p, backup, root);
      FreeOfTheWay(fs, stopped, root, Rebase(q, payload, root), Rebase(p, backup, root));
    }
  }

  lemma CameFrom(fs: FileSystem, made: FileSystem, saved: FileSystem, stopped: FileSystem, root: Path, backup: Path, p: Path)
    requires SameBelow(fs, made, root) && Arrived(made, saved, root, backup) && SameBelow(saved, stopped, backup)
    requires p in stopped && Under(backup, p) && p !in made
    ensures Rebase(p, backup, root) in fs && fs[Rebase(p, backup, root)] == stopped[p]
  {
    hide Under;
    RebaseBack(p, backup, root);
    assert SameAt(saved, stopped, p);
    assert SameAt(fs, made, Rebase(p, backup, root));
  }

  lemma FreeOfTheWay(fs: FileSystem, stopped: FileSystem, root: Path, t: Path, p: Path)
    requires PlaceFree(fs, root, t) && OnlyTheWay(stopped, root, t) && p in fs && Under(root, p)
    ensures if fs[p].File? then p !in stopped else !IsFile(stopped, p)
  {
    if p in stopped {
      assert Under(p, t);
      assert p == t[..|p|];
      assert |p| == |t| ==> p == t;
    }
  }

  /** For every entry that can be seen to lose a file there is a call that fails at one step
      and after which a file is not where it was, neither in the root nor in the payload. */
  lemma SomeCallLoses(fs: FileSystem, at: Places, n: Name) returns (made: FileSystem, moves: seq<Move>, lost: Path)
    requires WellFormed(fs) && Fits(at, Names(fs, at.payload)) && n in Names(fs, at.payload)
    requires IsFolder(fs, at.root) && EmptyBackup(fs, at.backup) && Loses(fs, at, n)
    ensures WellFormed(made) && OnlyFoldersTo(fs, made, at.backup) && IsFolder(made, at.backup)
    ensures FailsAtFirst(made, moves, at, n)
    ensures IsFile(fs, lost) && lost !in DiskAt(made, moves, |moves|)
    ensures FilesOf(DiskAt(made, moves, |moves|)) != FilesOf(fs)
  {
    hide WellFormed, Fits, Names, EmptyBackup, Beside, PlaceFree, OnlyFoldersTo, SameBelow, Apart, FailsAtFirst, Under, DiskAt;
    made := MakeReady(fs, at, Names(fs, at.payload), n);
    var root, payload := at.root + [n], at.payload + [n];
    if q :| Beside(fs, root, q) {
      lost := q;
      moves := SaveStops(fs, made, at, n, q);
    } else {
      lost :| Beside(fs, payload, lost) && PlaceFree(fs, root, Rebase(lost, payload, root));
      if root in made {
        moves := InstallStopsLater(fs, made, at, n, lost);
      } else {
        moves := InstallStops(fs, made, at, n, lost);
      }
    }
    assert lost in FilesOf(fs);
  }
}
