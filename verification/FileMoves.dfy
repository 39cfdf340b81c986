/** Files on a disk and the updater's way to move an entry: file by file, where any step
    may fail. */
module FileMoves {
  import opened Words

  type Name = string
  type Path = seq<Name>
  type Content = seq<u8>

  datatype Node = File(content: Content) | Folder

  type FileSystem = map<Path, Node>
  type Files = map<Path, Content>

  predicate Under(d: Path, p: Path)
  {
    |d| <= |p| && p[..|d|] == d
  }

  /** Neither path lies inside the other. */
  predicate Apart(a: Path, b: Path)
  {
    !Under(a, b) && !Under(b, a)
  }

  function Rebase(p: Path, from: Path, to: Path): Path
    requires Under(from, p)
  {
    to + p[|from|..]
  }

  predicate IsFile(fs: FileSystem, p: Path)
  {
    p in fs && fs[p].File?
  }

  predicate IsFolder(fs: FileSystem, p: Path)
  {
    p in fs && fs[p].Folder?
  }

  /** Every entry sits in a folder. */
  predicate WellFormed(fs: FileSystem)
  {
    forall p :: p in fs && p != [] ==> IsFolder(fs, p[..|p| - 1])
  }

  function FilesOf(fs: FileSystem): Files
  {
    map p | p in fs && fs[p].File? :: fs[p].content
  }

  function Below(files: Files, d: Path): set<Path>
  {
    set p | p in files && Under(d, p)
  }

  function Entries(fs: FileSystem, d: Path): set<Path>
  {
    set p | p in fs && Under(d, p)
  }

  function Children(fs: FileSystem, d: Path): set<Path>
  {
    set p | p in fs && |p| == |d| + 1 && Under(d, p)
  }

  // ---------------------------------------------------------------- moving a set of files

  function Targets(moved: set<Path>, from: Path, to: Path): set<Path>
    requires forall q :: q in moved ==> Under(from, q)
  {
    set q | q in moved :: Rebase(q, from, to)
  }

  /** The files that may move: below `from`, to places where no file is. */
  predicate Movable(a: Files, from: Path, to: Path, moved: set<Path>)
  {
    forall q :: q in moved ==> q in a && Under(from, q) && Rebase(q, from, to) !in a
  }

  /** Where the file at `p` was before `moved` went from `from` to `to`. */
  function Before(p: Path, from: Path, to: Path, moved: set<Path>): Path
  {
    if Under(to, p) && Rebase(p, to, from) in moved then Rebase(p, to, from) else p
  }

  lemma RebaseBack(p: Path, from: Path, to: Path)
    requires Under(from, p)
    ensures Under(to, Rebase(p, from, to)) && Rebase(Rebase(p, from, to), to, from) == p
  {
    var q := Rebase(p, from, to);
    assert q[..|to|] == to && q[|to|..] == p[|from|..];
    assert p == p[..|from|] + p[|from|..];
  }

  lemma BeforeIsFile(a: Files, from: Path, to: Path, moved: set<Path>, p: Path)
    requires Movable(a, from, to, moved) && p in (a.Keys - moved) + Targets(moved, from, to)
    ensures Before(p, from, to, moved) in a
  {
    if p in Targets(moved, from, to) {
      var q :| q in moved && p == Rebase(q, from, to);
      RebaseBack(q, from, to);
    }
  }

  function Relocate(a: Files, from: Path, to: Path, moved: set<Path>): Files
    requires Movable(a, from, to, moved)
  {
    map p | p in (a.Keys - moved) + Targets(moved, from, to) ::
      BeforeIsFile(a, from, to, moved, p);
      a[Before(p, from, to, moved)]
  }

  /** What is where after moving: a file is at `p` if it was moved there or stayed. */
  lemma Relocated(a: Files, from: Path, to: Path, moved: set<Path>, p: Path)
    requires Movable(a, from, to, moved) && Apart(from, to)
    ensures var b := Relocate(a, from, to, moved);
            && (p in b <==> (Under(to, p) && Rebase(p, to, from) in moved) || (p in a && p !in moved))
            && (p in b && Under(to, p) && Rebase(p, to, from) in moved ==> b[p] == a[Rebase(p, to, from)])
            && (p in b && !(Under(to, p) && Rebase(p, to, from) in moved) ==> b[p] == a[p])
  {
    if Under(to, p) {
      RebaseBack(p, to, from);
    }
    if p in Targets(moved, from, to) {
      var q :| q in moved && p == Rebase(q, from, to);
      RebaseBack(q, from, to);
    }
  }

  lemma RelocateNothing(a: Files, from: Path, to: Path)
    ensures Relocate(a, from, to, {}) == a
  {
  }

  /** Moving twice along the same way is moving the union. */
  lemma RelocateTwice(a: Files, from: Path, to: Path, first: set<Path>, second: set<Path>)
    requires Apart(from, to) && Movable(a, from, to, first) && Movable(Relocate(a, from, to, first), from, to, second)
    ensures Movable(a, from, to, first + second)
    ensures Relocate(Relocate(a, from, to, first), from, to, second) == Relocate(a, from, to, first + second)
  {
    hide Relocate, Movable;
    var b := Relocate(a, from, to, first);
    MovableUnion(a, from, to, first, second);
    var c := Relocate(b, from, to, second);
    var both := Relocate(a, from, to, first + second);
    forall p ensures p in c <==> p in both
             ensures p in c ==> c[p] == both[p]
    {
      Relocated(a, from, to, first, p);
      Relocated(b, from, to, second, p);
      Relocated(a, from, to, first + second, p);
      if Under(to, p) {
        RebaseBack(p, to, from);
        BelowIsApart(from, to, Rebase(p, to, from));
        Relocated(a, from, to, first, Rebase(p, to, from));
        MovableIs(b, from, to, second);
      }
      NotBoth(a, from, to, first, second, p);
    }
  }

  lemma MovableIs(a: Files, from: Path, to: Path, moved: set<Path>)
    requires Movable(a, from, to, moved)
    ensures forall q :: q in moved ==> q in a && Under(from, q) && Rebase(q, from, to) !in a
  {
  }

  lemma UnderBoth(a: Path, b: Path, p: Path)
    ensures Under(a, p) && Under(b, p) ==> Under(a, b) || Under(b, a)
  {
    if Under(a, p) && Under(b, p) {
      if |a| <= |b| {
        assert p[..|b|][..|a|] == p[..|a|];
      } else {
        assert p[..|a|][..|b|] == p[..|b|];
      }
    }
  }

  lemma BelowIsApart(from: Path, to: Path, p: Path)
    requires Apart(from, to) && Under(from, p)
    ensures !Under(to, p)
  {
    UnderBoth(from, to, p);
  }

  lemma NotBoth(a: Files, from: Path, to: Path, first: set<Path>, second: set<Path>, p: Path)
    requires Apart(from, to) && Movable(a, from, to, first) && Movable(Relocate(a, from, to, first), from, to, second)
    ensures p in second ==> p in a && p !in first && !Under(to, p)
  {
    if p in second {
      BelowIsApart(from, to, p);
      Relocated(a, from, to, first, p);
    }
  }

  lemma MovableUnion(a: Files, from: Path, to: Path, first: set<Path>, second: set<Path>)
    requires Apart(from, to) && Movable(a, from, to, first) && Movable(Relocate(a, from, to, first), from, to, second)
    ensures Movable(a, from, to, first + second)
  {
    hide Relocate;
    forall q | q in second ensures q in a && Under(from, q) && Rebase(q, from, to) !in a {
      NotBoth(a, from, to, first, second, q);
      var t := Rebase(q, from, to);
      RebaseBack(q, from, to);
      Relocated(a, from, to, first, t);
      if t in a && t in first {
        BelowIsApart(from, to, t);
      }
    }
  }

  /** Moving below a child is moving below its folder. */
  lemma RelocateChild(a: Files, from: Path, to: Path, name: Name, moved: set<Path>)
    requires Apart(from, to) && Movable(a, from + [name], to + [name], moved)
    ensures Movable(a, from, to, moved)
    ensures Relocate(a, from + [name], to + [name], moved) == Relocate(a, from, to, moved)
  {
    hide Relocate, Movable;
    MovableIs(a, from + [name], to + [name], moved);
    ApartChild(from, to, name);
    forall q | q in moved
      ensures Under(from, q) && Rebase(q, from, to) == Rebase(q, from + [name], to + [name])
    {
      ChildRebase(q, from, to, name);
    }
    assert Movable(a, from, to, moved) by {
      MovableFrom(a, from, to, moved);
    }
    var b, c := Relocate(a, from + [name], to + [name], moved), Relocate(a, from, to, moved);
    forall p ensures p in b <==> p in c
             ensures p in b ==> b[p] == c[p]
    {
      Relocated(a, from, to, moved, p);
      Relocated(a, from + [name], to + [name], moved, p);
      if Under(to, p) && Rebase(p, to, from) in moved {
        var q := Rebase(p, to, from);
        RebaseBack(p, to, from);
        RebaseBack(q, from + [name], to + [name]);
      }
      if Under(to + [name], p) {
        ChildRebase(p, to, from, name);
      }
    }
  }

  lemma MovableFrom(a: Files, from: Path, to: Path, moved: set<Path>)
    requires forall q :: q in moved ==> q in a && Under(from, q) && Rebase(q, from, to) !in a
    ensures Movable(a, from, to, moved)
  {
  }

  lemma ChildRebase(q: Path, from: Path, to: Path, name: Name)
    requires Under(from + [name], q)
    ensures Under(from, q) && Rebase(q, from, to) == Rebase(q, from + [name], to + [name])
  {
    var child := from + [name];
    assert q[..|child|][..|from|] == from;
    assert q[|from|] == q[..|child|][|from|] == name;
    assert q[|from|..] == [name] + q[|child|..];
    assert to + q[|from|..] == (to + [name]) + q[|child|..];
  }

  lemma ChildUnder(d: Path, name: Name, p: Path)
    ensures Under(d, d + [name]) && (Under(d + [name], p) ==> Under(d, p))
  {
    assert (d + [name])[..|d|] == d;
    if Under(d + [name], p) {
      assert p[..|d|] == p[..|d| + 1][..|d|];
    }
  }

  lemma ApartChild(from: Path, to: Path, name: Name)
    requires Apart(from, to)
    ensures Apart(from + [name], to + [name])
  {
    hide Under;
    ChildUnder(from, name, to + [name]);
    ChildUnder(to, name, from + [name]);
    UnderBoth(from, to, to + [name]);
    UnderBoth(from, to, from + [name]);
  }

  // ---------------------------------------------------------------- nothing is lost

  /** The contents of all files, each as often as it occurs. */
  ghost function Contents(files: Files): multiset<Content>
    decreases files.Keys
  {
    if files == map[] then multiset{}
    else
      var p :| p in files;
      Contents(files - {p}) + multiset{files[p]}
  }

  lemma ContentsOfOne(files: Files) returns (p: Path)
    requires files != map[]
    ensures p in files && Contents(files) == Contents(files - {p}) + multiset{files[p]}
  {
    p :| p in files && Contents(files) == Contents(files - {p}) + multiset{files[p]};
  }

  lemma {:induction false} ContentsWithout(files: Files, p: Path)
    requires p in files
    ensures Contents(files) == Contents(files - {p}) + multiset{files[p]}
    decreases files.Keys
  {
    hide Contents;
    var q := ContentsOfOne(files);
    if q != p {
      ContentsWithout(files - {q}, p);
      ContentsWithout(files - {p}, q);
      assert files - {q} - {p} == files - {p} - {q};
    }
  }

  // ---------------------------------------------------------------- the disk

  predicate CanRename(fs: FileSystem, from: Path, to: Path)
  {
    IsFile(fs, from) && to !in fs && to != [] && IsFolder(fs, to[..|to| - 1])
  }

  /** `after` has the files of `before`, and new folders only on the way to `to`. */
  predicate OnlyFoldersTo(before: FileSystem, after: FileSystem, to: Path)
  {
    && (forall p :: p in before ==> p in after && after[p] == before[p])
    && (forall p :: p in after && p !in before ==> after[p].Folder? && Under(p, to))
  }

  /** New entries lie on the way to `to` or below it; the rest can only go. */
  predicate NewOnlyAt(before: FileSystem, after: FileSystem, to: Path)
  {
    forall p :: p in after && p !in before ==> Under(p, to) || Under(to, p)
  }

  lemma SameFiles(before: FileSystem, after: FileSystem, to: Path)
    requires OnlyFoldersTo(before, after, to)
    ensures FilesOf(after) == FilesOf(before) && NewOnlyAt(before, after, to)
    ensures forall p :: p in before ==> p in after && after[p] == before[p]
  {
  }

  lemma {:induction false} PrefixIsFolder(fs: FileSystem, d: Path, p: Path)
    requires WellFormed(fs) && p in fs && Under(d, p)
    ensures d in fs && (d != p ==> IsFolder(fs, d))
    decreases |p| - |d|
  {
    if d == p {
    } else if |d| + 1 == |p| {
      assert p[..|p| - 1] == d;
    } else {
      var parent := p[..|p| - 1];
      assert parent[..|d|] == p[..|d|];
      PrefixIsFolder(fs, d, parent);
    }
  }

  function Renamed(fs: FileSystem, from: Path, to: Path): FileSystem
    requires from in fs
  {
    fs[to := fs[from]] - {from}
  }

  lemma RenameMoves(fs: FileSystem, from: Path, to: Path)
    requires WellFormed(fs) && CanRename(fs, from, to) && Apart(from, to)
    ensures var n := Renamed(fs, from, to);
            && WellFormed(n) && NewOnlyAt(fs, n, to)
            && Movable(FilesOf(fs), from, to, {from}) && FilesOf(n) == Relocate(FilesOf(fs), from, to, {from})
            && Below(FilesOf(fs), from) == {from}
  {
    hide Relocate, FilesOf, WellFormed, CanRename, Below, NewOnlyAt;
    RenameWellFormed(fs, from, to);
    RenameFiles(fs, from, to);
    FileIsAlone(fs, from, to);
  }

  lemma RenameWellFormed(fs: FileSystem, from: Path, to: Path)
    requires WellFormed(fs) && CanRename(fs, from, to)
    ensures WellFormed(Renamed(fs, from, to)) && NewOnlyAt(fs, Renamed(fs, from, to), to)
  {
    var n := Renamed(fs, from, to);
    forall p | p in n && p != [] ensures IsFolder(n, p[..|p| - 1]) {
      assert p == to || p in fs;
      assert IsFolder(fs, p[..|p| - 1]);
    }
  }

  lemma RenameFiles(fs: FileSystem, from: Path, to: Path)
    requires CanRename(fs, from, to) && Apart(from, to)
    ensures Movable(FilesOf(fs), from, to, {from})
    ensures FilesOf(Renamed(fs, from, to)) == Relocate(FilesOf(fs), from, to, {from})
  {
    hide Relocate;
    var a, b := FilesOf(fs), FilesOf(Renamed(fs, from, to));
    assert Rebase(from, from, to) == to;
    var c := Relocate(a, from, to, {from});
    forall p ensures p in b <==> p in c
             ensures p in b ==> b[p] == c[p]
    {
      Relocated(a, from, to, {from}, p);
      if Under(to, p) {
        RebaseBack(p, to, from);
        assert Rebase(p, to, from) == from ==> p == to;
      }
    }
  }

  lemma FileIsAlone(fs: FileSystem, from: Path, to: Path)
    requires WellFormed(fs) && CanRename(fs, from, to)
    ensures Below(FilesOf(fs), from) == {from}
  {
    forall p ensures p in Below(FilesOf(fs), from) <==> p == from {
      if p in Below(FilesOf(fs), from) {
        PrefixIsFolder(fs, from, p);
      }
    }
  }

  lemma FolderAdded(fs: FileSystem, d: Path)
    requires WellFormed(fs) && d !in fs && (d != [] ==> IsFolder(fs, d[..|d| - 1]))
    ensures WellFormed(fs[d := Folder])
  {
    var n := fs[d := Folder];
    forall p | p in n && p != [] ensures IsFolder(n, p[..|p| - 1]) {
      assert p == d || IsFolder(fs, p[..|p| - 1]);
    }
  }

  lemma OnlyThisFolder(was: FileSystem, fs: FileSystem, to: Path, d: Path)
    requires OnlyFoldersTo(was, fs, to) && d !in fs && Under(d, to)
    ensures OnlyFoldersTo(was, fs[d := Folder], to)
  {
    hide Under;
  }

  /** One more folder on the way to `to`. */
  lemma FolderMade(was: FileSystem, fs: FileSystem, to: Path, i: nat)
    requires i <= |to| && WellFormed(fs) && OnlyFoldersTo(was, fs, to) && to[..i] !in fs
    requires i > 0 ==> IsFolder(fs, to[..i - 1])
    ensures WellFormed(fs[to[..i] := Folder]) && OnlyFoldersTo(was, fs[to[..i] := Folder], to)
  {
    hide WellFormed, OnlyFoldersTo;
    var d := to[..i];
    if i > 0 {
      assert d[..|d| - 1] == to[..i - 1];
    }
    FolderAdded(fs, d);
    OnlyThisFolder(was, fs, to, d);
  }

  lemma FolderRemoved(fs: FileSystem, d: Path)
    requires WellFormed(fs) && IsFolder(fs, d) && Children(fs, d) == {}
    ensures WellFormed(fs - {d}) && FilesOf(fs - {d}) == FilesOf(fs)
  {
    forall p | p in fs - {d} && p != [] ensures IsFolder(fs - {d}, p[..|p| - 1]) {
      assert p[..|p| - 1] == d ==> p in Children(fs, d);
    }
  }

  lemma NothingMade(fs: FileSystem, to: Path)
    ensures OnlyFoldersTo(fs, fs, to)
  {
  }

  class Disk {
    var fs: FileSystem
    /** How many steps failed so far, for whatever reason. */
    ghost var failures: nat
    /** How often a file was to be renamed so far. */
    ghost var attempts: nat

    /** `QFile::rename` of a file: it never replaces anything, and it may fail for reasons
        of its own. */
    method Rename(from: Path, to: Path) returns (ok: bool)
      modifies this`fs, this`attempts
      ensures attempts == old(attempts) + 1
      ensures !ok ==> fs == old(fs)
      ensures ok ==> CanRename(old(fs), from, to) && fs == Renamed(old(fs), from, to)
    {
      attempts := attempts + 1;
      var allowed := *;
      ok := allowed && CanRename(fs, from, to);
      if ok {
        fs := fs[to := fs[from]] - {from};
      }
    }

    /** `renameWithRetry`: it fails only after three attempts. */
    method RenameWithRetry(from: Path, to: Path) returns (ok: bool)
      modifies this
      ensures failures == old(failures) + if ok then 0 else 1
      ensures if ok then old(attempts) < attempts <= old(attempts) + 3 else attempts == old(attempts) + 3
      ensures !ok ==> fs == old(fs)
      ensures ok ==> CanRename(old(fs), from, to) && fs == Renamed(old(fs), from, to)
    {
      var attempt := 0;
      while true
        invariant attempt <= 2 && attempts == old(attempts) + attempt
        invariant fs == old(fs) && failures == old(failures)
        decreases 2 - attempt
      {
        ok := Rename(from, to);
        if ok {
          return true;
        }
        if attempt >= 2 {
          failures := failures + 1;
          return false;
        }
        attempt := attempt + 1;
      }
    }

    /** `QDir::mkpath`: makes the missing folders on the way, and may stop anywhere. */
    method MkPath(to: Path) returns (ok: bool)
      requires WellFormed(fs)
      modifies this
      ensures WellFormed(fs) && OnlyFoldersTo(old(fs), fs, to)
      ensures if ok then IsFolder(fs, to) else !IsFolder(old(fs), to)
      ensures failures == old(failures) + if ok then 0 else 1
    {
      hide WellFormed, OnlyFoldersTo;
      NothingMade(fs, to);
      var i := 0;
      while i <= |to|
        invariant i <= |to| + 1 && WellFormed(fs) && OnlyFoldersTo(old(fs), fs, to) && failures == old(failures)
        invariant i > 0 ==> IsFolder(fs, to[..i - 1])
      {
        var d := to[..i];
        if IsFolder(old(fs), to) {
          assert Under(d, to);
          PrefixIsFolder(old(fs), d, to);
          SameFiles(old(fs), fs, to);
        }
        if d !in fs {
          var allowed := *;
          if !allowed {
            failures := failures + 1;
            return false;
          }
          FolderMade(old(fs), fs, to, i);
          fs := fs[d := Folder];
        } else if fs[d].File? {
          failures := failures + 1;
          return false;
        }
        i := i + 1;
      }
      assert to[..|to|] == to;
      return true;
    }

    /** `QDir::rmdir`: only an empty folder goes, if it goes at all. */
    method RmDir(d: Path)
      requires WellFormed(fs)
      modifies this`fs
      ensures WellFormed(fs) && FilesOf(fs) == FilesOf(old(fs))
      ensures fs == old(fs) || (IsFolder(old(fs), d) && Children(old(fs), d) == {} && fs == old(fs) - {d})
    {
      hide WellFormed, FilesOf;
      var allowed := *;
      if allowed && IsFolder(fs, d) && Children(fs, d) == {} {
        FolderRemoved(fs, d);
        fs := fs - {d};
      }
    }

    /** `moveEntry`. Whatever fails, the files that moved are at their place below `to`,
        the others are where they were, and no file was replaced. On success every file
        below `from` moved. What happened is one of the runs that `Replays` allows. */
    method MoveEntry(from: Path, to: Path) returns (ok: bool, ghost moved: set<Path>, ghost script: Script)
      requires WellFormed(fs) && Apart(from, to)
      modifies this
      ensures WellFormed(fs) && NewOnlyAt(old(fs), fs, to)
      ensures Movable(FilesOf(old(fs)), from, to, moved)
      ensures FilesOf(fs) == Relocate(FilesOf(old(fs)), from, to, moved)
      ensures ok ==> moved == Below(FilesOf(old(fs)), from)
      ensures Replays(old(fs), from, to, script, ok, fs)
      ensures failures == old(failures) + if ok then 0 else 1
      decreases |Entries(fs, from)|
    {
      hide Relocate, Movable, Below, CanRename, WellFormed, Replays, StepsReplay, OnlyFoldersTo, Children;
      ghost var was := fs;
      moved := {};
      NothingMoved(FilesOf(fs), from, to);
      if from in fs && fs[from].Folder? {
        ok := MkPath(to);
        SameFiles(was, fs, to);
        if !ok {
          script := Blocked;
          BlockedReplays(was, from, to, fs);
          return;
        }
        MadeApart(was, fs, from, to);
        var todo := Children(fs, from);
        ghost var listed := fs;
        ghost var steps: seq<ChildMove> := [];
        NothingDone(listed, from, todo);
        NoSteps(listed, from, to);
        while todo != {}
          invariant WellFormed(fs) && NewOnlyAt(was, fs, to)
          invariant Entries(fs, from) <= Entries(was, from)
          invariant todo <= Children(listed, from)
          invariant Movable(FilesOf(was), from, to, moved) && FilesOf(fs) == Relocate(FilesOf(was), from, to, moved)
          invariant moved == Handled(listed, from, todo)
          invariant StepsReplay(listed, from, to, steps, Children(listed, from) - todo)
          invariant AllOk(steps) && fs == Now(listed, steps, |steps|) && failures == old(failures)
          decreases |todo|
        {
          var child :| child in todo;
          ChildIs(listed, from, child);
          var name := child[|from|];
          ApartChild(from, to, name);
          FewerEntries(was, fs, from, name);
          ghost var mid := fs;
          ghost var more, inner;
          ok, more, inner := MoveEntry(child, to + [name]);
          ChildMoved(was, from, to, moved, mid, fs, name, more);
          StillNew(was, mid, fs, from, to, name);
          NextStep(listed, from, to, steps, todo, ChildMove(name, inner, ok, fs));
          if !ok {
            moved := moved + more;
            script := Walked(listed, steps + [ChildMove(name, inner, ok, fs)]);
            StoppedReplays(was, listed, from, to, steps, todo, ChildMove(name, inner, ok, fs));
            return;
          }
          HandledNext(listed, from, to, todo, child, moved, mid);
          moved := moved + more;
          steps := steps + [ChildMove(name, inner, ok, fs)];
          assert Children(listed, from) - todo + {child} == Children(listed, from) - (todo - {child});
          todo := todo - {child};
        }
        AllHandled(listed, from);
        ghost var full := fs;
        RmDir(from);
        RemovedIsOld(was, full, fs, to);
        script := Walked(listed, steps);
        assert Children(listed, from) - todo == Children(listed, from);
        WalkedReplays(was, listed, from, to, steps, fs);
        return true, moved, script;
      }
      if to in fs {
        failures := failures + 1;
        script := Taken;
        FileReplays(was, from, to);
        return false, moved, script;
      }
      ok := RenameWithRetry(from, to);
      FileReplays(was, from, to);
      script := if ok then FileMoved else Refused;
      if ok {
        RenameMoves(was, from, to);
        moved := {from};
      }
    }
  }

  // ---------------------------------------------------------------- lemmas for the loop

  lemma NothingMoved(a: Files, from: Path, to: Path)
    ensures Movable(a, from, to, {}) && Relocate(a, from, to, {}) == a
  {
    RelocateNothing(a, from, to);
  }

  lemma MadeApart(was: FileSystem, fs: FileSystem, from: Path, to: Path)
    requires OnlyFoldersTo(was, fs, to) && Apart(from, to)
    ensures Entries(fs, from) <= Entries(was, from)
  {
    forall p | p in Entries(fs, from) ensures p in was {
      if p !in was {
        PrefixTransitive(from, p, to);
      }
    }
  }

  lemma PrefixTransitive(a: Path, b: Path, c: Path)
    ensures Under(a, b) && Under(b, c) ==> Under(a, c)
  {
    if Under(a, b) && Under(b, c) {
      assert c[..|b|][..|a|] == c[..|a|];
    }
  }

  /** The files below the children that are not on the list any more. */
  ghost function Handled(fs: FileSystem, from: Path, todo: set<Path>): set<Path>
  {
    set p | p in Below(FilesOf(fs), from) && |p| > |from| && p[..|from| + 1] !in todo
  }

  lemma NothingDone(fs: FileSystem, from: Path, todo: set<Path>)
    requires WellFormed(fs) && todo == Children(fs, from)
    ensures Handled(fs, from, todo) == {}
  {
    forall p | p in Below(FilesOf(fs), from) && |p| > |from| ensures p[..|from| + 1] in todo {
      assert p[..|from| + 1][..|from|] == p[..|from|];
      PrefixIsFolder(fs, p[..|from| + 1], p);
    }
  }

  lemma ChildIs(fs: FileSystem, from: Path, child: Path)
    requires child in Children(fs, from)
    ensures |child| == |from| + 1 && child == from + [child[|from|]]
  {
  }

  lemma FewerEntries(was: FileSystem, fs: FileSystem, from: Path, name: Name)
    requires from in was && Entries(fs, from) <= Entries(was, from)
    ensures |Entries(fs, from + [name])| < |Entries(was, from)|
  {
    forall p | p in Entries(fs, from + [name]) ensures p in Entries(was, from) {
      ChildUnder(from, name, p);
    }
    ProperSubset(Entries(fs, from + [name]), Entries(was, from), from);
  }

  lemma {:induction false} ProperSubset<T>(a: set<T>, b: set<T>, x: T)
    requires a <= b && x in b && x !in a
    ensures |a| < |b|
    decreases |a|
  {
    if a != {} {
      var y :| y in a;
      ProperSubset(a - {y}, b - {y}, x);
    }
  }

  lemma StillNew(was: FileSystem, mid: FileSystem, fs: FileSystem, from: Path, to: Path, name: Name)
    requires NewOnlyAt(was, mid, to) && NewOnlyAt(mid, fs, to + [name]) && Apart(from, to)
    requires Entries(mid, from) <= Entries(was, from)
    ensures NewOnlyAt(was, fs, to) && Entries(fs, from) <= Entries(was, from)
  {
    forall p | p in fs && p !in was ensures Under(p, to) || Under(to, p) {
      if p !in mid {
        ChildUnder(to, name, p);
        UnderBoth(p, to, to + [name]);
      }
    }
    forall p | p in Entries(fs, from) ensures p in mid {
      if p !in mid {
        ChildUnder(to, name, p);
        UnderBoth(p, to, to + [name]);
        UnderBoth(from, to, p);
        PrefixTransitive(from, p, to);
      }
    }
  }

  lemma ChildMoved(was: FileSystem, from: Path, to: Path, moved: set<Path>, mid: FileSystem, fs: FileSystem, name: Name, more: set<Path>)
    requires Apart(from, to)
    requires Movable(FilesOf(was), from, to, moved) && FilesOf(mid) == Relocate(FilesOf(was), from, to, moved)
    requires Movable(FilesOf(mid), from + [name], to + [name], more)
    requires FilesOf(fs) == Relocate(FilesOf(mid), from + [name], to + [name], more)
    ensures Movable(FilesOf(was), from, to, moved + more) && FilesOf(fs) == Relocate(FilesOf(was), from, to, moved + more)
  {
    hide Relocate, Movable, FilesOf;
    RelocateChild(FilesOf(mid), from, to, name, more);
    RelocateTwice(FilesOf(was), from, to, moved, more);
  }

  /** A child that was fully moved is handled. */
  lemma HandledNext(listed: FileSystem, from: Path, to: Path, todo: set<Path>, child: Path, moved: set<Path>, mid: FileSystem)
    requires child in todo && todo <= Children(listed, from) && moved == Handled(listed, from, todo)
    requires Apart(from, to) && Movable(FilesOf(listed), from, to, moved) && FilesOf(mid) == Relocate(FilesOf(listed), from, to, moved)
    ensures moved + Below(FilesOf(mid), child) == Handled(listed, from, todo - {child})
  {
    hide Relocate, Movable;
    ChildIs(listed, from, child);
    forall p ensures p in moved + Below(FilesOf(mid), child) <==> p in Handled(listed, from, todo - {child}) {
      Relocated(FilesOf(listed), from, to, moved, p);
      ChildUnder(from, child[|from|], p);
      if Under(from, p) {
        BelowIsApart(from, to, p);
      }
      assert Under(child, p) <==> |p| > |from| && p[..|from| + 1] == child;
    }
  }

  lemma AllHandled(fs: FileSystem, from: Path)
    requires IsFolder(fs, from)
    ensures Handled(fs, from, {}) == Below(FilesOf(fs), from)
  {
    forall p | p in Below(FilesOf(fs), from) ensures |p| > |from| {
      assert p[..|p|] == p;
    }
  }

  lemma RemovedIsOld(was: FileSystem, full: FileSystem, fs: FileSystem, to: Path)
    requires NewOnlyAt(was, full, to) && (fs == full || exists d :: fs == full - {d})
    ensures NewOnlyAt(was, fs, to)
  {
  }

  // ---------------------------------------------------------------- runs of a move

  /** How one move went: a folder that could not be made, a place that was taken, a rename
      that was refused or done, or the children of a folder one after the other. */
  datatype Script =
    | Blocked
    | Taken
    | Refused
    | FileMoved
    | Walked(made: FileSystem, steps: seq<ChildMove>)

  datatype ChildMove = ChildMove(name: Name, script: Script, ok: bool, after: FileSystem)

  /** The disk before step `i`. */
  function Now(start: FileSystem, steps: seq<ChildMove>, i: nat): FileSystem
    requires i <= |steps|
  {
    if i == 0 then start else steps[i - 1].after
  }

  predicate AllOk(steps: seq<ChildMove>)
  {
    forall i :: 0 <= i < |steps| ==> steps[i].ok
  }

  /** The entries of `from` that these steps moved. */
  function Visited(from: Path, steps: seq<ChildMove>): set<Path>
  {
    set i | 0 <= i < |steps| :: from + [steps[i].name]
  }

  predicate Distinct(steps: seq<ChildMove>)
  {
    forall i, j :: 0 <= i < j < |steps| ==> steps[i].name != steps[j].name
  }

  /** The runs of `moveEntry(from, to)`, wherever the two paths lie: every child that was
      listed is moved, in some order, until one fails; a folder left empty may go. */
  predicate Replays(before: FileSystem, from: Path, to: Path, s: Script, ok: bool, after: FileSystem)
    decreases s
  {
    match s
    case Blocked => IsFolder(before, from) && !IsFolder(before, to) && OnlyFoldersTo(before, after, to) && WellFormed(after) && !ok
    case Taken => !IsFolder(before, from) && to in before && !ok && after == before
    case Refused => !IsFolder(before, from) && to !in before && !ok && after == before
    case FileMoved => !IsFolder(before, from) && CanRename(before, from, to) && ok && after == Renamed(before, from, to)
    case Walked(made, steps) =>
      && IsFolder(before, from) && OnlyFoldersTo(before, made, to) && IsFolder(made, to) && WellFormed(made)
      && Distinct(steps)
      && (forall i :: 0 <= i < |steps| ==>
            Replays(Now(made, steps, i), from + [steps[i].name], to + [steps[i].name], steps[i].script, steps[i].ok, steps[i].after))
      && var last := Now(made, steps, |steps|);
         if ok then
           && AllOk(steps) && Visited(from, steps) == Children(made, from)
           && (after == last || (IsFolder(last, from) && Children(last, from) == {} && after == last - {from}))
         else
           && steps != [] && AllOk(steps[..|steps| - 1]) && !steps[|steps| - 1].ok
           && Visited(from, steps) <= Children(made, from) && after == last
  }

  /** The steps so far, which took care of these children. */
  predicate StepsReplay(made: FileSystem, from: Path, to: Path, steps: seq<ChildMove>, visited: set<Path>)
  {
    && Distinct(steps) && Visited(from, steps) == visited
    && forall i :: 0 <= i < |steps| ==>
         Replays(Now(made, steps, i), from + [steps[i].name], to + [steps[i].name], steps[i].script, steps[i].ok, steps[i].after)
  }

  lemma NoSteps(made: FileSystem, from: Path, to: Path)
    ensures StepsReplay(made, from, to, [], Children(made, from) - Children(made, from))
  {
  }

  lemma BlockedReplays(before: FileSystem, from: Path, to: Path, after: FileSystem)
    requires IsFolder(before, from) && !IsFolder(before, to) && OnlyFoldersTo(before, after, to) && WellFormed(after)
    ensures Replays(before, from, to, Blocked, false, after)
  {
  }

  lemma FileReplays(before: FileSystem, from: Path, to: Path)
    requires !IsFolder(before, from)
    ensures to in before ==> Replays(before, from, to, Taken, false, before)
    ensures to !in before ==> Replays(before, from, to, Refused, false, before)
    ensures CanRename(before, from, to) ==> Replays(before, from, to, FileMoved, true, Renamed(before, from, to))
  {
  }

  lemma NextStep(made: FileSystem, from: Path, to: Path, steps: seq<ChildMove>, todo: set<Path>, next: ChildMove)
    requires StepsReplay(made, from, to, steps, Children(made, from) - todo) && todo <= Children(made, from)
    requires from + [next.name] in todo
    requires Replays(Now(made, steps, |steps|), from + [next.name], to + [next.name], next.script, next.ok, next.after)
    ensures StepsReplay(made, from, to, steps + [next], Children(made, from) - todo + {from + [next.name]})
  {
    hide Replays, Children, Visited, Distinct;
    var all := steps + [next];
    forall i | 0 <= i < |all|
      ensures Replays(Now(made, all, i), from + [all[i].name], to + [all[i].name], all[i].script, all[i].ok, all[i].after)
    {
      assert Now(made, all, i) == Now(made, steps, i);
    }
    OneMoreVisited(from, steps, next);
  }

  lemma OneMoreVisited(from: Path, steps: seq<ChildMove>, next: ChildMove)
    ensures Visited(from, steps + [next]) == Visited(from, steps) + {from + [next.name]}
    ensures Distinct(steps) && from + [next.name] !in Visited(from, steps) ==> Distinct(steps + [next])
  {
    var all := steps + [next];
    forall c ensures c in Visited(from, all) <==> c in Visited(from, steps) || c == from + [next.name] {
      if c in Visited(from, steps) {
        var i :| 0 <= i < |steps| && c == from + [steps[i].name];
        assert all[i] == steps[i];
      }
      assert all[|steps|] == next;
    }
    forall i | 0 <= i < |steps| && steps[i].name == next.name ensures from + [next.name] in Visited(from, steps) {
      assert from + [steps[i].name] in Visited(from, steps);
    }
  }

  lemma StoppedReplays(before: FileSystem, made: FileSystem, from: Path, to: Path, steps: seq<ChildMove>, todo: set<Path>, next: ChildMove)
    requires IsFolder(before, from) && OnlyFoldersTo(before, made, to) && IsFolder(made, to) && WellFormed(made)
    requires todo <= Children(made, from) && from + [next.name] in todo && AllOk(steps) && !next.ok
    requires StepsReplay(made, from, to, steps + [next], Children(made, from) - todo + {from + [next.name]})
    ensures Replays(before, from, to, Walked(made, steps + [next]), false, next.after)
  {
    hide OnlyFoldersTo, WellFormed, Children;
    var all := steps + [next];
    assert all[..|all| - 1] == steps;
  }

  lemma WalkedReplays(before: FileSystem, made: FileSystem, from: Path, to: Path, steps: seq<ChildMove>, after: FileSystem)
    requires IsFolder(before, from) && OnlyFoldersTo(before, made, to) && IsFolder(made, to) && WellFormed(made)
    requires StepsReplay(made, from, to, steps, Children(made, from)) && AllOk(steps)
    requires var last := Now(made, steps, |steps|);
             after == last || (IsFolder(last, from) && Children(last, from) == {} && after == last - {from})
    ensures Replays(before, from, to, Walked(made, steps), true, after)
  {
    hide OnlyFoldersTo, WellFormed, Children;
  }

  // ---------------------------------------------------------------- what every run keeps

  lemma RenameKeepsContents(fs: FileSystem, from: Path, to: Path)
    requires CanRename(fs, from, to)
    ensures Contents(FilesOf(Renamed(fs, from, to))) == Contents(FilesOf(fs))
  {
    hide Contents;
    var a, b := FilesOf(fs), FilesOf(Renamed(fs, from, to));
    ContentsWithout(a, from);
    ContentsWithout(b, to);
    assert b - {to} == a - {from};
  }

  lemma FolderIsNoFile(fs: FileSystem, d: Path)
    requires IsFolder(fs, d)
    ensures FilesOf(fs - {d}) == FilesOf(fs)
  {
  }

  lemma StepRuns(before: FileSystem, from: Path, to: Path, s: Script, ok: bool, after: FileSystem, i: nat)
    requires s.Walked? && Replays(before, from, to, s, ok, after) && i < |s.steps|
    ensures Replays(Now(s.made, s.steps, i), from + [s.steps[i].name], to + [s.steps[i].name],
                    s.steps[i].script, s.steps[i].ok, s.steps[i].after)
  {
    hide Distinct, AllOk, Visited, Children, OnlyFoldersTo, WellFormed;
  }

  lemma WalkEnds(before: FileSystem, from: Path, to: Path, s: Script, ok: bool, after: FileSystem)
    requires s.Walked? && Replays(before, from, to, s, ok, after)
    ensures OnlyFoldersTo(before, s.made, to)
    ensures var last := Now(s.made, s.steps, |s.steps|);
            after == last || (IsFolder(last, from) && after == last - {from})
  {
    hide Distinct, AllOk, Visited, Children, OnlyFoldersTo, WellFormed;
  }

  /** Every run that ends, wherever `from` and `to` lie, keeps every file content as often
      as it was there. */
  lemma {:induction false} ReplayKeepsContents(before: FileSystem, from: Path, to: Path, s: Script, ok: bool, after: FileSystem)
    requires Replays(before, from, to, s, ok, after)
    ensures Contents(FilesOf(after)) == Contents(FilesOf(before))
    decreases s, 1, 0
  {
    hide Contents, FilesOf, Replays;
    if s.Walked? {
      WalkEnds(before, from, to, s, ok, after);
      SameFiles(before, s.made, to);
      StepsKeepContents(before, from, to, s, ok, after, |s.steps|);
      var last := Now(s.made, s.steps, |s.steps|);
      if after != last {
        FolderIsNoFile(last, from);
      }
    } else {
      OneKeepsContents(before, from, to, s, ok, after);
    }
  }

  lemma OneKeepsContents(before: FileSystem, from: Path, to: Path, s: Script, ok: bool, after: FileSystem)
    requires !s.Walked? && Replays(before, from, to, s, ok, after)
    ensures Contents(FilesOf(after)) == Contents(FilesOf(before))
  {
    hide Contents, FilesOf, WellFormed, Children;
    if s.Blocked? {
      SameFiles(before, after, to);
    } else if s.FileMoved? {
      RenameKeepsContents(before, from, to);
    }
  }

  lemma {:induction false} StepsKeepContents(before: FileSystem, from: Path, to: Path, s: Script, ok: bool, after: FileSystem, i: nat)
    requires s.Walked? && i <= |s.steps| && Replays(before, from, to, s, ok, after)
    ensures Contents(FilesOf(Now(s.made, s.steps, i))) == Contents(FilesOf(s.made))
    decreases s, 0, i
  {
    hide Contents, FilesOf, Replays;
    if i > 0 {
      StepsKeepContents(before, from, to, s, ok, after, i - 1);
      StepRuns(before, from, to, s, ok, after, i - 1);
      var step := s.steps[i - 1];
      ReplayKeepsContents(Now(s.made, s.steps, i - 1), from + [step.name], to + [step.name], step.script, step.ok, step.after);
    }
  }

  /** Every run leaves alone what does not lie below `from`. */
  lemma {:induction false} ReplayKeepsOthers(before: FileSystem, from: Path, to: Path, s: Script, ok: bool, after: FileSystem, p: Path)
    requires Replays(before, from, to, s, ok, after) && p in before && !Under(from, p)
    ensures p in after && after[p] == before[p]
    decreases s, 1, 0
  {
    hide Under, Replays;
    UnderSelf(from);
    if s.Walked? {
      WalkEnds(before, from, to, s, ok, after);
      forall k | 0 <= k < |s.steps| ensures !Under(from + [s.steps[k].name], p) {
        ChildUnder(from, s.steps[k].name, p);
      }
      StepsKeepOthers(before, from, to, s, ok, after, |s.steps|, p);
    } else {
      OneKeepsOthers(before, from, to, s, ok, after, p);
    }
  }

  lemma OneKeepsOthers(before: FileSystem, from: Path, to: Path, s: Script, ok: bool, after: FileSystem, p: Path)
    requires !s.Walked? && Replays(before, from, to, s, ok, after) && p in before && p != from
    ensures p in after && after[p] == before[p]
  {
    hide WellFormed, Children, Under;
  }

  lemma UnderSelf(d: Path)
    ensures Under(d, d)
  {
  }

  lemma {:induction false} StepsKeepOthers(before: FileSystem, from: Path, to: Path, s: Script, ok: bool, after: FileSystem, i: nat, p: Path)
    requires s.Walked? && i <= |s.steps| && Replays(before, from, to, s, ok, after)
    requires p in s.made && forall k :: 0 <= k < i ==> !Under(from + [s.steps[k].name], p)
    ensures p in Now(s.made, s.steps, i) && Now(s.made, s.steps, i)[p] == s.made[p]
    decreases s, 0, i
  {
    hide Under, Replays;
    if i > 0 {
      StepsKeepOthers(before, from, to, s, ok, after, i - 1, p);
      StepRuns(before, from, to, s, ok, after, i - 1);
      var step := s.steps[i - 1];
      ReplayKeepsOthers(Now(s.made, s.steps, i - 1), from + [step.name], to + [step.name], step.script, step.ok, step.after, p);
    }
  }

  /** A folder moved to a place inside itself: each call meets, among the entries it lists,
      the next folder on the way to its own target, and calls itself again in the same
      position. Such a move never succeeds. */
  lemma {:induction false} MoveIntoItselfNeverSucceeds(before: FileSystem, from: Path, to: Path, s: Script, after: FileSystem)
    requires IsFolder(before, from) && Under(from, to) && from != to
    ensures !Replays(before, from, to, s, true, after)
    decreases s
  {
    hide Replays;
    if Replays(before, from, to, s, true, after) {
      OnlyWalks(before, from, to, s, after);
      var k := StepOnTheWay(before, from, to, s, after);
      var name := s.steps[k].name;
      var child := from + [name];
      ChildOnTheWay(from, to, name);
      StepsKeepOthers(before, from, to, s, true, after, k, child);
      MoveIntoItselfNeverSucceeds(Now(s.made, s.steps, k), child, to + [name], s.steps[k].script, s.steps[k].after);
    }
  }

  lemma OnlyWalks(before: FileSystem, from: Path, to: Path, s: Script, after: FileSystem)
    requires IsFolder(before, from) && Replays(before, from, to, s, true, after)
    ensures s.Walked?
  {
  }

  lemma ChildOnTheWay(from: Path, to: Path, name: Name)
    requires Under(from + [name], to)
    ensures Under(from + [name], to + [name]) && from + [name] != to + [name]
  {
    assert (to + [name])[..|from| + 1] == to[..|from| + 1];
    assert |to| > |from|;
  }

  lemma StepOnTheWay(before: FileSystem, from: Path, to: Path, s: Script, after: FileSystem) returns (k: nat)
    requires s.Walked? && Replays(before, from, to, s, true, after) && Under(from, to) && from != to
    ensures k < |s.steps| && Under(from + [s.steps[k].name], to) && s.steps[k].ok
    ensures IsFolder(s.made, from + [s.steps[k].name])
    ensures forall i :: 0 <= i < k ==> !Under(from + [s.steps[i].name], from + [s.steps[k].name])
    ensures Replays(Now(s.made, s.steps, k), from + [s.steps[k].name], to + [s.steps[k].name], s.steps[k].script, true, s.steps[k].after)
  {
    StrictlyInside(from, to);
    var child := to[..|from| + 1];
    PrefixIsFolder(s.made, child, to);
    assert child in Children(s.made, from);
    assert child in Visited(from, s.steps);
    k :| 0 <= k < |s.steps| && child == from + [s.steps[k].name];
    forall i | 0 <= i < k ensures !Under(from + [s.steps[i].name], child) {
      SiblingsApart(from, s.steps[i].name, s.steps[k].name);
    }
  }

  lemma StrictlyInside(from: Path, to: Path)
    requires Under(from, to) && from != to
    ensures |to| > |from| && to[..|from| + 1] == from + [to[|from|]] && Under(from, to[..|from| + 1])
  {
    assert to[..|to|] == to;
  }

  lemma SiblingsApart(d: Path, a: Name, b: Name)
    requires a != b
    ensures Apart(d + [a], d + [b])
  {
    assert (d + [a])[|d|] == a && (d + [b])[|d|] == b;
    assert (d + [b])[..|d| + 1] == d + [b] && (d + [a])[..|d| + 1] == d + [a];
  }
}
