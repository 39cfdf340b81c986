/** The updater's exchange: entries of the installation go to a backup, entries of the
    payload take their place, and a failure is rolled back as far as it goes. */
module InstallSwap {
  import opened FileMoves
  import opened MoveRuns

  // ---------------------------------------------------------------- entries

  function Rest(d: Path, p: Path): Path
    requires Under(d, p)
  {
    p[|d|..]
  }

  /** The paths of these files relative to `d`. */
  function Relative(d: Path, moved: set<Path>): set<Path>
    requires forall q :: q in moved ==> Under(d, q)
  {
    set q | q in moved :: Rest(d, q)
  }

  lemma RelativeIs(d: Path, moved: set<Path>, t: Path)
    requires forall q :: q in moved ==> Under(d, q)
    ensures t in Relative(d, moved) <==> d + t in moved
  {
    UnderJoin(d, t);
    if t in Relative(d, moved) {
      var q :| q in moved && q[|d|..] == t;
      JoinUnder(d, q);
    }
  }

  /** The files below `d`, by their relative paths. */
  function TreeAt(files: Files, d: Path): Files
  {
    map t | t in Relative(d, Below(files, d)) ::
      RelativeIs(d, Below(files, d), t);
      files[d + t]
  }

  lemma TreeIs(files: Files, d: Path, t: Path)
    ensures t in TreeAt(files, d) <==> d + t in files
    ensures t in TreeAt(files, d) ==> TreeAt(files, d)[t] == files[d + t]
  {
    UnderJoin(d, t);
    RelativeIs(d, Below(files, d), t);
  }

  lemma UnderJoin(d: Path, t: Path)
    ensures Under(d, d + t) && (d + t)[|d|..] == t
  {
  }

  lemma JoinUnder(d: Path, p: Path)
    requires Under(d, p)
    ensures d + p[|d|..] == p
  {
    assert p == p[..|d|] + p[|d|..];
  }

  function Names(fs: FileSystem, d: Path): set<Name>
  {
    set p | p in fs && |p| == |d| + 1 && Under(d, p) :: p[|d|]
  }

  /** The three folders of an update. */
  datatype Places = Places(root: Path, payload: Path, backup: Path)

  /** The payload and the backup may lie inside the root, as long as no entry of the payload
      names a folder on the way to one of them. */
  predicate Fits(at: Places, names: set<Name>)
  {
    Apart(at.payload, at.backup) && forall n :: n in names ==> Apart(at.root + [n], at.payload) && Apart(at.root + [n], at.backup)
  }

  /** The updater's own layout: both folders sit in `.update` inside the root. */
  function UpdaterPlaces(root: Path, sub: Path): Places
  {
    Places(root, root + [".update"] + sub, root + [".update", "old"])
  }

  lemma UpdaterLayoutFits(root: Path, sub: Path, names: set<Name>)
    requires sub != [] && sub[0] != "old"
    ensures Fits(UpdaterPlaces(root, sub), names) <==> ".update" !in names
  {
    var update, payload, backup := root + [".update"], root + [".update"] + sub, root + [".update", "old"];
    assert backup == update + ["old"];
    assert payload[|update|] == sub[0] && payload[..|update|] == update;
    assert backup[..|update|] == update && backup[|update|] == "old";
    assert Apart(payload, backup) by {
      assert payload[..|backup|][|update|] == sub[0];
      assert |payload| <= |backup| ==> backup[..|payload|][|update|] == "old";
    }
    assert Under(update, payload) && !Apart(update, payload);
    forall n | n != ".update" ensures Apart(root + [n], payload) && Apart(root + [n], backup) {
      SiblingsApart(root, n, ".update");
      ApartBelow(root + [n], update, payload);
      ApartBelow(root + [n], update, backup);
    }
  }

  lemma ApartBelow(a: Path, b: Path, c: Path)
    requires Apart(a, b) && Under(b, c)
    ensures Apart(a, c)
  {
    UnderBoth(a, b, c);
    PrefixTransitive(b, c, a);
  }

  lemma ApartSymmetric(a: Path, b: Path)
    requires Apart(a, b)
    ensures Apart(b, a)
  {
  }

  /** The three places of one entry. */
  datatype Entry = Entry(root: Files, payload: Files, backup: Files)

  function EntryAt(files: Files, at: Places, n: Name): Entry
  {
    Entry(TreeAt(files, at.root + [n]), TreeAt(files, at.payload + [n]), TreeAt(files, at.backup + [n]))
  }

  /** `p` lies in one of the three places of an entry with one of these names. */
  predicate Named(at: Places, names: set<Name>, p: Path)
  {
    exists n :: n in names && (Under(at.root + [n], p) || Under(at.payload + [n], p) || Under(at.backup + [n], p))
  }

  ghost predicate TouchesOnly(a: Files, b: Files, at: Places, names: set<Name>)
  {
    forall p :: !Named(at, names, p) ==> (p in b <==> p in a) && (p in a ==> b[p] == a[p])
  }

  /** When all places of all entries are as they were, everything is. */
  lemma SameEntriesSameFiles(a: Files, b: Files, at: Places, names: set<Name>)
    requires TouchesOnly(a, b, at, names)
    requires forall n :: n in names ==> EntryAt(b, at, n) == EntryAt(a, at, n)
    ensures a == b
  {
    forall p ensures p in a <==> p in b
             ensures p in a ==> a[p] == b[p]
    {
      if Named(at, names, p) {
        var n :| n in names && (Under(at.root + [n], p) || Under(at.payload + [n], p) || Under(at.backup + [n], p));
        assert EntryAt(b, at, n) == EntryAt(a, at, n);
        if Under(at.root + [n], p) {
          SameTreeSameFile(a, b, at.root + [n], p);
        } else if Under(at.payload + [n], p) {
          SameTreeSameFile(a, b, at.payload + [n], p);
        } else {
          SameTreeSameFile(a, b, at.backup + [n], p);
        }
      }
    }
  }

  lemma SameTreeSameFile(a: Files, b: Files, d: Path, p: Path)
    requires TreeAt(a, d) == TreeAt(b, d) && Under(d, p)
    ensures p in a <==> p in b
    ensures p in a ==> a[p] == b[p]
  {
    JoinUnder(d, p);
    TreeIs(a, d, p[|d|..]);
    TreeIs(b, d, p[|d|..]);
  }

  // ---------------------------------------------------------------- what a move does to the trees

  function Restrict(files: Files, keys: set<Path>): Files
  {
    map t | t in files && t in keys :: files[t]
  }

  lemma MovedTrees(a: Files, from: Path, to: Path, moved: set<Path>)
    requires Apart(from, to) && Movable(a, from, to, moved)
    ensures forall q :: q in moved ==> Under(from, q)
    ensures var b, m := Relocate(a, from, to, moved), Relative(from, moved);
            && m <= TreeAt(a, from).Keys && m !! TreeAt(a, to).Keys
            && TreeAt(b, from) == TreeAt(a, from) - m
            && TreeAt(b, to) == TreeAt(a, to) + Restrict(TreeAt(a, from), m)
  {
    hide Relocate, Apart, TreeAt, Movable, Under;
    MovableIs(a, from, to, moved);
    var b, m := Relocate(a, from, to, moved), Relative(from, moved);
    forall t ensures t in m ==> t in TreeAt(a, from) && t !in TreeAt(a, to) {
      RelativeIs(from, moved, t);
      TreeIs(a, from, t);
      TreeIs(a, to, t);
      RebaseJoin(from, to, t);
    }
    forall t ensures t in TreeAt(b, from) <==> t in TreeAt(a, from) - m
             ensures t in TreeAt(b, from) ==> TreeAt(b, from)[t] == TreeAt(a, from)[t]
    {
      TreesAtSource(a, from, to, moved, t);
    }
    forall t ensures t in TreeAt(b, to) <==> t in TreeAt(a, to) || t in m
             ensures t in TreeAt(b, to) ==> TreeAt(b, to)[t] == if t in m then TreeAt(a, from)[t] else TreeAt(a, to)[t]
    {
      TreesAtTarget(a, from, to, moved, t);
    }
  }

  lemma RebaseJoin(from: Path, to: Path, t: Path)
    ensures Under(from, from + t) && Under(to, to + t)
    ensures Rebase(from + t, from, to) == to + t && Rebase(to + t, to, from) == from + t
  {
    UnderJoin(from, t);
    UnderJoin(to, t);
  }

  lemma TreesAtSource(a: Files, from: Path, to: Path, moved: set<Path>, t: Path)
    requires Apart(from, to) && Movable(a, from, to, moved) && forall q :: q in moved ==> Under(from, q)
    ensures var b := Relocate(a, from, to, moved);
            && (t in TreeAt(b, from) <==> t in TreeAt(a, from) && t !in Relative(from, moved))
            && (t in TreeAt(b, from) ==> TreeAt(b, from)[t] == TreeAt(a, from)[t])
  {
    hide Relocate, Apart, TreeAt, Movable, Under;
    RelativeIs(from, moved, t);
    TreeIs(a, from, t);
    TreeIs(Relocate(a, from, to, moved), from, t);
    RebaseJoin(from, to, t);
    BelowIsApart(from, to, from + t);
    Relocated(a, from, to, moved, from + t);
  }

  lemma TreesAtTarget(a: Files, from: Path, to: Path, moved: set<Path>, t: Path)
    requires Apart(from, to) && Movable(a, from, to, moved) && forall q :: q in moved ==> Under(from, q)
    ensures var b := Relocate(a, from, to, moved);
            && (t in Relative(from, moved) ==> t in TreeAt(a, from))
            && (t in TreeAt(b, to) <==> t in TreeAt(a, to) || t in Relative(from, moved))
            && (t in TreeAt(b, to) ==>
                  TreeAt(b, to)[t] == if t in Relative(from, moved) then TreeAt(a, from)[t] else TreeAt(a, to)[t])
  {
    hide Relocate, Apart, TreeAt, Movable, Under;
    MovableIs(a, from, to, moved);
    RelativeIs(from, moved, t);
    TreeIs(a, from, t);
    TreeIs(a, to, t);
    TreeIs(Relocate(a, from, to, moved), to, t);
    RebaseJoin(from, to, t);
    ApartSymmetric(from, to);
    BelowIsApart(to, from, to + t);
    Relocated(a, from, to, moved, to + t);
  }

  lemma OtherTree(a: Files, from: Path, to: Path, moved: set<Path>, d: Path)
    requires Apart(from, to) && Movable(a, from, to, moved) && Apart(from, d) && Apart(to, d)
    ensures TreeAt(Relocate(a, from, to, moved), d) == TreeAt(a, d)
  {
    hide Relocate, TreeAt, Movable;
    MovableIs(a, from, to, moved);
    var b := Relocate(a, from, to, moved);
    forall t ensures t in TreeAt(b, d) <==> t in TreeAt(a, d)
             ensures t in TreeAt(b, d) ==> TreeAt(b, d)[t] == TreeAt(a, d)[t]
    {
      TreeIs(a, d, t);
      TreeIs(b, d, t);
      UnderJoin(d, t);
      UnderBoth(from, d, d + t);
      UnderBoth(to, d, d + t);
      Relocated(a, from, to, moved, d + t);
    }
  }

  /** Everything below `from` moved. */
  lemma WholeTree(a: Files, from: Path)
    ensures forall q :: q in Below(a, from) ==> Under(from, q)
    ensures Relative(from, Below(a, from)) == TreeAt(a, from).Keys
  {
    forall t ensures t in Relative(from, Below(a, from)) <==> t in TreeAt(a, from) {
      RelativeIs(from, Below(a, from), t);
      TreeIs(a, from, t);
      UnderJoin(from, t);
    }
  }

  // ---------------------------------------------------------------- places do not overlap

  lemma PlacesApart(at: Places, names: set<Name>, n: Name, m: Name)
    requires Fits(at, names) && n in names && m in names
    ensures Apart(at.root + [n], at.payload + [m]) && Apart(at.payload + [m], at.root + [n])
    ensures Apart(at.root + [n], at.backup + [m]) && Apart(at.backup + [m], at.root + [n])
    ensures Apart(at.payload + [n], at.backup + [m]) && Apart(at.backup + [m], at.payload + [n])
    ensures n != m ==> Apart(at.root + [n], at.root + [m]) && Apart(at.payload + [n], at.payload + [m]) && Apart(at.backup + [n], at.backup + [m])
  {
    hide Apart, Under;
    ChildUnder(at.payload, m, at.payload + [m]);
    ChildUnder(at.payload, n, at.payload + [n]);
    ChildUnder(at.backup, m, at.backup + [m]);
    ApartBelow(at.root + [n], at.payload, at.payload + [m]);
    ApartBelow(at.root + [n], at.backup, at.backup + [m]);
    ApartBelow(at.payload, at.backup, at.backup + [m]);
    ApartSymmetric(at.payload, at.backup + [m]);
    ApartBelow(at.backup + [m], at.payload, at.payload + [n]);
    ApartSymmetric(at.backup + [m], at.payload + [n]);
    ApartSymmetric(at.root + [n], at.payload + [m]);
    ApartSymmetric(at.root + [n], at.backup + [m]);
    if n != m {
      SiblingsApart(at.root, n, m);
      SiblingsApart(at.payload, n, m);
      SiblingsApart(at.backup, n, m);
    }
  }

  /** The places a move goes between. */
  datatype Way = Save | Install | Uninstall | Restore

  function Source(way: Way, at: Places): Path
  {
    match way
    case Save => at.root
    case Install => at.payload
    case Uninstall => at.root
    case Restore => at.backup
  }

  function Target(way: Way, at: Places): Path
  {
    match way
    case Save => at.backup
    case Install => at.root
    case Uninstall => at.payload
    case Restore => at.root
  }

  /** The place that is neither. */
  function Third(way: Way, at: Places): Path
  {
    if way.Save? || way.Restore? then at.payload else at.backup
  }

  ghost predicate OthersKept(a: FileSystem, b: FileSystem, at: Places, k: Name)
  {
    SameBelow(a, b, at.root + [k]) && SameBelow(a, b, at.payload + [k]) && SameBelow(a, b, at.backup + [k])
  }

  /** A move of entry `n` leaves all other places alone. */
  ghost predicate Leaves(a: FileSystem, b: FileSystem, at: Places, names: set<Name>, way: Way, n: Name)
  {
    (forall k :: k in names && k != n ==> OthersKept(a, b, at, k)) && SameBelow(a, b, Third(way, at) + [n])
  }

  /** Each of these files below `d` lay beside something else. */
  ghost predicate TookBeside(fs: FileSystem, d: Path, m: set<Path>)
  {
    forall t :: t in m ==> Beside(fs, d, d + t)
  }

  /** The entry after the files `m` went this way. */
  function Went(way: Way, e: Entry, m: set<Path>): Entry
  {
    match way
    case Save => e.(root := e.root - m, backup := e.backup + Restrict(e.root, m))
    case Install => e.(payload := e.payload - m, root := e.root + Restrict(e.payload, m))
    case Uninstall => e.(root := e.root - m, payload := e.payload + Restrict(e.root, m))
    case Restore => e.(backup := e.backup - m, root := e.root + Restrict(e.backup, m))
  }

  function FromTree(way: Way, e: Entry): Files
  {
    match way
    case Save => e.root
    case Install => e.payload
    case Uninstall => e.root
    case Restore => e.backup
  }

  function ToTree(way: Way, e: Entry): Files
  {
    match way
    case Save => e.backup
    case Install => e.root
    case Uninstall => e.payload
    case Restore => e.root
  }

  /** A move of entry `n`: it changes that entry as `Went` says, and nothing else. */
  ghost predicate Moves(a: Files, b: Files, at: Places, names: set<Name>, way: Way, n: Name, m: set<Path>)
  {
    && (var e := EntryAt(a, at, n);
        m <= FromTree(way, e).Keys && m !! ToTree(way, e).Keys && EntryAt(b, at, n) == Went(way, e, m))
    && (forall k :: k in names && k != n ==> EntryAt(b, at, k) == EntryAt(a, at, k))
    && TouchesOnly(a, b, at, names)
  }

  lemma MoveMoves(a: Files, at: Places, names: set<Name>, way: Way, n: Name, moved: set<Path>) returns (m: set<Path>)
    requires Fits(at, names) && n in names
    requires var from, to := Source(way, at) + [n], Target(way, at) + [n];
             Apart(from, to) && Movable(a, from, to, moved)
    ensures var from, to := Source(way, at) + [n], Target(way, at) + [n];
            && Moves(a, Relocate(a, from, to, moved), at, names, way, n, m)
            && (moved == Below(a, from) ==> m == FromTree(way, EntryAt(a, at, n)).Keys)
            && (moved == {} <==> m == {}) && (forall q :: q in moved ==> Under(from, q)) && m == Relative(from, moved)
  {
    hide Fits, Apart, Movable, Relocate, TreeAt, Below, TouchesOnly;
    var from, to := Source(way, at) + [n], Target(way, at) + [n];
    MovedTrees(a, from, to, moved);
    m := Relative(from, moved);
    WholeTree(a, from);
    if moved != {} {
      var q :| q in moved;
      assert q[|from|..] in m;
    }
    PlacesApart(at, names, n, n);
    var b := Relocate(a, from, to, moved);
    ThirdTree(a, at, names, way, n, moved);
    forall k | k in names && k != n ensures EntryAt(b, at, k) == EntryAt(a, at, k) {
      OtherEntry(a, at, names, way, n, moved, k);
    }
    MoveTouches(a, at, names, way, n, moved);
  }

  /** The place that is neither source nor target. */
  lemma ThirdTree(a: Files, at: Places, names: set<Name>, way: Way, n: Name, moved: set<Path>)
    requires Fits(at, names) && n in names
    requires var from, to := Source(way, at) + [n], Target(way, at) + [n];
             Apart(from, to) && Movable(a, from, to, moved)
    ensures var third := Third(way, at) + [n];
            TreeAt(Relocate(a, Source(way, at) + [n], Target(way, at) + [n], moved), third)
            == TreeAt(a, third)
  {
    hide Fits, Apart, Movable, Relocate, TreeAt;
    PlacesApart(at, names, n, n);
    OtherTree(a, Source(way, at) + [n], Target(way, at) + [n], moved,
              Third(way, at) + [n]);
  }

  lemma OtherEntry(a: Files, at: Places, names: set<Name>, way: Way, n: Name, moved: set<Path>, k: Name)
    requires Fits(at, names) && n in names && k in names && k != n
    requires var from, to := Source(way, at) + [n], Target(way, at) + [n];
             Apart(from, to) && Movable(a, from, to, moved)
    ensures EntryAt(Relocate(a, Source(way, at) + [n], Target(way, at) + [n], moved),
                    at, k) == EntryAt(a, at, k)
  {
    hide Fits, Apart, Movable, Relocate, TreeAt;
    var from, to := Source(way, at) + [n], Target(way, at) + [n];
    PlacesApart(at, names, n, k);
    PlacesApart(at, names, k, n);
    OtherTree(a, from, to, moved, at.root + [k]);
    OtherTree(a, from, to, moved, at.payload + [k]);
    OtherTree(a, from, to, moved, at.backup + [k]);
  }

  lemma MoveTouches(a: Files, at: Places, names: set<Name>, way: Way, n: Name, moved: set<Path>)
    requires n in names
    requires var from, to := Source(way, at) + [n], Target(way, at) + [n];
             Apart(from, to) && Movable(a, from, to, moved)
    ensures TouchesOnly(a, Relocate(a, Source(way, at) + [n], Target(way, at) + [n], moved),
                        at, names)
  {
    hide Apart, Movable, Relocate, Under;
    var from, to := Source(way, at) + [n], Target(way, at) + [n];
    MovableIs(a, from, to, moved);
    forall p | !Named(at, names, p)
      ensures (p in Relocate(a, from, to, moved) <==> p in a) && (p in a ==> Relocate(a, from, to, moved)[p] == a[p])
    {
      Relocated(a, from, to, moved, p);
      assert !Under(from, p) && !Under(to, p);
    }
  }

  lemma TouchesTransitive(a: Files, b: Files, c: Files, at: Places, names: set<Name>)
    requires TouchesOnly(a, b, at, names) && TouchesOnly(b, c, at, names)
    ensures TouchesOnly(a, c, at, names)
  {
    hide Named;
    forall p | !Named(at, names, p) ensures (p in c <==> p in a) && (p in a ==> c[p] == a[p]) {
      assert p in b <==> p in a;
    }
  }

  lemma TouchesNothing(a: Files, at: Places, names: set<Name>)
    ensures TouchesOnly(a, a, at, names)
  {
    hide Named;
  }

  // ---------------------------------------------------------------- one move

  lemma MadeKeeps(before: FileSystem, after: FileSystem, to: Path, d: Path)
    requires OnlyFoldersTo(before, after, to) && Apart(d, to)
    ensures SameBelow(before, after, d)
  {
    hide Under, Apart, Near;
    forall p | Under(d, p) ensures SameAt(before, after, p) {
      FarFrom(d, to, p);
      if p in after {
        MadeIsNear(before, after, to, p);
      }
    }
  }

  /** Every folder below `from` has its counterpart below `to`. */
  ghost predicate FoldersWent(a: FileSystem, b: FileSystem, from: Path, to: Path)
  {
    forall p :: Under(from, p) && IsFolder(a, p) ==> IsFolder(b, Rebase(p, from, to))
  }

  lemma FoldersGo(before: FileSystem, from: Path, to: Path, s: Script, after: FileSystem)
    requires WellFormed(before) && Replays(before, from, to, s, true, after) && Apart(from, to)
    ensures FoldersWent(before, after, from, to)
  {
    hide WellFormed, Replays, Apart, Under, FolderChain;
    forall p | Under(from, p) && IsFolder(before, p) ensures IsFolder(after, Rebase(p, from, to)) {
      ChainIs(before, from, p);
      FolderArrives(before, from, to, s, after, p);
    }
  }

  /** A single file moves at once or not at all. */
  lemma FileMove(before: FileSystem, from: Path, to: Path, s: Script, ok: bool, after: FileSystem)
    requires Replays(before, from, to, s, ok, after) && !IsFolder(before, from)
    ensures ok ==> to !in before
    ensures !ok ==> after == before
  {
  }

  lemma NoneMoved(a: Files, from: Path, to: Path, moved: set<Path>)
    requires Apart(from, to) && Movable(a, from, to, moved) && Relocate(a, from, to, moved) == a
    ensures moved == {}
  {
    hide Relocate;
    if moved != {} {
      var q :| q in moved;
      Relocated(a, from, to, moved, q);
      BelowIsApart(from, to, q);
    }
  }

  /** Where nothing is there are no files below. */
  lemma NothingBelow(fs: FileSystem, d: Path)
    requires WellFormed(fs) && d !in fs
    ensures TreeAt(FilesOf(fs), d) == map[]
  {
    hide WellFormed;
    forall t ensures t !in TreeAt(FilesOf(fs), d) {
      TreeIs(FilesOf(fs), d, t);
      UnderJoin(d, t);
      if d + t in fs {
        PrefixIsFolder(fs, d, d + t);
      }
    }
  }

  /** `moveEntry` between two of the three places of entry `n`; `m` says which files went. */
  method MoveNamed(disk: Disk, at: Places, way: Way, n: Name, ghost names: set<Name>) returns (ok: bool, ghost m: set<Path>)
    requires WellFormed(disk.fs) && Fits(at, names) && n in names
    modifies disk
    ensures WellFormed(disk.fs)
    ensures Contents(FilesOf(disk.fs)) == Contents(FilesOf(old(disk.fs)))
    ensures Moves(FilesOf(old(disk.fs)), FilesOf(disk.fs), at, names, way, n, m)
    ensures TouchesOnly(FilesOf(old(disk.fs)), FilesOf(disk.fs), at, names)
    ensures disk.failures == old(disk.failures) + if ok then 0 else 1
    ensures ok ==> m == FromTree(way, EntryAt(FilesOf(old(disk.fs)), at, n)).Keys
    ensures !IsFolder(old(disk.fs), Source(way, at) + [n]) ==>
              if ok then ToTree(way, EntryAt(FilesOf(old(disk.fs)), at, n)) == map[] else m == {}
    ensures ok ==> FoldersWent(old(disk.fs), disk.fs, Source(way, at) + [n], Target(way, at) + [n])
    ensures !ok ==> TookBeside(old(disk.fs), Source(way, at) + [n], m)
    ensures Leaves(old(disk.fs), disk.fs, at, names, way, n)
  {
    hide WellFormed, Fits, Apart, Replays, Movable, Relocate, FilesOf, Below, Contents, Moves, NewOnlyAt, TreeAt;
    ghost var was := disk.fs;
    var from, to := Source(way, at) + [n], Target(way, at) + [n];
    PlacesApart(at, names, n, n);
    ghost var moved, script;
    ok, moved, script := disk.MoveEntry(from, to);
    m := MoveMoves(FilesOf(was), at, names, way, n, moved);
    MoveTouches(FilesOf(was), at, names, way, n, moved);
    ReplayKeepsContents(was, from, to, script, ok, disk.fs);
    if !IsFolder(was, from) {
      FileMove(was, from, to, script, ok, disk.fs);
      if ok {
        NothingBelow(was, to);
      } else {
        NoneMoved(FilesOf(was), from, to, moved);
      }
    }
    forall k | k in names && k != n ensures OthersKept(was, disk.fs, at, k) {
      PlacesApart(at, names, n, k);
      PlacesApart(at, names, k, n);
      BelowKept(was, from, to, script, ok, disk.fs, at.root + [k]);
      BelowKept(was, from, to, script, ok, disk.fs, at.payload + [k]);
      BelowKept(was, from, to, script, ok, disk.fs, at.backup + [k]);
    }
    BelowKept(was, from, to, script, ok, disk.fs, Third(way, at) + [n]);
    if ok {
      FoldersGo(was, from, to, script, disk.fs);
    } else {
      TakenAreBeside(was, from, to, script, disk.fs, moved, m);
    }
  }

  lemma TakenAreBeside(before: FileSystem, from: Path, to: Path, s: Script, after: FileSystem, moved: set<Path>, m: set<Path>)
    requires Replays(before, from, to, s, false, after) && Apart(from, to)
    requires Movable(FilesOf(before), from, to, moved) && FilesOf(after) == Relocate(FilesOf(before), from, to, moved)
    requires (forall q :: q in moved ==> Under(from, q)) && m == Relative(from, moved)
    ensures TookBeside(before, from, m)
  {
    hide Replays, Relocate, Apart, Under, Beside;
    forall t | t in m ensures Beside(before, from, from + t) {
      var q := from + t;
      RelativeIs(from, moved, t);
      UnderJoin(from, t);
      BelowIsApart(from, to, q);
      Relocated(FilesOf(before), from, to, moved, q);
      assert q in FilesOf(before) && q !in FilesOf(after);
      if q in after {
        NodeKept(before, from, to, s, after, q);
      }
      FailureTakesBeside(before, from, to, s, after, q);
    }
  }

  lemma NodeKept(before: FileSystem, from: Path, to: Path, s: Script, after: FileSystem, q: Path)
    requires Replays(before, from, to, s, false, after) && Apart(from, to) && Under(from, q) && q in after
    ensures q in before && before[q] == after[q]
  {
    hide Replays, Apart, Under, Near;
    FarFrom(from, to, q);
    ReplayAddsNear(before, from, to, s, false, after, q);
  }

  // ---------------------------------------------------------------- whole moves

  /** The entry after everything in the source place went this way. */
  function Whole(way: Way, e: Entry): Entry
  {
    Went(way, e, FromTree(way, e).Keys)
  }

  lemma WholeIs(e: Entry)
    ensures Whole(Save, e) == Entry(map[], e.payload, e.backup + e.root)
    ensures Whole(Install, e) == Entry(e.root + e.payload, map[], e.backup)
    ensures Whole(Uninstall, e) == Entry(map[], e.payload + e.root, e.backup)
    ensures Whole(Restore, e) == Entry(e.root + e.backup, e.payload, map[])
  {
    AllAndNone(e.root);
    AllAndNone(e.payload);
    AllAndNone(e.backup);
  }

  lemma AllAndNone(files: Files)
    ensures Restrict(files, files.Keys) == files && files - files.Keys == map[]
    ensures Restrict(files, {}) == map[] && files - {} == files
    ensures map[] + files == files && files + map[] == files
  {
  }

  lemma NothingWent(way: Way, e: Entry)
    ensures Went(way, e, {}) == e
  {
    AllAndNone(e.root);
    AllAndNone(e.payload);
    AllAndNone(e.backup);
  }

  // ---------------------------------------------------------------- the rollback

  predicate NoRepeats(list: seq<Name>)
  {
    forall i, j :: 0 <= i < j < |list| ==> list[i] != list[j]
  }

  function Elements(list: seq<Name>): set<Name>
  {
    set n | n in list
  }

  lemma NoElements()
    ensures Elements([]) == {} && NoRepeats([])
  {
  }

  lemma Appended(list: seq<Name>, n: Name)
    ensures Elements(list + [n]) == Elements(list) + {n}
    ensures NoRepeats(list) && n !in Elements(list) ==> NoRepeats(list + [n])
  {
  }

  /** Exactly the entries of `gone` went this way, each as a whole. */
  ghost predicate AllWent(a: Files, b: Files, at: Places, names: set<Name>, way: Way, gone: set<Name>)
  {
    forall n :: n in names ==>
      var e := EntryAt(a, at, n);
      && EntryAt(b, at, n) == (if n in gone then Whole(way, e) else e)
      && (n in gone ==> FromTree(way, e).Keys !! ToTree(way, e).Keys)
  }

  lemma WentNext(a: Files, b: Files, c: Files, at: Places, names: set<Name>, way: Way, gone: set<Name>, n: Name, m: set<Path>)
    requires AllWent(a, b, at, names, way, gone) && n in names && n !in gone
    requires Moves(b, c, at, names, way, n, m) && m == FromTree(way, EntryAt(b, at, n)).Keys
    ensures AllWent(a, c, at, names, way, gone + {n})
  {
    hide EntryAt, TouchesOnly, Went;
  }

  lemma NothingGone(a: Files, at: Places, names: set<Name>, way: Way)
    ensures AllWent(a, a, at, names, way, {})
  {
    hide EntryAt;
  }

  /** The folders that went with them, and the places nobody touched. */
  ghost predicate FoldersAllWent(a: FileSystem, b: FileSystem, at: Places, names: set<Name>, way: Way, gone: set<Name>)
  {
    forall n :: n in names ==>
      && SameBelow(a, b, Third(way, at) + [n])
      && (if n in gone then FoldersWent(a, b, Source(way, at) + [n], Target(way, at) + [n]) else OthersKept(a, b, at, n))
  }

  lemma NoFolderGone(a: FileSystem, at: Places, names: set<Name>, way: Way)
    ensures FoldersAllWent(a, a, at, names, way, {})
  {
  }

  lemma FoldersWentNext(a: FileSystem, b: FileSystem, c: FileSystem, at: Places, names: set<Name>, way: Way, gone: set<Name>, n: Name)
    requires FoldersAllWent(a, b, at, names, way, gone) && n in names && n !in gone
    requires Leaves(b, c, at, names, way, n) && FoldersWent(b, c, Source(way, at) + [n], Target(way, at) + [n])
    ensures FoldersAllWent(a, c, at, names, way, gone + {n})
  {
    hide SameBelow, FoldersWent;
    FoldersFrom(a, b, c, Source(way, at) + [n], Target(way, at) + [n]);
    forall k | k in names
      ensures SameBelow(a, c, Third(way, at) + [k])
      ensures k in gone ==> FoldersWent(a, c, Source(way, at) + [k], Target(way, at) + [k])
      ensures k !in gone && k != n ==> OthersKept(a, c, at, k)
    {
      SameBelowTransitive(a, b, c, Third(way, at) + [k]);
      if k in gone {
        FoldersKept(a, b, c, Source(way, at) + [k], Target(way, at) + [k]);
      } else if k != n {
        SameBelowTransitive(a, b, c, at.root + [k]);
        SameBelowTransitive(a, b, c, at.payload + [k]);
        SameBelowTransitive(a, b, c, at.backup + [k]);
      }
    }
  }

  /** One loop of the rollback: the entries of the list go back, the last one first; what
      fails is passed over. */
  method MoveAllBack(disk: Disk, at: Places, way: Way, list: seq<Name>, ghost names: set<Name>)
    requires WellFormed(disk.fs) && Fits(at, names) && NoRepeats(list) && Elements(list) <= names
    modifies disk
    ensures WellFormed(disk.fs)
    ensures Contents(FilesOf(disk.fs)) == Contents(FilesOf(old(disk.fs)))
    ensures TouchesOnly(FilesOf(old(disk.fs)), FilesOf(disk.fs), at, names)
    ensures disk.failures >= old(disk.failures)
    ensures disk.failures == old(disk.failures) ==> AllWent(FilesOf(old(disk.fs)), FilesOf(disk.fs), at, names, way, Elements(list))
    ensures disk.failures == old(disk.failures) ==> FoldersAllWent(old(disk.fs), disk.fs, at, names, way, Elements(list))
  {
    hide WellFormed, Fits, FilesOf, Contents, TouchesOnly, AllWent, EntryAt, FoldersAllWent, Leaves, FoldersWent;
    ghost var was := disk.fs;
    ghost var gone: set<Name> := {};
    NothingGone(FilesOf(was), at, names, way);
    NoFolderGone(was, at, names, way);
    TouchesNothing(FilesOf(was), at, names);
    var i := |list|;
    while i > 0
      invariant 0 <= i <= |list| && WellFormed(disk.fs) && gone == Elements(list[i..])
      invariant Contents(FilesOf(disk.fs)) == Contents(FilesOf(was))
      invariant TouchesOnly(FilesOf(was), FilesOf(disk.fs), at, names)
      invariant disk.failures >= old(disk.failures)
      invariant disk.failures == old(disk.failures) ==> AllWent(FilesOf(was), FilesOf(disk.fs), at, names, way, gone)
      invariant disk.failures == old(disk.failures) ==> FoldersAllWent(was, disk.fs, at, names, way, gone)
    {
      i := i - 1;
      var n := list[i];
      assert list[i..] == [n] + list[i + 1..];
      ghost var before := disk.fs;
      var ok;
      ghost var m;
      ok, m := MoveNamed(disk, at, way, n, names);
      TouchesTransitive(FilesOf(was), FilesOf(before), FilesOf(disk.fs), at, names);
      if disk.failures == old(disk.failures) {
        WentNext(FilesOf(was), FilesOf(before), FilesOf(disk.fs), at, names, way, gone, n, m);
        FoldersWentNext(was, before, disk.fs, at, names, way, gone, n);
      }
      gone := gone + {n};
    }
    assert list[0..] == list;
  }

  /** What was installed went back to the payload, then what was saved back to the root. */
  ghost predicate RolledBack(a: Files, b: Files, at: Places, names: set<Name>, installed: set<Name>, saved: set<Name>)
  {
    forall n :: n in names ==> Undone(EntryAt(a, at, n), EntryAt(b, at, n), n in installed, n in saved)
  }

  ghost predicate Undone(e: Entry, after: Entry, installed: bool, saved: bool)
  {
    var u := if installed then Whole(Uninstall, e) else e;
    (saved ==> u.backup.Keys !! u.root.Keys) && after == if saved then Whole(Restore, u) else u
  }

  lemma BothWent(a: Files, b: Files, c: Files, at: Places, names: set<Name>, installed: set<Name>, saved: set<Name>)
    requires AllWent(a, b, at, names, Uninstall, installed) && AllWent(b, c, at, names, Restore, saved)
    ensures RolledBack(a, c, at, names, installed, saved)
  {
    hide EntryAt, Whole;
  }

  /** Every folder of a saved entry is back in the root. */
  ghost predicate FoldersReturned(a: FileSystem, b: FileSystem, at: Places, saved: set<Name>)
  {
    forall n :: n in saved ==> FoldersWent(a, b, at.backup + [n], at.root + [n])
  }

  lemma FoldersReturn(a: FileSystem, b: FileSystem, c: FileSystem, at: Places, names: set<Name>, installed: set<Name>, saved: set<Name>)
    requires FoldersAllWent(a, b, at, names, Uninstall, installed) && FoldersAllWent(b, c, at, names, Restore, saved) && saved <= names
    ensures FoldersReturned(a, c, at, saved)
  {
    hide SameBelow, FoldersWent, OthersKept;
    forall n | n in saved ensures FoldersWent(a, c, at.backup + [n], at.root + [n]) {
      FoldersFrom(a, b, c, at.backup + [n], at.root + [n]);
    }
  }

  /** The rollback: its moves may fail, and nobody asks. */
  method Rollback(disk: Disk, at: Places, installed: seq<Name>, backedUp: seq<Name>, ghost names: set<Name>)
    requires WellFormed(disk.fs) && Fits(at, names) && NoRepeats(installed) && NoRepeats(backedUp)
    requires Elements(installed) <= names && Elements(backedUp) <= names
    modifies disk
    ensures WellFormed(disk.fs)
    ensures Contents(FilesOf(disk.fs)) == Contents(FilesOf(old(disk.fs)))
    ensures TouchesOnly(FilesOf(old(disk.fs)), FilesOf(disk.fs), at, names)
    ensures disk.failures >= old(disk.failures)
    ensures disk.failures == old(disk.failures) ==>
              RolledBack(FilesOf(old(disk.fs)), FilesOf(disk.fs), at, names, Elements(installed), Elements(backedUp))
    ensures disk.failures == old(disk.failures) ==> FoldersReturned(old(disk.fs), disk.fs, at, Elements(backedUp))
  {
    hide WellFormed, Fits, FilesOf, Contents, TouchesOnly, AllWent, RolledBack, FoldersAllWent, FoldersReturned;
    ghost var was := disk.fs;
    MoveAllBack(disk, at, Uninstall, installed, names);
    ghost var mid := disk.fs;
    MoveAllBack(disk, at, Restore, backedUp, names);
    TouchesTransitive(FilesOf(was), FilesOf(mid), FilesOf(disk.fs), at, names);
    if disk.failures == old(disk.failures) {
      BothWent(FilesOf(was), FilesOf(mid), FilesOf(disk.fs), at, names, Elements(installed), Elements(backedUp));
      FoldersReturn(was, mid, disk.fs, at, names, Elements(installed), Elements(backedUp));
    }
  }

  // ---------------------------------------------------------------- the exchange

  /** An entry that was saved or not, and installed or not. */
  function Progress(e: Entry, saved: bool, installed: bool): Entry
  {
    var s := if saved then Whole(Save, e) else e;
    if installed then Whole(Install, s) else s
  }

  /** What the loop keeps: where the files of every entry are. Only a folder can be saved
      on top of an older backup. */
  ghost predicate Halfway(a: FileSystem, b: FileSystem, at: Places, names: set<Name>, saved: set<Name>, installed: set<Name>)
  {
    && (forall n :: n in names ==>
          var e := EntryAt(FilesOf(a), at, n);
          && EntryAt(FilesOf(b), at, n) == Progress(e, n in saved, n in installed)
          && (n in saved ==> SavedWell(a, at, e, n))
          && (n in installed && n !in saved ==> e.root == map[]))
    && Standing(a, b, at, names, saved, installed)
  }

  /** And its folders: entries that were not touched are as they were, and the folders of a
      saved entry are in the backup. */
  ghost predicate Standing(a: FileSystem, b: FileSystem, at: Places, names: set<Name>, saved: set<Name>, installed: set<Name>)
  {
    forall n :: n in names ==>
      && (n !in installed ==> SameBelow(a, b, at.payload + [n]))
      && (n !in saved && n !in installed ==> SameBelow(a, b, at.root + [n]))
      && (n in saved ==> FoldersWent(a, b, at.root + [n], at.backup + [n]))
  }

  lemma FoldersKept(a: FileSystem, b: FileSystem, c: FileSystem, from: Path, to: Path)
    requires FoldersWent(a, b, from, to) && SameBelow(b, c, to)
    ensures FoldersWent(a, c, from, to)
  {
    hide Under;
    forall p | Under(from, p) && IsFolder(a, p) ensures IsFolder(c, Rebase(p, from, to)) {
      RebaseBack(p, from, to);
      assert SameAt(b, c, Rebase(p, from, to));
    }
  }

  lemma FoldersFrom(a: FileSystem, b: FileSystem, c: FileSystem, from: Path, to: Path)
    requires SameBelow(a, b, from) && FoldersWent(b, c, from, to)
    ensures FoldersWent(a, c, from, to)
  {
    hide Under;
    forall p | Under(from, p) && IsFolder(a, p) ensures IsFolder(c, Rebase(p, from, to)) {
      assert SameAt(a, b, p);
    }
  }

  lemma StandingNext(a: FileSystem, b: FileSystem, c: FileSystem, at: Places, names: set<Name>, saved: set<Name>, installed: set<Name>,
                     way: Way, n: Name)
    requires Standing(a, b, at, names, saved, installed) && n in names && n !in installed && (way == Save || way == Install)
    requires Leaves(b, c, at, names, way, n)
    requires way == Save ==> n !in saved && FoldersWent(b, c, at.root + [n], at.backup + [n])
    ensures way == Save ==> Standing(a, c, at, names, saved + {n}, installed)
    ensures way == Install ==> Standing(a, c, at, names, saved, installed + {n})
  {
    hide SameBelow, FoldersWent;
    forall k | k in names
      ensures k != n && k !in installed ==> SameBelow(a, c, at.payload + [k])
      ensures k != n && k !in saved && k !in installed ==> SameBelow(a, c, at.root + [k])
      ensures k in saved ==> FoldersWent(a, c, at.root + [k], at.backup + [k])
    {
      if k != n && k !in installed {
        SameBelowTransitive(a, b, c, at.payload + [k]);
      }
      if k != n && k !in saved && k !in installed {
        SameBelowTransitive(a, b, c, at.root + [k]);
      }
      if k in saved {
        FoldersKept(a, b, c, at.root + [k], at.backup + [k]);
      }
    }
    if way == Save {
      SameBelowTransitive(a, b, c, at.payload + [n]);
      FoldersFrom(a, b, c, at.root + [n], at.backup + [n]);
    }
  }

  predicate SavedWell(a: FileSystem, at: Places, e: Entry, n: Name)
  {
    e.root.Keys !! e.backup.Keys && (e.backup != map[] ==> IsFolder(a, at.root + [n]))
  }

  /** An untouched entry is there as it was. */
  lemma EntryStands(a: FileSystem, b: FileSystem, at: Places, names: set<Name>, saved: set<Name>, installed: set<Name>, n: Name)
    requires Standing(a, b, at, names, saved, installed) && n in names && n !in installed
    ensures IsFolder(b, at.payload + [n]) <==> IsFolder(a, at.payload + [n])
    ensures n !in saved ==> (IsFolder(b, at.root + [n]) <==> IsFolder(a, at.root + [n]))
  {
    hide Under, FoldersWent;
    UnderSelf(at.payload + [n]);
    UnderSelf(at.root + [n]);
    assert SameAt(a, b, at.payload + [n]);
    assert n !in saved ==> SameAt(a, b, at.root + [n]);
  }

  lemma SaveNext(a: FileSystem, b: FileSystem, c: FileSystem, at: Places, names: set<Name>, saved: set<Name>, installed: set<Name>, n: Name,
                 m: set<Path>)
    requires Halfway(a, b, at, names, saved, installed) && n in names && n !in saved && n !in installed
    requires Moves(FilesOf(b), FilesOf(c), at, names, Save, n, m) && m == EntryAt(FilesOf(b), at, n).root.Keys
    requires !IsFolder(b, at.root + [n]) ==> EntryAt(FilesOf(b), at, n).backup == map[]
    requires Leaves(b, c, at, names, Save, n) && FoldersWent(b, c, at.root + [n], at.backup + [n])
    ensures Halfway(a, c, at, names, saved + {n}, installed)
  {
    hide EntryAt, TouchesOnly, Went, FilesOf, Standing, Leaves, FoldersWent, OthersKept;
    StandingNext(a, b, c, at, names, saved, installed, Save, n);
    EntryStands(a, b, at, names, saved, installed, n);
  }

  lemma InstallNext(a: FileSystem, b: FileSystem, c: FileSystem, at: Places, names: set<Name>, saved: set<Name>, installed: set<Name>, n: Name,
                    m: set<Path>)
    requires Halfway(a, b, at, names, saved, installed) && n in names && n !in installed
    requires n in saved || EntryAt(FilesOf(b), at, n).root == map[]
    requires Moves(FilesOf(b), FilesOf(c), at, names, Install, n, m) && m == EntryAt(FilesOf(b), at, n).payload.Keys
    requires Leaves(b, c, at, names, Install, n)
    ensures Halfway(a, c, at, names, saved, installed + {n})
  {
    hide EntryAt, TouchesOnly, Went, FilesOf, Standing, Leaves, OthersKept;
    StandingNext(a, b, c, at, names, saved, installed, Install, n);
  }

  // ---------------------------------------------------------------- what a failure leaves

  /** The entry that was saved comes back from the backup, with all that lay there before. */
  function Reverted(e: Entry, saved: bool): Entry
  {
    if saved then Entry(e.backup + e.root, e.payload, map[]) else e
  }

  /** One entry after a failure and a clean rollback; `m` is what the failing move took. */
  ghost predicate EntryReverts(e: Entry, after: Entry, saved: bool, way: Way, m: set<Path>)
  {
    var r := Reverted(e, saved);
    && (saved ==> e.root.Keys !! e.backup.Keys && (way == Save ==> m == {}))
    && m <= FromTree(way, r).Keys && m !! ToTree(way, r).Keys
    && after == Went(way, r, m)
  }

  /** A clean rollback undoes everything except the move that failed: what that move took
      stays where it went. */
  ghost predicate Reverts(a: Files, b: Files, at: Places, names: set<Name>, saved: set<Name>, way: Way, stopped: Name, partial: set<Path>)
  {
    && (way == Save || way == Install)
    && TouchesOnly(a, b, at, names)
    && forall n :: n in names ==>
         EntryReverts(EntryAt(a, at, n), EntryAt(b, at, n), n in saved, way, if n == stopped then partial else {})
  }

  lemma EntryUndone(e: Entry, x: Entry, y: Entry, after: Entry, saved: bool, installed: bool, way: Way, m: set<Path>)
    requires way == Save || way == Install
    requires saved ==> e.root.Keys !! e.backup.Keys
    requires installed && !saved ==> e.root == map[]
    requires x == Progress(e, saved, installed)
    requires m <= FromTree(way, x).Keys && m !! ToTree(way, x).Keys && y == Went(way, x, m)
    requires m != {} ==> !installed && (way == Save ==> !saved)
    requires Undone(y, after, installed, saved)
    ensures EntryReverts(e, after, saved, way, m)
  {
    hide Went;
    WholeIs(e);
    WholeIs(Whole(Save, e));
    WholeIs(y);
    WholeIs(Whole(Uninstall, y));
    AllAndNone(e.root);
    AllAndNone(e.payload);
    AllAndNone(e.backup);
    AllAndNone(e.backup + e.root);
    NothingWent(way, x);
    NothingWent(way, Reverted(e, saved));
    if m != {} && saved {
      InstalledBit(e, m);
    }
  }

  /** What a failing install left in the root stays there when the saved files come back. */
  lemma InstalledBit(e: Entry, m: set<Path>)
    ensures var y := Went(Install, Entry(map[], e.payload, e.backup + e.root), m);
            y.root.Keys !! y.backup.Keys && m <= e.payload.Keys ==>
              && m !! (e.backup + e.root).Keys
              && Entry(y.root + y.backup, y.payload, map[]) == Went(Install, Reverted(e, true), m)
  {
    var bit, rest := Restrict(e.payload, m), e.backup + e.root;
    assert map[] + bit == bit;
    if bit.Keys !! rest.Keys {
      assert bit + rest == rest + bit;
    }
    if m <= e.payload.Keys {
      assert bit.Keys == m;
    }
  }

  /** The root has the files it had. */
  ghost predicate RootAsBefore(a: Files, b: Files, at: Places, names: set<Name>)
  {
    forall n :: n in names ==> EntryAt(b, at, n).root == EntryAt(a, at, n).root
  }

  lemma EntryRestored(e: Entry, after: Entry, saved: bool, way: Way, m: set<Path>)
    requires (way == Save || way == Install) && EntryReverts(e, after, saved, way, m)
    ensures after.root == e.root <==> m == {} && (saved ==> e.backup == map[])
    ensures after.root == e.root ==> after == e
  {
    if m == {} && (saved ==> e.backup == map[]) {
      NothingWent(way, e);
      AllAndNone(e.root);
    } else if m != {} {
      var t :| t in m;
      var r := Reverted(e, saved);
      assert way == Install ==> t in Restrict(e.payload, m) && t !in r.root;
      assert t in after.root <==> t !in e.root;
    } else {
      NothingWent(way, Reverted(e, saved));
      var t :| t in e.backup;
      assert t in after.root && t !in e.root;
    }
  }

  /** After a failure and a clean rollback the root is what it was exactly when the failing
      move had moved nothing and no saved entry met files of an older backup. Then every
      file is where it was. */
  lemma RestoredExactly(a: Files, b: Files, at: Places, names: set<Name>, saved: set<Name>, way: Way, stopped: Name, partial: set<Path>)
    requires Reverts(a, b, at, names, saved, way, stopped, partial) && saved <= names && (partial == {} || stopped in names)
    ensures RootAsBefore(a, b, at, names) <==> partial == {} && forall n :: n in saved ==> EntryAt(a, at, n).backup == map[]
    ensures RootAsBefore(a, b, at, names) <==> b == a
  {
    hide EntryAt, EntryReverts, TouchesOnly;
    forall n | n in names
      ensures var e, after := EntryAt(a, at, n), EntryAt(b, at, n);
              && (after.root == e.root <==> (n == stopped ==> partial == {}) && (n in saved ==> e.backup == map[]))
              && (after.root == e.root ==> after == e)
    {
      EntryRestored(EntryAt(a, at, n), EntryAt(b, at, n), n in saved, way, if n == stopped then partial else {});
    }
    if RootAsBefore(a, b, at, names) {
      SameEntriesSameFiles(a, b, at, names);
    }
  }

  // ---------------------------------------------------------------- applyPayload

  /** Every entry of the payload is in the root; what it replaced is in the backup, beside
      what lay there. */
  ghost predicate Exchanged(a: Files, b: Files, at: Places, names: set<Name>)
  {
    forall n :: n in names ==>
      var e := EntryAt(a, at, n);
      e.root.Keys !! e.backup.Keys && EntryAt(b, at, n) == Entry(e.payload, map[], e.backup + e.root)
  }

  /** No entry of the payload is a folder, nor is what it replaces. */
  predicate SingleFiles(fs: FileSystem, at: Places, names: set<Name>)
  {
    forall n :: n in names ==> !IsFolder(fs, at.root + [n]) && !IsFolder(fs, at.payload + [n])
  }

  lemma NamesAreEntries(fs: FileSystem, d: Path, n: Name)
    ensures n in Names(fs, d) <==> d + [n] in fs
  {
    assert (d + [n])[..|d|] == d && (d + [n])[|d|] == n;
    if n in Names(fs, d) {
      var p :| p in fs && |p| == |d| + 1 && Under(d, p) && p[|d|] == n;
      assert p == d + [n];
    }
  }

  lemma SameNames(was: FileSystem, fs: FileSystem, payload: Path, backup: Path)
    requires OnlyFoldersTo(was, fs, backup) && Apart(payload, backup)
    ensures Names(fs, payload) == Names(was, payload)
  {
    hide Names;
    forall n ensures n in Names(fs, payload) <==> n in Names(was, payload) {
      NamesAreEntries(fs, payload, n);
      NamesAreEntries(was, payload, n);
      ChildUnder(payload, n, backup);
    }
  }

  lemma HalfwayStart(was: FileSystem, fs: FileSystem, at: Places, names: set<Name>)
    requires Fits(at, names) && OnlyFoldersTo(was, fs, at.backup)
    ensures FilesOf(fs) == FilesOf(was) && Halfway(was, fs, at, names, {}, {})
  {
    hide FilesOf, EntryAt, OnlyFoldersTo, Apart, SameBelow;
    SameFiles(was, fs, at.backup);
    forall n | n in names ensures SameBelow(was, fs, at.root + [n]) && SameBelow(was, fs, at.payload + [n]) {
      MadeKeeps(was, fs, at.backup, at.root + [n]);
      ChildUnder(at.payload, n, at.payload + [n]);
      ApartSymmetric(at.payload, at.backup);
      ApartBelow(at.backup, at.payload, at.payload + [n]);
      ApartSymmetric(at.backup, at.payload + [n]);
      MadeKeeps(was, fs, at.backup, at.payload + [n]);
    }
  }

  lemma AllExchanged(a: FileSystem, b: FileSystem, at: Places, names: set<Name>, saved: set<Name>)
    requires Halfway(a, b, at, names, saved, names)
    ensures Exchanged(FilesOf(a), FilesOf(b), at, names)
  {
    hide EntryAt, FilesOf, Standing;
    forall n | n in names
      ensures var e := EntryAt(FilesOf(a), at, n);
              && e.root.Keys !! e.backup.Keys
              && EntryAt(FilesOf(b), at, n) == Entry(e.payload, map[], e.backup + e.root)
    {
      var e := EntryAt(FilesOf(a), at, n);
      WholeIs(e);
      WholeIs(Whole(Save, e));
      AllAndNone(e.payload);
      AllAndNone(e.backup);
    }
  }

  /** A failing move after `b`, then a clean rollback from `c` to `d`. */
  lemma FailureReverts(a: FileSystem, b: FileSystem, c: FileSystem, d: FileSystem, at: Places, names: set<Name>, saved: set<Name>,
                       installed: set<Name>, way: Way, n: Name, m: set<Path>)
    requires Halfway(a, b, at, names, saved, installed) && n in names && n !in installed
    requires way == Save || way == Install
    requires way == Save ==> n !in saved
    requires Moves(FilesOf(b), FilesOf(c), at, names, way, n, m)
    requires RolledBack(FilesOf(c), FilesOf(d), at, names, installed, saved)
    requires TouchesOnly(FilesOf(a), FilesOf(d), at, names)
    ensures Reverts(FilesOf(a), FilesOf(d), at, names, saved, way, n, m)
  {
    hide EntryAt, FilesOf, TouchesOnly, Went, EntryReverts, Undone, Progress, Standing;
    forall k | k in names
      ensures EntryReverts(EntryAt(FilesOf(a), at, k), EntryAt(FilesOf(d), at, k), k in saved, way, if k == n then m else {})
    {
      var x := EntryAt(FilesOf(b), at, k);
      NothingWent(way, x);
      EntryUndone(EntryAt(FilesOf(a), at, k), x, EntryAt(FilesOf(c), at, k), EntryAt(FilesOf(d), at, k), k in saved, k in installed, way,
                  if k == n then m else {});
    }
  }

  /** With single files there is neither a half moved entry nor an older backup in the way. */
  lemma SingleFilesReturn(a: FileSystem, b: FileSystem, d: Files, at: Places, names: set<Name>, saved: set<Name>, installed: set<Name>,
                          way: Way, n: Name, m: set<Path>)
    requires Halfway(a, b, at, names, saved, installed) && n in names && n !in installed && saved <= names
    requires way == Save ==> n !in saved
    requires !IsFolder(b, Source(way, at) + [n]) ==> m == {}
    requires Reverts(FilesOf(a), d, at, names, saved, way, n, m)
    requires SingleFiles(a, at, names)
    ensures d == FilesOf(a)
  {
    hide EntryAt, FilesOf, Reverts, Progress, Standing;
    RevertsWay(FilesOf(a), d, at, names, saved, way, n, m);
    EntryStands(a, b, at, names, saved, installed, n);
    forall k | k in saved ensures EntryAt(FilesOf(a), at, k).backup == map[] {
      assert SavedWell(a, at, EntryAt(FilesOf(a), at, k), k);
    }
    RestoredExactly(FilesOf(a), d, at, names, saved, way, n, m);
  }

  lemma RevertsWay(a: Files, b: Files, at: Places, names: set<Name>, saved: set<Name>, way: Way, stopped: Name, partial: set<Path>)
    requires Reverts(a, b, at, names, saved, way, stopped, partial)
    ensures way == Save || way == Install
  {
  }

  lemma NothingFailed(a: Files, at: Places, names: set<Name>)
    ensures Reverts(a, a, at, names, {}, Save, "", {})
  {
    hide EntryAt, Went;
    TouchesNothing(a, at, names);
    forall n | n in names ensures EntryReverts(EntryAt(a, at, n), EntryAt(a, at, n), false, Save, {}) {
      NothingWent(Save, EntryAt(a, at, n));
    }
  }

  // ---------------------------------------------------------------- what a caller can see beforehand

  /** Nothing is at `p`, and no file on the way from `d`. */
  predicate PlaceFree(fs: FileSystem, d: Path, p: Path)
  {
    p !in fs && forall i :: |d| <= i < |p| ==> !IsFile(fs, p[..i])
  }

  /** An entry whose move may leave a file on the other side: a file lies beside something
      else to be moved; and in the payload, what comes back leaves its place free. */
  ghost predicate Loses(fs: FileSystem, at: Places, n: Name)
  {
    || (exists q :: Beside(fs, at.root + [n], q))
    || (exists q :: Beside(fs, at.payload + [n], q)
                    && PlaceFree(fs, at.root + [n], Rebase(q, at.payload + [n], at.root + [n])))
  }

  ghost predicate NoneLoses(fs: FileSystem, at: Places, names: set<Name>)
  {
    forall n :: n in names ==> !Loses(fs, at, n)
  }

  /** The whole way of a failing move: the loop before it, and the rollback after it. */
  ghost predicate FailedMove(a: FileSystem, b: FileSystem, c: FileSystem, d: FileSystem, at: Places, names: set<Name>, saved: set<Name>,
                             installed: set<Name>, way: Way, n: Name, m: set<Path>)
  {
    && Standing(a, b, at, names, saved, installed) && n in names && n !in installed
    && (way == Save || way == Install) && (way == Save ==> n !in saved)
    && (way == Install && n !in saved ==> at.root + [n] !in b)
    && TookBeside(b, Source(way, at) + [n], m) && Leaves(b, c, at, names, way, n)
    && FoldersReturned(c, d, at, saved) && WellFormed(b) && WellFormed(d)
  }

  /** A folder that was in the root is a folder there again. */
  lemma RootFolderReturns(a: FileSystem, b: FileSystem, c: FileSystem, d: FileSystem, at: Places, names: set<Name>, saved: set<Name>,
                          installed: set<Name>, n: Name, m: set<Path>, p: Path)
    requires FailedMove(a, b, c, d, at, names, saved, installed, Install, n, m)
    requires IsFolder(a, p) && Under(at.root + [n], p)
    ensures IsFolder(d, p)
  {
    hide Under, WellFormed, Beside, OthersKept;
    var from, to := at.root + [n], at.backup + [n];
    RebaseBack(p, from, to);
    if n in saved {
      var t := Rebase(p, from, to);
      assert IsFolder(b, t);
      assert SameAt(b, c, t);
      assert FoldersWent(c, d, to, from);
      assert IsFolder(d, Rebase(t, to, from));
    } else {
      NothingThere(a, b, from, p);
    }
  }

  lemma NothingThere(a: FileSystem, b: FileSystem, d: Path, p: Path)
    requires SameBelow(a, b, d) && WellFormed(b) && d !in b && Under(d, p)
    ensures p !in a
  {
    hide WellFormed, Under;
    NothingIn(b, d);
    assert SameAt(a, b, p);
  }

  /** A failing install that leaves a file in the root found its place free. */
  lemma LeftInAFreePlace(a: FileSystem, b: FileSystem, c: FileSystem, d: FileSystem, at: Places, names: set<Name>, saved: set<Name>,
                         installed: set<Name>, n: Name, m: set<Path>, t: Path)
    requires FailedMove(a, b, c, d, at, names, saved, installed, Install, n, m) && t in m
    requires EntryReverts(EntryAt(FilesOf(a), at, n), EntryAt(FilesOf(d), at, n), n in saved, Install, m)
    ensures PlaceFree(a, at.root + [n], at.root + [n] + t)
  {
    hide WellFormed, FailedMove, TreeAt, Under;
    var root := at.root + [n];
    var p := root + t;
    var e, after := EntryAt(FilesOf(a), at, n), EntryAt(FilesOf(d), at, n);
    assert t in after.root && t !in e.root;
    TreeIs(FilesOf(d), root, t);
    TreeIs(FilesOf(a), root, t);
    UnderJoin(root, t);
    assert IsFile(d, p);
    if p in a {
      RootFolderReturns(a, b, c, d, at, names, saved, installed, n, m, p);
    }
    forall i | |root| <= i < |p| ensures !IsFile(a, p[..i]) {
      var u := t[..i - |root|];
      assert p[..i] == root + u;
      if IsFile(a, p[..i]) {
        TreeIs(FilesOf(a), root, u);
        TreeIs(FilesOf(d), root, u);
        assert u in after.root;
        FailedEndsWell(a, b, c, d, at, names, saved, installed, n, m);
        PrefixIs(p, i);
        PrefixIsFolder(d, p[..i], p);
      }
    }
  }

  lemma PrefixIs(p: Path, i: nat)
    requires i < |p|
    ensures Under(p[..i], p) && p[..i] != p
  {
  }

  lemma FailedEndsWell(a: FileSystem, b: FileSystem, c: FileSystem, d: FileSystem, at: Places, names: set<Name>, saved: set<Name>,
                       installed: set<Name>, n: Name, m: set<Path>)
    requires FailedMove(a, b, c, d, at, names, saved, installed, Install, n, m)
    ensures WellFormed(d)
  {
  }

  /** A failing move that took a file shows an entry that could be seen to lose one. */
  lemma TookMeansLoses(a: FileSystem, b: FileSystem, c: FileSystem, d: FileSystem, at: Places, names: set<Name>, saved: set<Name>,
                       installed: set<Name>, way: Way, n: Name, m: set<Path>)
    requires FailedMove(a, b, c, d, at, names, saved, installed, way, n, m) && m != {}
    requires Reverts(FilesOf(a), FilesOf(d), at, names, saved, way, n, m)
    ensures Loses(a, at, n)
  {
    hide WellFormed, EntryReverts, Beside, PlaceFree, Leaves, FoldersReturned, SameBelow, FoldersWent, TouchesOnly, EntryAt, Under;
    var t :| t in m;
    var q := Source(way, at) + [n] + t;
    BesideSame(a, b, Source(way, at) + [n], q);
    if way == Install {
      RebaseJoin(at.payload + [n], at.root + [n], t);
      assert EntryReverts(EntryAt(FilesOf(a), at, n), EntryAt(FilesOf(d), at, n), n in saved, Install, m);
      LeftInAFreePlace(a, b, c, d, at, names, saved, installed, n, m, t);
    }
  }

  /** How a failed call went: the entries that were saved, and the move that failed with
      what it had moved. */
  datatype Failure = Failure(saved: set<Name>, way: Way, stopped: Name, partial: set<Path>)

  /** What a failed call leaves after a clean rollback. */
  ghost predicate Recovered(was: FileSystem, files: Files, at: Places, names: set<Name>, f: Failure)
  {
    && f.saved <= names
    && Reverts(FilesOf(was), files, at, names, f.saved, f.way, f.stopped, f.partial)
    && (RootAsBefore(FilesOf(was), files, at, names) <==>
          f.partial == {} && forall n :: n in f.saved ==> EntryAt(FilesOf(was), at, n).backup == map[])
    && (RootAsBefore(FilesOf(was), files, at, names) <==> files == FilesOf(was))
    && (SingleFiles(was, at, names) ==> files == FilesOf(was))
    && (NoneLoses(was, at, names) && TreeAt(FilesOf(was), at.backup) == map[] ==> files == FilesOf(was))
  }

  lemma Recovers(a: FileSystem, b: FileSystem, c: FileSystem, d: FileSystem, at: Places, names: set<Name>, saved: set<Name>,
                 installed: set<Name>, way: Way, n: Name, m: set<Path>)
    requires Halfway(a, b, at, names, saved, installed) && n in names && n !in installed && saved <= names
    requires way == Save || way == Install
    requires way == Save ==> n !in saved
    requires !IsFolder(b, Source(way, at) + [n]) ==> m == {}
    requires Moves(FilesOf(b), FilesOf(c), at, names, way, n, m)
    requires RolledBack(FilesOf(c), FilesOf(d), at, names, installed, saved)
    requires TouchesOnly(FilesOf(a), FilesOf(d), at, names)
    requires FailedMove(a, b, c, d, at, names, saved, installed, way, n, m)
    ensures Recovered(a, FilesOf(d), at, names, Failure(saved, way, n, m))
  {
    hide EntryAt, FilesOf, TouchesOnly, Halfway, Moves, RolledBack, Reverts, RootAsBefore, SingleFiles, FailedMove, Loses, TreeAt, WellFormed;
    FailureReverts(a, b, c, d, at, names, saved, installed, way, n, m);
    RestoredExactly(FilesOf(a), FilesOf(d), at, names, saved, way, n, m);
    if SingleFiles(a, at, names) {
      SingleFilesReturn(a, b, FilesOf(d), at, names, saved, installed, way, n, m);
    }
    if NoneLoses(a, at, names) && TreeAt(FilesOf(a), at.backup) == map[] {
      if m != {} {
        TookMeansLoses(a, b, c, d, at, names, saved, installed, way, n, m);
      }
      NoOldBackup(FilesOf(a), at);
    }
  }

  lemma MoveFailed(a: FileSystem, b: FileSystem, c: FileSystem, d: FileSystem, at: Places, names: set<Name>, saved: set<Name>,
                   installed: set<Name>, way: Way, n: Name, m: set<Path>)
    requires Halfway(a, b, at, names, saved, installed) && n in names && n !in installed
    requires (way == Save || way == Install) && (way == Save ==> n !in saved) && (way == Install && n !in saved ==> at.root + [n] !in b)
    requires TookBeside(b, Source(way, at) + [n], m) && Leaves(b, c, at, names, way, n)
    requires FoldersReturned(c, d, at, saved) && WellFormed(b) && WellFormed(d)
    ensures FailedMove(a, b, c, d, at, names, saved, installed, way, n, m)
  {
    hide Standing, TookBeside, Leaves, FoldersReturned, WellFormed, EntryAt, Progress, FilesOf;
  }

  lemma NoOldBackup(files: Files, at: Places)
    requires TreeAt(files, at.backup) == map[]
    ensures forall n :: EntryAt(files, at, n).backup == map[]
  {
    hide TreeAt;
    forall n ensures EntryAt(files, at, n).backup == map[] {
      forall t ensures t !in TreeAt(files, at.backup + [n]) {
        TreeIs(files, at.backup + [n], t);
        TreeIs(files, at.backup, [n] + t);
        assert at.backup + [n] + t == at.backup + ([n] + t);
      }
    }
  }

  lemma NotBegun(was: FileSystem, at: Places, names: set<Name>)
    ensures Recovered(was, FilesOf(was), at, names, Failure({}, Save, "", {}))
  {
    hide EntryAt, FilesOf, TouchesOnly, Reverts, SingleFiles, Loses, TreeAt;
    NothingFailed(FilesOf(was), at, names);
    RestoredExactly(FilesOf(was), FilesOf(was), at, names, {}, Save, "", {});
  }

  lemma RootMissing(fs: FileSystem, at: Places, n: Name)
    requires WellFormed(fs) && at.root + [n] !in fs
    ensures EntryAt(FilesOf(fs), at, n).root == map[]
  {
    NothingBelow(fs, at.root + [n]);
  }

  /** Every entry of the payload takes its place in the root, and what was there goes to the
      backup first. No file is ever lost or changed, whatever fails. */
  method ApplyPayload(disk: Disk, at: Places) returns (ok: bool, ghost f: Failure)
    requires WellFormed(disk.fs) && Fits(at, Names(disk.fs, at.payload))
    modifies disk
    ensures WellFormed(disk.fs)
    ensures Contents(FilesOf(disk.fs)) == Contents(FilesOf(old(disk.fs)))
    ensures TouchesOnly(FilesOf(old(disk.fs)), FilesOf(disk.fs), at, Names(old(disk.fs), at.payload))
    ensures ok ==> IsFolder(old(disk.fs), at.payload)
    ensures ok ==> Exchanged(FilesOf(old(disk.fs)), FilesOf(disk.fs), at, Names(old(disk.fs), at.payload))
    ensures disk.failures >= old(disk.failures)
    ensures !ok ==> !IsFolder(old(disk.fs), at.payload) || disk.failures > old(disk.failures)
    ensures !ok && disk.failures <= old(disk.failures) + 1 ==>
              Recovered(old(disk.fs), FilesOf(disk.fs), at, Names(old(disk.fs), at.payload), f)
  {
    hide WellFormed, Fits, FilesOf, Contents, TouchesOnly, Halfway, Moves, RolledBack, Recovered, Exchanged, EntryAt, Names, OnlyFoldersTo,
      NoRepeats, Elements, Went, Leaves, FoldersWent, FoldersReturned, TookBeside, FailedMove;
    ghost var was := disk.fs;
    ghost var names := Names(was, at.payload);
    f := Failure({}, Save, "", {});
    NotBegun(was, at, names);
    TouchesNothing(FilesOf(was), at, names);
    if !IsFolder(disk.fs, at.payload) {
      return false, f;
    }
    ok := disk.MkPath(at.backup);
    HalfwayStart(was, disk.fs, at, names);
    if !ok {
      return false, f;
    }
    PlacesDiffer(at, names);
    SameNames(was, disk.fs, at.payload, at.backup);
    var todo := Names(disk.fs, at.payload);
    var installed: seq<Name>, backedUp: seq<Name> := [], [];
    NoElements();
    while todo != {}
      invariant WellFormed(disk.fs) && Contents(FilesOf(disk.fs)) == Contents(FilesOf(was))
      invariant TouchesOnly(FilesOf(was), FilesOf(disk.fs), at, names)
      invariant Halfway(was, disk.fs, at, names, Elements(backedUp), Elements(installed))
      invariant todo <= names && Elements(installed) == names - todo && Elements(backedUp) <= Elements(installed)
      invariant NoRepeats(installed) && NoRepeats(backedUp) && disk.failures == old(disk.failures)
      decreases |todo|
    {
      var name :| name in todo;
      assert name in names;
      ghost var saved, done := Elements(backedUp), Elements(installed);
      ghost var m;
      ghost var before := disk.fs;
      if at.root + [name] in disk.fs {
        ok, m := MoveNamed(disk, at, Save, name, names);
        TouchesTransitive(FilesOf(was), FilesOf(before), FilesOf(disk.fs), at, names);
        if !ok {
          ghost var failed := disk.fs;
          Rollback(disk, at, installed, backedUp, names);
          TouchesTransitive(FilesOf(was), FilesOf(failed), FilesOf(disk.fs), at, names);
          f := Failure(saved, Save, name, m);
          if disk.failures == old(disk.failures) + 1 {
            MoveFailed(was, before, failed, disk.fs, at, names, saved, done, Save, name, m);
            Recovers(was, before, failed, disk.fs, at, names, saved, done, Save, name, m);
          }
          return false, f;
        }
        SaveNext(was, before, disk.fs, at, names, saved, done, name, m);
        Appended(backedUp, name);
        backedUp := backedUp + [name];
        saved := saved + {name};
      } else {
        RootMissing(disk.fs, at, name);
      }
      before := disk.fs;
      ok, m := MoveNamed(disk, at, Install, name, names);
      TouchesTransitive(FilesOf(was), FilesOf(before), FilesOf(disk.fs), at, names);
      if !ok {
        ghost var failed := disk.fs;
        Rollback(disk, at, installed, backedUp, names);
        TouchesTransitive(FilesOf(was), FilesOf(failed), FilesOf(disk.fs), at, names);
        f := Failure(saved, Install, name, m);
        if disk.failures == old(disk.failures) + 1 {
          MoveFailed(was, before, failed, disk.fs, at, names, saved, done, Install, name, m);
          Recovers(was, before, failed, disk.fs, at, names, saved, done, Install, name, m);
        }
        return false, f;
      }
      InstallNext(was, before, disk.fs, at, names, saved, done, name, m);
      Appended(installed, name);
      installed := installed + [name];
      todo := todo - {name};
    }
    assert names - todo == names;
    AllExchanged(was, disk.fs, at, names, Elements(backedUp));
    return true, f;
  }

  lemma PlacesDiffer(at: Places, names: set<Name>)
    requires Fits(at, names)
    ensures Apart(at.payload, at.backup)
  {
  }

  // ---------------------------------------------------------------- what the caller gets

  /** After a successful call the root has the payload's files of each entry and no others,
      what they replaced lies in the backup, and a file elsewhere is where it was. */
  lemma InstalledMeans(a: Files, b: Files, at: Places, names: set<Name>, n: Name, t: Path)
    requires Exchanged(a, b, at, names) && TouchesOnly(a, b, at, names)
    ensures var shipped, installed, saved := at.payload + [n] + t, at.root + [n] + t, at.backup + [n] + t;
            n in names ==>
              && (installed in b <==> shipped in a) && (shipped in a ==> b[installed] == a[shipped]) && shipped !in b
              && (saved in b <==> saved in a || installed in a) && !(saved in a && installed in a)
              && (installed in a ==> b[saved] == a[installed])
              && (saved in a ==> b[saved] == a[saved])
    ensures forall p :: !Named(at, names, p) ==> (p in b <==> p in a) && (p in a ==> b[p] == a[p])
  {
    hide TreeAt, Named;
    if n in names {
      assert EntryAt(b, at, n).payload == map[];
      TreeIs(a, at.payload + [n], t);
      TreeIs(a, at.root + [n], t);
      TreeIs(a, at.backup + [n], t);
      TreeIs(b, at.payload + [n], t);
      TreeIs(b, at.root + [n], t);
      TreeIs(b, at.backup + [n], t);
    }
  }

  /** With a backup folder that holds no file, what decides is the failing move alone. */
  lemma FreshBackup(was: FileSystem, files: Files, at: Places, names: set<Name>, f: Failure)
    requires Recovered(was, files, at, names, f) && TreeAt(FilesOf(was), at.backup) == map[]
    ensures files == FilesOf(was) <==> f.partial == {}
  {
    hide TreeAt, Reverts, RootAsBefore, SingleFiles, FilesOf, EntryAt, Loses;
    NoOldBackup(FilesOf(was), at);
  }

  // ---------------------------------------------------------------- a payload with an `.update` entry

  /** One call of `moveEntry` between the places of an entry. */
  datatype Move = Move(way: Way, name: Name, script: Script, ok: bool, after: FileSystem)

  function DiskAt(start: FileSystem, moves: seq<Move>, i: nat): FileSystem
    requires i <= |moves|
  {
    if i == 0 then start else moves[i - 1].after
  }

  /** Moves one after the other, in any layout of the three places. */
  predicate Ran(start: FileSystem, moves: seq<Move>, at: Places)
  {
    forall i :: 0 <= i < |moves| ==>
      Replays(DiskAt(start, moves, i), Source(moves[i].way, at) + [moves[i].name], Target(moves[i].way, at) + [moves[i].name],
              moves[i].script, moves[i].ok, moves[i].after)
  }

  /** Wherever the places lie, moves and their rollback lose no file. */
  lemma {:induction false} MovesKeepContents(start: FileSystem, moves: seq<Move>, at: Places, i: nat)
    requires Ran(start, moves, at) && i <= |moves|
    ensures Contents(FilesOf(DiskAt(start, moves, i))) == Contents(FilesOf(start))
  {
    hide Replays, Contents, FilesOf, Source, Target;
    if i > 0 {
      MovesKeepContents(start, moves, at, i - 1);
      var m := moves[i - 1];
      ReplayKeepsContents(DiskAt(start, moves, i - 1), Source(m.way, at) + [m.name], Target(m.way, at) + [m.name], m.script, m.ok, m.after);
    }
  }

  lemma {:induction false} UpdateFolderStays(start: FileSystem, moves: seq<Move>, root: Path, sub: Path, i: nat)
    requires Ran(start, moves, UpdaterPlaces(root, sub)) && i <= |moves|
    requires forall k :: 0 <= k < |moves| ==> (moves[k].way == Save || moves[k].way == Install) && moves[k].name != ".update"
    requires IsFolder(start, root + [".update"])
    ensures IsFolder(DiskAt(start, moves, i), root + [".update"])
  {
    hide Replays, Under;
    if i > 0 {
      UpdateFolderStays(start, moves, root, sub, i - 1);
      var at, m := UpdaterPlaces(root, sub), moves[i - 1];
      SiblingsApart(root, m.name, ".update");
      TooDeep(at.payload + [m.name], root + [".update"]);
      ReplayKeepsOthers(DiskAt(start, moves, i - 1), Source(m.way, at) + [m.name], Target(m.way, at) + [m.name], m.script, m.ok, m.after,
                        root + [".update"]);
    }
  }

  lemma TooDeep(d: Path, p: Path)
    requires |d| > |p|
    ensures !Under(d, p)
  {
  }

  /** In the updater's layout a payload entry named `.update` is never saved: whatever was
      moved before, the folder is there, it is to be moved below itself, and the move fails. */
  lemma UpdateEntryFails(start: FileSystem, moves: seq<Move>, root: Path, sub: Path, s: Script, ok: bool, after: FileSystem)
    requires WellFormed(start) && IsFolder(start, UpdaterPlaces(root, sub).payload)
    requires Ran(start, moves, UpdaterPlaces(root, sub))
    requires forall k :: 0 <= k < |moves| ==> (moves[k].way == Save || moves[k].way == Install) && moves[k].name != ".update"
    requires Replays(DiskAt(start, moves, |moves|), root + [".update"], UpdaterPlaces(root, sub).backup + [".update"], s, ok, after)
    ensures IsFolder(DiskAt(start, moves, |moves|), root + [".update"]) && !ok
  {
    hide Replays, WellFormed, Ran;
    var update, at := root + [".update"], UpdaterPlaces(root, sub);
    assert at.payload[..|update|] == update;
    PrefixIsFolder(start, update, at.payload);
    UpdateFolderStays(start, moves, root, sub, |moves|);
    assert (at.backup + [".update"])[..|update|] == update;
    MoveIntoItselfNeverSucceeds(DiskAt(start, moves, |moves|), update, at.backup + [".update"], s, after);
  }
}
