/** A failed update that does not restore the installation: a folder that went half way to
    the backup when the move failed. */
module InstallWitness {
  import opened FileMoves
  import opened InstallSwap
  import opened MoveRuns

  const UPDATE: Path := [".update"]
  const OLD: Path := [".update", "old"]
  const DATA: Path := ["data"]
  const FIRST: Path := ["data", "first"]
  const SECOND: Path := ["data", "second"]
  const PAYLOAD: Path := [".update", "payload"]
  const PAYLOAD_DATA: Path := [".update", "payload", "data"]

  /** The installation is `data/first` and `data/second`; the payload replaces `data`. */
  const INSTALLATION: FileSystem :=
    map[[] := Folder][UPDATE := Folder][OLD := Folder][PAYLOAD := Folder][PAYLOAD_DATA := File([3])]
       [DATA := Folder][FIRST := File([1])][SECOND := File([2])]

  const OLD_DATA: Path := [".update", "old", "data"]
  const OLD_FIRST: Path := [".update", "old", "data", "first"]
  const OLD_SECOND: Path := [".update", "old", "data", "second"]

  lemma Added(fs: FileSystem, p: Path, node: Node)
    requires WellFormed(fs) && p !in fs && p != [] && IsFolder(fs, p[..|p| - 1])
    ensures WellFormed(fs[p := node])
  {
  }

  lemma InstallationWellFormed()
    ensures WellFormed(INSTALLATION)
  {
    hide WellFormed;
    var fs: FileSystem := map[[] := Folder];
    assert WellFormed(fs) by { OnlyTop(); }
    assert UPDATE[..0] == [] && DATA[..0] == [] && OLD[..1] == UPDATE && PAYLOAD[..1] == UPDATE;
    assert PAYLOAD_DATA[..2] == PAYLOAD && FIRST[..1] == DATA && SECOND[..1] == DATA;
    Added(fs, UPDATE, Folder);
    fs := fs[UPDATE := Folder];
    Added(fs, OLD, Folder);
    fs := fs[OLD := Folder];
    Added(fs, PAYLOAD, Folder);
    fs := fs[PAYLOAD := Folder];
    Added(fs, PAYLOAD_DATA, File([3]));
    fs := fs[PAYLOAD_DATA := File([3])];
    Added(fs, DATA, Folder);
    fs := fs[DATA := Folder];
    Added(fs, FIRST, File([1]));
    fs := fs[FIRST := File([1])];
    Added(fs, SECOND, File([2]));
  }

  lemma OnlyTop()
    ensures WellFormed(map[[] := Folder])
  {
  }

  /** `mkpath` made the folder in the backup. */
  const MADE: FileSystem := INSTALLATION[OLD_DATA := Folder]

  lemma OneFolder(fs: FileSystem, to: Path)
    requires to !in fs
    ensures OnlyFoldersTo(fs, fs[to := Folder], to)
  {
  }

  lemma BackupIsEmpty()
    ensures OLD_DATA !in INSTALLATION && IsFolder(INSTALLATION, OLD)
  {
  }

  lemma MadeOnTheWay()
    ensures OnlyFoldersTo(INSTALLATION, MADE, OLD_DATA) && WellFormed(MADE)
  {
    hide WellFormed, OnlyFoldersTo, IsFolder;
    InstallationWellFormed();
    BackupIsEmpty();
    OneFolder(INSTALLATION, OLD_DATA);
    assert OLD_DATA[..2] == OLD;
    Added(INSTALLATION, OLD_DATA, Folder);
  }

  /** The first file moved, the second was refused three times. */
  const HALF_WAY: FileSystem := Renamed(MADE, FIRST, OLD_FIRST)

  const HALF_MOVE: Script :=
    Walked(MADE, [ChildMove("first", FileMoved, true, HALF_WAY), ChildMove("second", Refused, false, HALF_WAY)])

  lemma Facts()
    ensures FIRST in MADE && IsFolder(INSTALLATION, DATA) && IsFolder(MADE, OLD_DATA)
    ensures IsFile(MADE, FIRST) && IsFile(MADE, SECOND) && OLD_FIRST !in MADE && OLD_SECOND !in MADE
  {
  }

  lemma BackupIsNew()
    ensures forall p :: p in MADE && Under(OLD_DATA, p) ==> p == OLD_DATA
  {
  }

  lemma HalfMoveReplays()
    ensures Replays(INSTALLATION, DATA, OLD_DATA, HALF_MOVE, false, HALF_WAY)
  {
    hide Replays, OnlyFoldersTo, WellFormed;
    MadeOnTheWay();
    Facts();
    assert DATA + ["first"] == FIRST && OLD_DATA + ["first"] == OLD_FIRST && OLD_FIRST[..3] == OLD_DATA;
    assert DATA + ["second"] == SECOND && OLD_DATA + ["second"] == OLD_SECOND;
    assert FIRST[..1] == DATA && SECOND[..1] == DATA;
    BackupIsNew();
    FileReplays(MADE, FIRST, OLD_FIRST);
    RenameWellFormed(MADE, FIRST, OLD_FIRST);
    SecondFails(INSTALLATION, MADE, DATA, OLD_DATA, "first", "second", FileMoved, HALF_WAY);
  }

  lemma FilesHalfWay()
    ensures FilesOf(INSTALLATION) == map[PAYLOAD_DATA := [3], FIRST := [1], SECOND := [2]]
    ensures FilesOf(HALF_WAY) == map[PAYLOAD_DATA := [3], OLD_FIRST := [1], SECOND := [2]]
  {
  }

  const AT: Places := UpdaterPlaces([], ["payload"])

  lemma ThePlaces()
    ensures AT == Places([], PAYLOAD, OLD) && Fits(AT, {"data"})
    ensures AT.root + ["data"] == DATA && AT.backup + ["data"] == OLD_DATA && Apart(DATA, OLD_DATA)
    ensures DATA + ["first"] == FIRST && OLD_DATA + ["first"] == OLD_FIRST && Apart(FIRST, OLD_FIRST)
  {
    hide Fits;
    assert [] + [".update"] + ["payload"] == PAYLOAD && [] + [".update", "old"] == OLD;
    UpdaterLayoutFits([], ["payload"], {"data"});
    SiblingsApart([], "data", ".update");
    assert [] + ["data"] == DATA && [] + [".update"] == UPDATE;
    assert OLD_DATA[..1] == UPDATE && OLD_FIRST[..1] == UPDATE && FIRST[..1] == DATA;
    ApartBelow(DATA, UPDATE, OLD_DATA);
    ApartChild(DATA, OLD_DATA, "first");
  }

  lemma HalfMoveRelocates()
    ensures Movable(FilesOf(INSTALLATION), DATA, OLD_DATA, {FIRST})
    ensures FilesOf(HALF_WAY) == Relocate(FilesOf(INSTALLATION), DATA, OLD_DATA, {FIRST})
  {
    hide Relocate, Movable, FilesOf, WellFormed, OnlyFoldersTo, Renamed, Apart, Fits;
    MadeOnTheWay();
    ThePlaces();
    Facts();
    SameFiles(INSTALLATION, MADE, OLD_DATA);
    assert OLD_FIRST[..3] == OLD_DATA;
    RenameMoves(MADE, FIRST, OLD_FIRST);
    RelocateChild(FilesOf(INSTALLATION), DATA, OLD_DATA, "first", {FIRST});
  }

  /** The backup of the only entry fails after its first file: there is nothing to roll
      back, and the file stays in the backup. */
  lemma HalfMovedFolder() returns (m: set<Path>)
    ensures WellFormed(INSTALLATION) && IsFolder(INSTALLATION, AT.payload)
    ensures Fits(AT, {"data"}) && Names(INSTALLATION, AT.payload) == {"data"}
    ensures Replays(INSTALLATION, AT.root + ["data"], AT.backup + ["data"], HALF_MOVE, false, HALF_WAY)
    ensures m != {} && Reverts(FilesOf(INSTALLATION), FilesOf(HALF_WAY), AT, {"data"}, {}, Save, "data", m)
    ensures !RootAsBefore(FilesOf(INSTALLATION), FilesOf(HALF_WAY), AT, {"data"})
    ensures FilesOf(INSTALLATION) == map[PAYLOAD_DATA := [3], FIRST := [1], SECOND := [2]]
    ensures FilesOf(HALF_WAY) == map[PAYLOAD_DATA := [3], OLD_FIRST := [1], SECOND := [2]]
  {
    hide WellFormed, Fits, Replays, FilesOf, Relocate, Movable, Renamed, Went, TouchesOnly, EntryAt, Names, RootAsBefore, Apart;
    InstallationWellFormed();
    FilesHalfWay();
    ThePlaces();
    ThePayload();
    HalfMoveReplays();
    HalfMoveRelocates();
    m := MoveMoves(FilesOf(INSTALLATION), AT, {"data"}, Save, "data", {FIRST});
    RestoredExactly(FilesOf(INSTALLATION), FilesOf(HALF_WAY), AT, {"data"}, {}, Save, "data", m);
  }

  lemma ThePayload()
    ensures IsFolder(INSTALLATION, PAYLOAD) && Names(INSTALLATION, PAYLOAD) == {"data"}
  {
    assert PAYLOAD_DATA[..2] == PAYLOAD;
    forall n ensures n in Names(INSTALLATION, PAYLOAD) <==> n == "data" {
      NamesAreEntries(INSTALLATION, PAYLOAD, n);
      assert PAYLOAD + [n] == PAYLOAD_DATA <==> n == "data";
    }
  }
}
