/** What the runs of a move can do: what a failing one may have taken, that a successful one
    takes every folder, and which runs there are. */
module MoveRuns {
  import opened FileMoves

  predicate SameAt(a: FileSystem, b: FileSystem, p: Path)
  {
    (p in a <==> p in b) && (p in a ==> a[p] == b[p])
  }

  /** Nothing below `d` changed. */
  ghost predicate SameBelow(a: FileSystem, b: FileSystem, d: Path)
  {
    forall p :: Under(d, p) ==> SameAt(a, b, p)
  }

  /** `p` lies on the way to `to`, or below it. */
  predicate Near(to: Path, p: Path)
  {
    Under(p, to) || Under(to, p)
  }

  lemma NearChild(to: Path, name: Name, p: Path)
    ensures Near(to + [name], p) ==> Near(to, p)
    ensures Under(to, p) && p != to && Near(to + [name], p) ==> Under(to + [name], p)
  {
    ChildUnder(to, name, p);
    UnderBoth(p, to, to + [name]);
    if Under(to, p) && p != to && Under(p, to + [name]) {
      assert |p| > |to| by {
        assert p[..|to|] == to;
      }
      assert (to + [name])[..|p|] == p;
    }
  }

  lemma FarFrom(from: Path, to: Path, p: Path)
    requires Apart(from, to) && Under(from, p)
    ensures !Near(to, p)
  {
    UnderBoth(from, to, p);
    PrefixTransitive(from, p, to);
  }

  // ---------------------------------------------------------------- what a run leaves alone

  /** What is new after a run is on the way to the target or below it. */
  lemma {:induction false} ReplayAddsNear(before: FileSystem, from: Path, to: Path, s: Script, ok: bool, after: FileSystem, p: Path)
    requires Replays(before, from, to, s, ok, after) && p in after && !Near(to, p)
    ensures p in before && before[p] == after[p]
    decreases s, 1, 0
  {
    hide Under, Replays, Near;
    if s.Walked? {
      WalkEnds(before, from, to, s, ok, after);
      assert p in Now(s.made, s.steps, |s.steps|);
      StepsAddNear(before, from, to, s, ok, after, |s.steps|, p);
      MadeIsNear(before, s.made, to, p);
    } else {
      OneAddsNear(before, from, to, s, ok, after, p);
    }
  }

  lemma MadeIsNear(before: FileSystem, made: FileSystem, to: Path, p: Path)
    requires OnlyFoldersTo(before, made, to) && p in made && !Near(to, p)
    ensures p in before && before[p] == made[p]
  {
  }

  lemma OneAddsNear(before: FileSystem, from: Path, to: Path, s: Script, ok: bool, after: FileSystem, p: Path)
    requires !s.Walked? && Replays(before, from, to, s, ok, after) && p in after && !Near(to, p)
    ensures p in before && before[p] == after[p]
  {
    hide WellFormed, Children;
  }

  lemma {:induction false} StepsAddNear(before: FileSystem, from: Path, to: Path, s: Script, ok: bool, after: FileSystem, i: nat, p: Path)
    requires s.Walked? && i <= |s.steps| && Replays(before, from, to, s, ok, after)
    requires p in Now(s.made, s.steps, i) && !Near(to, p)
    ensures p in s.made && Now(s.made, s.steps, i)[p] == s.made[p]
    decreases s, 0, i
  {
    hide Under, Replays, Near;
    if i > 0 {
      StepRuns(before, from, to, s, ok, after, i - 1);
      var step := s.steps[i - 1];
      NearChild(to, step.name, p);
      ReplayAddsNear(Now(s.made, s.steps, i - 1), from + [step.name], to + [step.name], step.script, step.ok, step.after, p);
      StepsAddNear(before, from, to, s, ok, after, i - 1, p);
    }
  }

  lemma {:induction false} StepsKeepBetween(before: FileSystem, from: Path, to: Path, s: Script, ok: bool, after: FileSystem, i: nat, j: nat, p: Path)
    requires s.Walked? && i <= j <= |s.steps| && Replays(before, from, to, s, ok, after)
    requires p in Now(s.made, s.steps, i) && forall k :: i <= k < j ==> !Under(from + [s.steps[k].name], p)
    ensures p in Now(s.made, s.steps, j) && Now(s.made, s.steps, j)[p] == Now(s.made, s.steps, i)[p]
    decreases j
  {
    hide Under, Replays;
    if j > i {
      StepsKeepBetween(before, from, to, s, ok, after, i, j - 1, p);
      StepRuns(before, from, to, s, ok, after, j - 1);
      var step := s.steps[j - 1];
      ReplayKeepsOthers(Now(s.made, s.steps, j - 1), from + [step.name], to + [step.name], step.script, step.ok, step.after, p);
    }
  }

  /** A run changes nothing in a place apart from both its ends. */
  lemma BelowKept(before: FileSystem, from: Path, to: Path, s: Script, ok: bool, after: FileSystem, d: Path)
    requires Replays(before, from, to, s, ok, after) && Apart(d, from) && Apart(d, to)
    ensures SameBelow(before, after, d)
  {
    hide Replays, Under, Near, Apart;
    forall p | Under(d, p) ensures SameAt(before, after, p) {
      FarFrom(d, to, p);
      BelowIsApart(d, from, p);
      if p in before {
        ReplayKeepsOthers(before, from, to, s, ok, after, p);
      }
      if p in after {
        ReplayAddsNear(before, from, to, s, ok, after, p);
      }
    }
  }

  lemma SameBelowTransitive(a: FileSystem, b: FileSystem, c: FileSystem, d: Path)
    requires SameBelow(a, b, d) && SameBelow(b, c, d)
    ensures SameBelow(a, c, d)
  {
    hide Under;
    forall p | Under(d, p) ensures SameAt(a, c, p) {
      assert SameAt(a, b, p) && SameAt(b, c, p);
    }
  }

  // ---------------------------------------------------------------- what a failing run took

  /** Below `d` there is a file at `q` and something that is neither on its way nor below it. */
  ghost predicate Beside(fs: FileSystem, d: Path, q: Path)
    ensures Beside(fs, d, q) ==> IsFile(fs, q) && Under(d, q)
  {
    IsFile(fs, q) && Under(d, q) && exists e :: e in fs && Under(d, e) && Apart(q, e)
  }

  lemma BesideSame(a: FileSystem, b: FileSystem, d: Path, q: Path)
    requires SameBelow(a, b, d) && Beside(b, d, q)
    ensures Beside(a, d, q)
  {
    hide Under;
    var e :| e in b && Under(d, e) && Apart(q, e);
    assert SameAt(a, b, e) && SameAt(a, b, q);
  }

  lemma OnlyWalksTake(before: FileSystem, from: Path, to: Path, s: Script, after: FileSystem, q: Path)
    requires Replays(before, from, to, s, false, after) && q in before && q !in after
    ensures s.Walked? && s.steps != [] && !s.steps[|s.steps| - 1].ok && after == s.steps[|s.steps| - 1].after
    ensures OnlyFoldersTo(before, s.made, to) && Distinct(s.steps)
    ensures from + [s.steps[|s.steps| - 1].name] in Children(s.made, from)
  {
    hide WellFormed;
    if s.Walked? {
      var k := |s.steps| - 1;
      assert from + [s.steps[k].name] in Visited(from, s.steps);
    }
  }

  /** A failing move took a file only if something else was to be moved beside it. */
  lemma {:induction false} FailureTakesBeside(before: FileSystem, from: Path, to: Path, s: Script, after: FileSystem, q: Path)
    requires Replays(before, from, to, s, false, after) && Apart(from, to)
    requires IsFile(before, q) && Under(from, q) && q !in after
    ensures Beside(before, from, q)
    decreases s
  {
    hide Replays, Under, Apart, Near, Children, Distinct, OnlyFoldersTo;
    OnlyWalksTake(before, from, to, s, after, q);
    var k := |s.steps| - 1;
    var last := s.steps[k];
    var child := from + [last.name];
    SameFiles(before, s.made, to);
    StepRuns(before, from, to, s, false, after, k);
    if Under(child, q) {
      NotUnderSiblings(from, s.steps, k, q);
      StepsKeepBetween(before, from, to, s, false, after, 0, k, q);
      ApartChild(from, to, last.name);
      FailureTakesBeside(Now(s.made, s.steps, k), child, to + [last.name], last.script, last.after, q);
      var e :| e in Now(s.made, s.steps, k) && Under(child, e) && Apart(q, e);
      ChildUnder(from, last.name, e);
      FarFrom(from, to, e);
      StepsAddNear(before, from, to, s, false, after, k, e);
      MadeIsNear(before, s.made, to, e);
    } else {
      var j := TakenBy(before, from, to, s, after, q);
      ChildOf(s.made, from, child);
      FarFrom(from, to, child);
      MadeIsNear(before, s.made, to, child);
      DistinctNames(s.steps, j, k);
      SiblingsApart(from, last.name, s.steps[j].name);
      ApartUnder(child, from + [s.steps[j].name], q);
    }
  }

  lemma ApartUnder(a: Path, b: Path, p: Path)
    requires Apart(a, b) && Under(b, p)
    ensures Apart(p, a)
  {
    UnderBoth(a, b, p);
    PrefixTransitive(b, p, a);
  }

  lemma ChildOf(fs: FileSystem, from: Path, child: Path)
    requires child in Children(fs, from)
    ensures child in fs && Under(from, child)
  {
  }

  lemma DistinctNames(steps: seq<ChildMove>, j: nat, k: nat)
    requires Distinct(steps) && j < k < |steps|
    ensures steps[j].name != steps[k].name
  {
  }

  lemma NotUnderSiblings(from: Path, steps: seq<ChildMove>, k: nat, q: Path)
    requires Distinct(steps) && k < |steps| && Under(from + [steps[k].name], q)
    ensures forall j :: 0 <= j < |steps| && j != k ==> !Under(from + [steps[j].name], q)
  {
    hide Under;
    forall j | 0 <= j < |steps| && j != k ensures !Under(from + [steps[j].name], q) {
      SiblingsApart(from, steps[k].name, steps[j].name);
      BelowIsApart(from + [steps[k].name], from + [steps[j].name], q);
    }
  }

  /** The earlier step that took `q`. */
  lemma TakenBy(before: FileSystem, from: Path, to: Path, s: Script, after: FileSystem, q: Path) returns (j: nat)
    requires s.Walked? && Replays(before, from, to, s, false, after) && q in s.made && s.steps != []
    requires q !in Now(s.made, s.steps, |s.steps|) && !Under(from + [s.steps[|s.steps| - 1].name], q)
    ensures j < |s.steps| - 1 && Under(from + [s.steps[j].name], q)
  {
    hide Under, Replays;
    if forall k :: 0 <= k < |s.steps| ==> !Under(from + [s.steps[k].name], q) {
      StepsKeepBetween(before, from, to, s, false, after, 0, |s.steps|, q);
    }
    j :| 0 <= j < |s.steps| && Under(from + [s.steps[j].name], q);
  }

  // ---------------------------------------------------------------- a successful run takes the folders

  /** Every entry from `from` down to `p` is a folder. */
  predicate FolderChain(fs: FileSystem, from: Path, p: Path)
  {
    Under(from, p) && forall i :: |from| <= i <= |p| ==> IsFolder(fs, p[..i])
  }

  lemma ChainIs(fs: FileSystem, from: Path, p: Path)
    requires WellFormed(fs) && IsFolder(fs, p) && Under(from, p)
    ensures FolderChain(fs, from, p)
  {
    hide WellFormed;
    forall i | |from| <= i <= |p| ensures IsFolder(fs, p[..i]) {
      PrefixIsFolder(fs, p[..i], p);
      assert p[..|p|] == p;
    }
  }

  lemma ChainStarts(before: FileSystem, from: Path, to: Path, s: Script, after: FileSystem, p: Path)
    requires Replays(before, from, to, s, true, after) && FolderChain(before, from, p)
    ensures s.Walked? && OnlyFoldersTo(before, s.made, to) && IsFolder(s.made, to) && Distinct(s.steps)
    ensures Visited(from, s.steps) == Children(s.made, from)
  {
    hide WellFormed, Children, Visited, Distinct;
    assert p[..|from|] == from;
  }

  lemma ChainNext(before: FileSystem, made: FileSystem, from: Path, to: Path, p: Path)
    requires FolderChain(before, from, p) && p != from && OnlyFoldersTo(before, made, to)
    ensures |p| > |from| && p[..|from| + 1] == from + [p[|from|]] && p[..|from| + 1] in Children(made, from)
    ensures FolderChain(made, p[..|from| + 1], p)
  {
    StrictlyInside(from, p);
    var child := p[..|from| + 1];
    assert IsFolder(before, child);
    forall i | |child| <= i <= |p| ensures IsFolder(made, p[..i]) {
      assert IsFolder(before, p[..i]);
    }
  }

  /** After a successful move every folder has its counterpart in the target. */
  lemma {:induction false} FolderArrives(before: FileSystem, from: Path, to: Path, s: Script, after: FileSystem, p: Path)
    requires Replays(before, from, to, s, true, after) && Apart(from, to) && FolderChain(before, from, p)
    ensures IsFolder(after, Rebase(p, from, to))
    decreases s
  {
    hide Replays, Apart, Children, Visited, Distinct, OnlyFoldersTo, FolderChain, Under;
    ChainStarts(before, from, to, s, after, p);
    ChainUnder(before, from, p);
    var n := |s.steps|;
    WalkEnds(before, from, to, s, true, after);
    var t := Rebase(p, from, to);
    RebaseBack(p, from, to);
    NotSource(from, to, s.steps, t);
    var i: nat := 0;
    if p == from {
      assert t == to;
    } else {
      ChainNext(before, s.made, from, to, p);
      var child, name := p[..|from| + 1], p[|from|];
      var k := StepFor(from, s.steps, child);
      ChainUnder(s.made, child, p);
      NotUnderSiblings(from, s.steps, k, p);
      ChainKept(before, from, to, s, after, k, p);
      StepRuns(before, from, to, s, true, after, k);
      StepIsOk(before, from, to, s, after, k);
      ApartChild(from, to, name);
      FolderArrives(Now(s.made, s.steps, k), child, to + [name], s.steps[k].script, s.steps[k].after, p);
      ChildRebase(p, from, to, name);
      i := k + 1;
    }
    StepsKeepBetween(before, from, to, s, true, after, i, n, t);
  }

  lemma ChainUnder(fs: FileSystem, from: Path, p: Path)
    requires FolderChain(fs, from, p)
    ensures Under(from, p)
  {
  }

  /** What lies below the target is no part of the source. */
  lemma NotSource(from: Path, to: Path, steps: seq<ChildMove>, t: Path)
    requires Apart(from, to) && Under(to, t)
    ensures t != from && forall j :: 0 <= j < |steps| ==> !Under(from + [steps[j].name], t)
  {
    hide Under;
    ApartFlip(from, to);
    BelowIsApart(to, from, t);
    UnderSelf(t);
    forall j | 0 <= j < |steps| ensures !Under(from + [steps[j].name], t) {
      ChildUnder(from, steps[j].name, t);
    }
  }

  lemma ApartFlip(a: Path, b: Path)
    ensures Apart(a, b) <==> Apart(b, a)
  {
  }

  lemma StepFor(from: Path, steps: seq<ChildMove>, child: Path) returns (k: nat)
    requires child in Visited(from, steps)
    ensures k < |steps| && child == from + [steps[k].name]
  {
    k :| 0 <= k < |steps| && child == from + [steps[k].name];
  }

  lemma StepIsOk(before: FileSystem, from: Path, to: Path, s: Script, after: FileSystem, k: nat)
    requires s.Walked? && Replays(before, from, to, s, true, after) && k < |s.steps|
    ensures s.steps[k].ok
  {
    hide WellFormed, Children, Visited, Distinct, OnlyFoldersTo;
  }

  lemma ChainKept(before: FileSystem, from: Path, to: Path, s: Script, after: FileSystem, k: nat, p: Path)
    requires s.Walked? && Replays(before, from, to, s, true, after) && k < |s.steps| && Distinct(s.steps)
    requires FolderChain(s.made, from + [s.steps[k].name], p)
    ensures FolderChain(Now(s.made, s.steps, k), from + [s.steps[k].name], p)
  {
    hide Replays, Distinct;
    var child := from + [s.steps[k].name];
    forall i | |child| <= i <= |p| ensures IsFolder(Now(s.made, s.steps, k), p[..i]) {
      assert Under(child, p[..i]);
      NotUnderSiblings(from, s.steps, k, p[..i]);
      assert IsFolder(s.made, p[..i]);
      StepsKeepBetween(before, from, to, s, true, after, 0, k, p[..i]);
    }
  }

  // ---------------------------------------------------------------- which runs there are

  /** Nothing at the target is in the way of an entry below `from`. */
  predicate Clear(fs: FileSystem, from: Path, to: Path)
  {
    forall p :: p in fs && Under(from, p) ==> if fs[p].File? then Rebase(p, from, to) !in fs else !IsFile(fs, Rebase(p, from, to))
  }

  predicate HasParent(fs: FileSystem, to: Path)
  {
    to != [] && IsFolder(fs, to[..|to| - 1])
  }

  /** What is new below the target came from the source. */
  ghost predicate Arrived(before: FileSystem, after: FileSystem, from: Path, to: Path)
  {
    forall p :: p in after && Under(to, p) && p !in before ==> Rebase(p, to, from) in before && after[p] == before[Rebase(p, to, from)]
  }

  /** Below `d` there is only what was there. */
  ghost predicate Shrunk(a: FileSystem, b: FileSystem, d: Path)
    ensures Shrunk(a, b, d) ==> Entries(b, d) <= Entries(a, d)
  {
    forall p :: p in b && Under(d, p) ==> p in a && b[p] == a[p]
  }

  lemma NothingIn(fs: FileSystem, d: Path)
    requires WellFormed(fs) && d !in fs
    ensures forall p :: p in fs ==> !Under(d, p)
  {
    hide WellFormed;
    forall p | p in fs ensures !Under(d, p) {
      if Under(d, p) {
        PrefixIsFolder(fs, d, p);
      }
    }
  }

  /** `mkpath` of a folder whose parent is there. */
  function WithFolder(fs: FileSystem, to: Path): FileSystem
  {
    if to in fs then fs else fs[to := Folder]
  }

  lemma FolderReady(fs: FileSystem, from: Path, to: Path)
    requires WellFormed(fs) && HasParent(fs, to) && IsFolder(fs, from) && Apart(from, to) && Clear(fs, from, to)
    ensures var made := WithFolder(fs, to);
            && WellFormed(made) && OnlyFoldersTo(fs, made, to) && IsFolder(made, to) && IsFolder(made, from)
            && Clear(made, from, to) && Children(made, from) == Children(fs, from) && Shrunk(fs, made, from)
            && Arrived(fs, made, from, to)
  {
    hide WellFormed, OnlyFoldersTo, Children, Apart, Under, Clear, Arrived, Shrunk;
    var made := WithFolder(fs, to);
    RebaseTop(from, to);
    FolderFits(fs, from, to);
    FolderIsMade(fs, to);
    FolderIsClear(fs, from, to);
  }

  lemma FolderFits(fs: FileSystem, from: Path, to: Path)
    requires IsFolder(fs, from) && Clear(fs, from, to)
    ensures !IsFile(fs, to)
  {
    RebaseTop(from, to);
    assert from in fs && Under(from, from);
  }

  lemma FolderIsMade(fs: FileSystem, to: Path)
    requires WellFormed(fs) && HasParent(fs, to) && !IsFile(fs, to)
    ensures WellFormed(WithFolder(fs, to)) && OnlyFoldersTo(fs, WithFolder(fs, to), to)
  {
    hide WellFormed, OnlyFoldersTo;
    NothingMade(fs, to);
    if to !in fs {
      assert to[..|to|] == to;
      FolderMade(fs, fs, to, |to|);
    }
  }

  lemma FolderIsClear(fs: FileSystem, from: Path, to: Path)
    requires Apart(from, to) && Clear(fs, from, to) && IsFolder(fs, from)
    ensures var made := WithFolder(fs, to);
            && Clear(made, from, to) && Children(made, from) == Children(fs, from) && Shrunk(fs, made, from) && Arrived(fs, made, from, to)
  {
    hide Under;
    var made := WithFolder(fs, to);
    RebaseTop(from, to);
    RebaseTop(to, from);
    ApartFlip(from, to);
    forall p | Under(from, p) ensures p != to && (Rebase(p, from, to) == to ==> p == from) {
      FarFrom(from, to, p);
      UnderSelf(to);
      if p != from {
        NotRebased(from, to, p);
      }
    }
    forall p ensures p in Children(made, from) <==> p in Children(fs, from) {
      assert p in Children(made, from) ==> Under(from, p);
    }
  }

  lemma RebaseTop(from: Path, to: Path)
    ensures Under(from, from) && Rebase(from, from, to) == to
  {
  }

  /** Where nothing is in the way a move can succeed, and leave nothing behind. */
  lemma {:induction false} FullMove(fs: FileSystem, from: Path, to: Path) returns (s: Script, after: FileSystem)
    requires WellFormed(fs) && from in fs && Apart(from, to) && HasParent(fs, to) && Clear(fs, from, to)
    ensures Replays(fs, from, to, s, true, after)
    ensures WellFormed(after) && from !in after && Arrived(fs, after, from, to)
    decreases |Entries(fs, from)|
  {
    hide Replays, WellFormed, Children, Apart, Under, Clear, Arrived, OnlyFoldersTo, StepsReplay, HasParent, Shrunk, Near;
    if fs[from].File? {
      after := Renamed(fs, from, to);
      s := FileMoved;
      FileGoes(fs, from, to);
      return;
    }
    FolderReady(fs, from, to);
    var made := WithFolder(fs, to);
    var now, todo, steps := made, Children(made, from), [];
    NoSteps(made, from, to);
    while todo != {}
      invariant WellFormed(now) && IsFolder(now, from) && IsFolder(now, to) && Clear(now, from, to) && Arrived(fs, now, from, to)
      invariant todo == Children(now, from) && todo <= Children(made, from) && Shrunk(fs, now, from)
      invariant StepsReplay(made, from, to, steps, Children(made, from) - todo)
      invariant AllOk(steps) && now == Now(made, steps, |steps|)
      decreases |todo|
    {
      var child :| child in todo;
      ChildIs(now, from, child);
      ChildOf(now, from, child);
      var name := child[|from|];
      ApartChild(from, to, name);
      ChildReady(now, from, to, name);
      FewerEntries(fs, now, from, name);
      var inner, next := FullMove(now, child, to + [name]);
      OneChildGone(now, from, to, name, inner, next);
      ArrivedNext(fs, now, from, to, name, inner, next);
      ShrunkTransitive(fs, now, next, from);
      NextStep(made, from, to, steps, todo, ChildMove(name, inner, true, next));
      steps := steps + [ChildMove(name, inner, true, next)];
      assert Children(made, from) - todo + {child} == Children(made, from) - (todo - {child});
      now, todo := next, todo - {child};
    }
    assert Children(made, from) - todo == Children(made, from);
    FolderRemoved(now, from);
    after := now - {from};
    s := Walked(made, steps);
    WalkedReplays(fs, made, from, to, steps, after);
    ArrivedLess(fs, now, from, to);
  }

  lemma FileGoes(fs: FileSystem, from: Path, to: Path)
    requires WellFormed(fs) && IsFile(fs, from) && Apart(from, to) && HasParent(fs, to) && Clear(fs, from, to)
    ensures CanRename(fs, from, to) && !IsFolder(fs, from)
    ensures var after := Renamed(fs, from, to);
            Replays(fs, from, to, FileMoved, true, after) && WellFormed(after) && from !in after && Arrived(fs, after, from, to)
  {
    hide WellFormed, Replays;
    RebaseTop(from, to);
    RebaseTop(to, from);
    RenameWellFormed(fs, from, to);
    FileReplays(fs, from, to);
  }

  lemma ChildReady(fs: FileSystem, from: Path, to: Path, name: Name)
    requires from + [name] in fs && Clear(fs, from, to) && IsFolder(fs, to)
    ensures Clear(fs, from + [name], to + [name]) && HasParent(fs, to + [name])
  {
    forall p | p in fs && Under(from + [name], p)
      ensures Under(from, p) && Rebase(p, from, to) == Rebase(p, from + [name], to + [name])
    {
      ChildRebase(p, from, to, name);
    }
    assert (to + [name])[..|to|] == to;
  }

  /** After one child went, the others are as before. */
  lemma OneChildGone(now: FileSystem, from: Path, to: Path, name: Name, s: Script, next: FileSystem)
    requires Replays(now, from + [name], to + [name], s, true, next) && Apart(from, to)
    requires WellFormed(next) && from + [name] !in next
    requires IsFolder(now, from) && IsFolder(now, to) && Clear(now, from, to)
    ensures IsFolder(next, from) && IsFolder(next, to) && Clear(next, from, to)
    ensures Children(next, from) == Children(now, from) - {from + [name]} && Shrunk(now, next, from)
  {
    hide Replays, WellFormed, Apart, Near, Under;
    ApartChild(from, to, name);
    NothingIn(next, from + [name]);
    forall p | p in next && Under(from, p) ensures p in now && now[p] == next[p] && !Under(from + [name], p) {
      StaysBelow(now, from, to, name, s, next, p);
    }
    forall p | p in now && !Under(from + [name], p) ensures p in next && now[p] == next[p] {
      ReplayKeepsOthers(now, from + [name], to + [name], s, true, next, p);
    }
    UnderSelf(from + [name]);
    ApartFlip(from, to);
    UnderSelf(to);
    BelowIsApart(to, from, to);
    ChildUnder(from, name, to);
    UnderSelf(from);
    NotAbove(from, name);
    forall p ensures p in Children(next, from) <==> p in Children(now, from) - {from + [name]} {
      if p in Children(now, from) && p != from + [name] {
        ChildIs(now, from, p);
        SiblingsApart(from, name, p[|from|]);
        UnderSelf(p);
        BelowIsApart(p, from + [name], p);
      }
    }
    forall p | p in next && Under(from, p)
      ensures if next[p].File? then Rebase(p, from, to) !in next else !IsFile(next, Rebase(p, from, to))
    {
      ClearStays(now, from, to, name, s, next, p);
    }
  }

  lemma NotAbove(d: Path, name: Name)
    ensures !Under(d + [name], d)
  {
  }

  lemma StaysBelow(now: FileSystem, from: Path, to: Path, name: Name, s: Script, next: FileSystem, p: Path)
    requires Replays(now, from + [name], to + [name], s, true, next) && Apart(from, to) && p in next && Under(from, p)
    ensures p in now && now[p] == next[p]
  {
    hide Replays, Apart, Under, Near;
    FarFrom(from, to, p);
    NearChild(to, name, p);
    ReplayAddsNear(now, from + [name], to + [name], s, true, next, p);
  }

  lemma ClearStays(now: FileSystem, from: Path, to: Path, name: Name, s: Script, next: FileSystem, p: Path)
    requires Replays(now, from + [name], to + [name], s, true, next) && Apart(from, to)
    requires p in next && Under(from, p) && !Under(from + [name], p) && p in now && now[p] == next[p]
    requires IsFolder(now, from) && IsFolder(next, to) && Clear(now, from, to)
    ensures if next[p].File? then Rebase(p, from, to) !in next else !IsFile(next, Rebase(p, from, to))
  {
    hide Replays, Apart, Near, Under;
    var t := Rebase(p, from, to);
    RebaseBack(p, from, to);
    if p == from {
      RebaseTop(from, to);
    } else if t in next {
      NotRebased(from, to, p);
      NearChild(to, name, t);
      if Under(to + [name], t) {
        ChildRebase(t, to, from, name);
        RebaseBack(t, to + [name], from + [name]);
      }
      ReplayAddsNear(now, from + [name], to + [name], s, true, next, t);
    }
  }

  lemma NotRebased(from: Path, to: Path, p: Path)
    requires Under(from, p) && p != from
    ensures Rebase(p, from, to) != to
  {
    assert |p| > |from| by {
      assert p[..|p|] == p;
    }
  }

  lemma ShrunkTransitive(a: FileSystem, b: FileSystem, c: FileSystem, d: Path)
    requires Shrunk(a, b, d) && Shrunk(b, c, d)
    ensures Shrunk(a, c, d)
  {
    hide Under;
  }

  lemma ArrivedNext(fs: FileSystem, now: FileSystem, from: Path, to: Path, name: Name, s: Script, next: FileSystem)
    requires Replays(now, from + [name], to + [name], s, true, next) && Apart(from, to) && to in now
    requires Arrived(fs, now, from, to) && Arrived(now, next, from + [name], to + [name]) && Shrunk(fs, now, from)
    ensures Arrived(fs, next, from, to)
  {
    hide Replays, Apart, Near, Under;
    ApartFlip(from, to);
    forall p | p in next && Under(to, p) && p !in fs ensures Rebase(p, to, from) in fs && next[p] == fs[Rebase(p, to, from)] {
      RebaseBack(p, to, from);
      if p in now {
        BelowIsApart(to, from, p);
        ChildUnder(from, name, p);
        ReplayKeepsOthers(now, from + [name], to + [name], s, true, next, p);
      } else {
        NearChild(to, name, p);
        if Near(to + [name], p) {
          ChildRebase(p, to, from, name);
        } else {
          ReplayAddsNear(now, from + [name], to + [name], s, true, next, p);
        }
      }
    }
  }

  lemma ArrivedLess(fs: FileSystem, now: FileSystem, from: Path, to: Path)
    requires Arrived(fs, now, from, to)
    ensures Arrived(fs, now - {from}, from, to)
  {
    hide Under;
  }

  // ---------------------------------------------------------------- a move that takes one file and fails

  lemma ClearOfNew(fs: FileSystem, from: Path, to: Path)
    requires WellFormed(fs) && to !in fs
    ensures Clear(fs, from, to)
  {
    hide WellFormed;
    NothingIn(fs, to);
    forall p | p in fs && Under(from, p) ensures Rebase(p, from, to) !in fs {
      RebaseBack(p, from, to);
    }
  }

  lemma BesideIsBelow(fs: FileSystem, from: Path, q: Path) returns (e: Path)
    requires WellFormed(fs) && Beside(fs, from, q)
    ensures e in fs && Under(from, e) && e != from && Under(from, q) && q != from && Apart(q, e) && IsFolder(fs, from)
  {
    hide WellFormed, Apart;
    e :| e in fs && Under(from, e) && Apart(q, e);
    PrefixIsFolder(fs, from, q);
    assert !Under(q, e) && !Under(e, q) by { ApartMeans(q, e); }
  }

  lemma ApartMeans(a: Path, b: Path)
    requires Apart(a, b)
    ensures !Under(a, b) && !Under(b, a)
  {
  }

  /** The child of `from` on the way to `p`. */
  lemma FirstStep(fs: FileSystem, from: Path, p: Path) returns (name: Name)
    requires WellFormed(fs) && p in fs && Under(from, p) && p != from
    ensures Under(from + [name], p) && from + [name] in fs && from + [name] in Children(fs, from)
  {
    StrictlyInside(from, p);
    name := p[|from|];
    PrefixIsFolder(fs, from + [name], p);
  }

  lemma RebaseUnder(r: Path, q: Path, from: Path, to: Path)
    requires Under(from, r) && Under(r, q) && Under(from, q)
    ensures Under(Rebase(r, from, to), Rebase(q, from, to))
  {
    var a, b := Rebase(r, from, to), Rebase(q, from, to);
    assert q[|from|..][..|r| - |from|] == r[|from|..];
    assert b[..|a|] == a;
  }

  /** Where nothing is at the target, and a file lies beside something else, a move can take
      just this file and fail at the next step. */
  lemma {:induction false} HalfMove(fs: FileSystem, from: Path, to: Path, q: Path) returns (s: Script, after: FileSystem)
    requires WellFormed(fs) && Apart(from, to) && HasParent(fs, to) && to !in fs && Beside(fs, from, q)
    ensures Replays(fs, from, to, s, false, after)
    ensures WellFormed(after) && q !in after
    ensures OnlyTheWay(after, to, Rebase(q, from, to))
    decreases |q| - |from|
  {
    hide Replays, WellFormed, Children, Apart, Under, Clear, Arrived, Shrunk, OnlyFoldersTo, HasParent, Near, Beside, WithFolder, OnlyTheWay;
    var e := BesideIsBelow(fs, from, q);
    ClearOfNew(fs, from, to);
    FolderReady(fs, from, to);
    var made := WithFolder(fs, to);
    OnlyTargetMade(fs, to);
    SameFiles(fs, made, to);
    var name := FirstStep(made, from, q);
    var child := from + [name];
    ApartChild(from, to, name);
    ChildReady(made, from, to, name);
    ChildRebase(q, from, to, name);
    RebaseBack(q, from, to);
    NotAbove(to, name);
    ChildUnder(to, name, to);
    if Beside(made, child, q) {
      Longer(from, name, q);
      s, after := HalfMove(made, child, to + [name], q);
      FirstFails(fs, made, from, to, name, s, after);
      StillOnTheWay(made, from, to, name, q, s, false, after);
      s := Walked(made, [ChildMove(name, s, false, after)]);
    } else {
      s, after := FullMove(made, child, to + [name]);
      NothingIn(after, child);
      var other := FirstStep(made, from, e);
      OtherChild(made, from, name, other, q, e);
      SecondFails(fs, made, from, to, name, other, s, after);
      OneWayArrived(made, from, to, name, q, after);
      StillOnTheWay(made, from, to, name, q, s, true, after);
      s := Walked(made, [ChildMove(name, s, true, after), ChildMove(other, FailsAtOnce(after, from + [other]), false, after)]);
    }
  }

  lemma Longer(from: Path, name: Name, q: Path)
    requires Under(from + [name], q)
    ensures |q| > |from|
  {
  }

  lemma OnlyTargetMade(fs: FileSystem, to: Path)
    requires WellFormed(fs) && to !in fs
    ensures forall p :: p in WithFolder(fs, to) && Under(to, p) ==> p == to
  {
    hide WellFormed;
    NothingIn(fs, to);
  }

  lemma FirstFails(fs: FileSystem, made: FileSystem, from: Path, to: Path, name: Name, s: Script, after: FileSystem)
    requires IsFolder(fs, from) && OnlyFoldersTo(fs, made, to) && IsFolder(made, to) && WellFormed(made)
    requires from + [name] in Children(made, from) && Replays(made, from + [name], to + [name], s, false, after)
    ensures Replays(fs, from, to, Walked(made, [ChildMove(name, s, false, after)]), false, after)
  {
    hide Replays, StepsReplay, OnlyFoldersTo, WellFormed, Children;
    var step := ChildMove(name, s, false, after);
    NoSteps(made, from, to);
    NextStep(made, from, to, [], Children(made, from), step);
    StoppedReplays(fs, made, from, to, [], Children(made, from), step);
    assert [] + [step] == [step];
  }

  /** The move of an entry to a free place, refused at its first operation. */
  function FailsAtOnce(fs: FileSystem, from: Path): Script
  {
    if IsFolder(fs, from) then Blocked else Refused
  }

  lemma SecondFails(fs: FileSystem, made: FileSystem, from: Path, to: Path, name: Name, other: Name, s: Script, mid: FileSystem)
    requires IsFolder(fs, from) && OnlyFoldersTo(fs, made, to) && IsFolder(made, to) && WellFormed(made) && WellFormed(mid)
    requires from + [name] in Children(made, from) && from + [other] in Children(made, from) && name != other
    requires Replays(made, from + [name], to + [name], s, true, mid)
    requires forall p :: p in made && Under(to, p) ==> p == to
    ensures Replays(fs, from, to, Walked(made, [ChildMove(name, s, true, mid), ChildMove(other, FailsAtOnce(mid, from + [other]), false, mid)]),
                    false, mid)
  {
    hide Replays, StepsReplay, OnlyFoldersTo, WellFormed, Children, Near, Under;
    var t := to + [other];
    SiblingsApart(to, name, other);
    SiblingsApart(from, name, other);
    ChildUnder(to, other, t);
    NotAbove(to, other);
    UnderSelf(to);
    if t in mid {
      NotNear(to + [name], t);
      ReplayAddsNear(made, from + [name], to + [name], s, true, mid, t);
    }
    var first, second := ChildMove(name, s, true, mid), ChildMove(other, FailsAtOnce(mid, from + [other]), false, mid);
    var all := Children(made, from);
    NothingMade(mid, t);
    if IsFolder(mid, from + [other]) {
      BlockedReplays(mid, from + [other], t, mid);
    } else {
      FileReplays(mid, from + [other], t);
    }
    NoSteps(made, from, to);
    NextStep(made, from, to, [], all, first);
    assert [] + [first] == [first] && [first] + [second] == [first, second];
    assert from + [other] in all - {from + [name]} by { assert (from + [name])[|from|] == name && (from + [other])[|from|] == other; }
    assert all - all + {from + [name]} == all - (all - {from + [name]});
    NextStep(made, from, to, [first], all - {from + [name]}, second);
    StoppedReplays(fs, made, from, to, [first], all - {from + [name]}, second);
  }

  lemma NotNear(a: Path, b: Path)
    requires Apart(a, b)
    ensures !Near(a, b)
  {
  }

  lemma OtherChild(made: FileSystem, from: Path, name: Name, other: Name, q: Path, e: Path)
    requires !Beside(made, from + [name], q) && IsFile(made, q) && Under(from + [name], q)
    requires e in made && Under(from + [other], e) && Apart(q, e)
    ensures name != other
  {
    hide Under, Apart;
  }

  /** Below `to` there is at most `t`, and folders on its way. */
  ghost predicate OnlyTheWay(fs: FileSystem, to: Path, t: Path)
  {
    forall p :: p in fs && Under(to, p) ==> Under(p, t) && (p != t ==> IsFolder(fs, p))
  }

  /** With nothing beside `q`, all that arrived is `q` and the folders on its way. */
  lemma OneWayArrived(made: FileSystem, from: Path, to: Path, name: Name, q: Path, after: FileSystem)
    requires WellFormed(made) && Arrived(made, after, from + [name], to + [name]) && IsFile(made, q) && Under(from + [name], q)
    requires !Beside(made, from + [name], q) && forall p :: p in made && Under(to, p) ==> p == to
    ensures OnlyTheWay(after, to + [name], Rebase(q, from + [name], to + [name]))
  {
    hide WellFormed, Under;
    var child, t := from + [name], to + [name];
    NotAbove(to, name);
    RebaseBack(q, child, t);
    forall p | p in after && Under(t, p) ensures Under(p, Rebase(q, child, t)) && (p != Rebase(q, child, t) ==> IsFolder(after, p)) {
      ChildUnder(to, name, p);
      assert p !in made;
      var r := Rebase(p, t, child);
      RebaseBack(p, t, child);
      assert !Apart(q, r);
      if Under(q, r) {
        PrefixIsFolder(made, q, r);
      }
      assert Under(r, q);
      RebaseUnder(r, q, child, t);
      PrefixIsFolder(made, r, q);
    }
  }

  lemma StillOnTheWay(made: FileSystem, from: Path, to: Path, name: Name, q: Path, s: Script, ok: bool, after: FileSystem)
    requires Replays(made, from + [name], to + [name], s, ok, after) && Under(from + [name], q) && Under(from, q)
    requires Rebase(q, from, to) == Rebase(q, from + [name], to + [name])
    requires forall p :: p in made && Under(to, p) ==> p == to
    requires IsFolder(made, to) && Apart(from, to)
    requires OnlyTheWay(after, to + [name], Rebase(q, from + [name], to + [name]))
    ensures OnlyTheWay(after, to, Rebase(q, from, to))
  {
    hide Replays, Under, Near, Apart;
    RebaseBack(q, from, to);
    ApartFlip(from, to);
    UnderSelf(to);
    BelowIsApart(to, from, to);
    ChildUnder(from, name, to);
    ReplayKeepsOthers(made, from + [name], to + [name], s, ok, after, to);
    forall p | p in after && Under(to, p) ensures Under(p, Rebase(q, from, to)) && (p != Rebase(q, from, to) ==> IsFolder(after, p)) {
      NearChild(to, name, p);
      if !Near(to + [name], p) {
        ReplayAddsNear(made, from + [name], to + [name], s, ok, after, p);
      }
    }
  }

  /** No failing move takes a file. */
  ghost predicate FailuresTakeNothing(fs: FileSystem, from: Path, to: Path)
  {
    forall s, after, q :: Replays(fs, from, to, s, false, after) && IsFile(fs, q) && Under(from, q) ==> q in after
  }

  /** To a free place a failing move takes no file, whatever fails, exactly when no file of
      the entry lies beside anything else. */
  lemma FailuresTakeNothingExactly(fs: FileSystem, from: Path, to: Path)
    requires WellFormed(fs) && Apart(from, to) && HasParent(fs, to) && to !in fs
    ensures FailuresTakeNothing(fs, from, to) <==> forall q :: !Beside(fs, from, q)
  {
    hide Replays, WellFormed, Apart, HasParent, Beside, Under, OnlyTheWay;
    if q :| Beside(fs, from, q) {
      var s, after := HalfMove(fs, from, to, q);
    }
    forall s, after, q | Replays(fs, from, to, s, false, after) && IsFile(fs, q) && Under(from, q) && !Beside(fs, from, q)
      ensures q in after
    {
      if q !in after {
        FailureTakesBeside(fs, from, to, s, after, q);
      }
    }
  }
}
