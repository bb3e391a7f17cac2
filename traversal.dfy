/** The traversal's box-id arrays, its four interaction-list families and
    its level-start tables, together with the level invariants that the
    connectivity test checks over them (test/test_traversal.py). */
module FmmTraversal {
  import opened BoxTree
  import opened CompressedLists

  /** List 1 (`neighborSourceBoxes`) and each per-level part of List 3
      (`fromSepSmallerByLevel`) are indexed by position in `targetBoxes`;
      List 2 (`fromSepSiblings`) and List 4 (`fromSepBigger`) by position in
      `targetOrTargetParentBoxes`.  Each `levelStart...BoxNrs` table marks
      the per-level runs of the box-id array named after it. */
  datatype Traversal = Traversal(
    targetBoxes: seq<int>,
    sourceBoxes: seq<int>,
    sourceParentBoxes: seq<int>,
    targetOrTargetParentBoxes: seq<int>,
    neighborSourceBoxes: CompressedList,
    fromSepSiblings: CompressedList,
    fromSepSmallerByLevel: seq<CompressedList>,
    fromSepBigger: CompressedList,
    levelStartSourceBoxNrs: seq<int>,
    levelStartSourceParentBoxNrs: seq<int>,
    levelStartTargetBoxNrs: seq<int>,
    levelStartTargetOrTargetParentBoxNrs: seq<int>)

  /** The four level-start tables, each paired with the box-id array whose
      per-level runs it delimits, in the order the test visits them. */
  function LevelStartTables(tr: Traversal): seq<CompressedList> {
    [ CompressedList(tr.levelStartSourceBoxNrs, tr.sourceBoxes),
      CompressedList(tr.levelStartSourceParentBoxNrs, tr.sourceParentBoxes),
      CompressedList(tr.levelStartTargetBoxNrs, tr.targetBoxes),
      CompressedList(tr.levelStartTargetOrTargetParentBoxNrs, tr.targetOrTargetParentBoxes) ]
  }

  /** A list family over `count` indexed elements whose entries are box ids. */
  predicate ListFamilyOk(t: Tree, c: CompressedList, count: nat) {
    ValidFor(c, count) && AllBoxes(t, c.lists)
  }

  /** The entries of indexed element `i` of a list family, which are box
      ids since all of the family's entries are. */
  function Entries(t: Tree, c: CompressedList, count: nat, i: int): (r: seq<int>)
    requires ListFamilyOk(t, c, count) && 0 <= i < count
    ensures AllBoxes(t, r)
  {
    Slice(c, i)
  }

  /** The shape every array the test reads has: box ids name boxes, each
      list family has one start per indexed element plus one, and each
      level-start table has `nlevels + 1` entries delimiting runs of its
      array. */
  predicate WellFormed(t: Tree, tr: Traversal) {
    && WellFormedTree(t)
    && AllBoxes(t, tr.targetBoxes)
    && AllBoxes(t, tr.sourceBoxes)
    && AllBoxes(t, tr.sourceParentBoxes)
    && AllBoxes(t, tr.targetOrTargetParentBoxes)
    && ListFamilyOk(t, tr.neighborSourceBoxes, |tr.targetBoxes|)
    && ListFamilyOk(t, tr.fromSepSiblings, |tr.targetOrTargetParentBoxes|)
    && (forall l :: 0 <= l < |tr.fromSepSmallerByLevel| ==>
          ListFamilyOk(t, tr.fromSepSmallerByLevel[l], |tr.targetBoxes|))
    && ListFamilyOk(t, tr.fromSepBigger, |tr.targetOrTargetParentBoxes|)
    && forall q :: 0 <= q < |LevelStartTables(tr)| ==> ListFamilyOk(t, LevelStartTables(tr)[q], t.nlevels)
  }

  // ---------------------------------------------------------------------
  // List 1: neighbor source boxes are leaves

  /** The List 1 entries of the `i`-th target box are all leaves, and, when
      sources are targets, include that target box itself. */
  predicate List1EntryOk(t: Tree, tr: Traversal, sourcesAreTargets: bool, i: int)
    requires WellFormed(t, tr) && 0 <= i < |tr.targetBoxes|
  {
    var nbl := Entries(t, tr.neighborSourceBoxes, |tr.targetBoxes|, i);
    && (sourcesAreTargets ==> tr.targetBoxes[i] in nbl)
    && AllLeaves(t, nbl)
  }

  predicate List1Ok(t: Tree, tr: Traversal, sourcesAreTargets: bool)
    requires WellFormed(t, tr)
  {
    forall i :: 0 <= i < |tr.targetBoxes| ==> List1EntryOk(t, tr, sourcesAreTargets, i)
  }

  /** The loop over the target boxes and, inside it, over their List 1. */
  method CheckList1(t: Tree, tr: Traversal, sourcesAreTargets: bool) returns (ok: bool)
    requires WellFormed(t, tr)
    ensures ok <==> List1Ok(t, tr, sourcesAreTargets)
  {
    for itgt := 0 to |tr.targetBoxes|
      invariant forall i :: 0 <= i < itgt ==> List1EntryOk(t, tr, sourcesAreTargets, i)
    {
      var ibox := tr.targetBoxes[itgt];
      var nbl := Entries(t, tr.neighborSourceBoxes, |tr.targetBoxes|, itgt);
      if sourcesAreTargets && ibox !in nbl {
        assert !List1EntryOk(t, tr, sourcesAreTargets, itgt);
        return false;
      }
      for k := 0 to |nbl|
        invariant forall k' :: 0 <= k' < k ==> IsLeaf(t, nbl[k'])
      {
        if !IsLeaf(t, nbl[k]) {
          assert !List1EntryOk(t, tr, sourcesAreTargets, itgt);
          return false;
        }
      }
    }
    return true;
  }

  // ---------------------------------------------------------------------
  // List 2: separated siblings share the level of their target

  predicate List2LevelsOk(t: Tree, tr: Traversal)
    requires WellFormed(t, tr)
  {
    forall i :: 0 <= i < |tr.targetOrTargetParentBoxes| ==>
      AllAtLevel(t, Entries(t, tr.fromSepSiblings, |tr.targetOrTargetParentBoxes|, i), t.levels[tr.targetOrTargetParentBoxes[i]])
  }

  /** The loop over target-or-target-parent boxes comparing the levels of
      their List 2 with their own, all at once per box. */
  method CheckList2Levels(t: Tree, tr: Traversal) returns (ok: bool)
    requires WellFormed(t, tr)
    ensures ok <==> List2LevelsOk(t, tr)
  {
    for itgt := 0 to |tr.targetOrTargetParentBoxes|
      invariant forall i :: 0 <= i < itgt ==>
        AllAtLevel(t, Entries(t, tr.fromSepSiblings, |tr.targetOrTargetParentBoxes|, i), t.levels[tr.targetOrTargetParentBoxes[i]])
    {
      var tgtBox := tr.targetOrTargetParentBoxes[itgt];
      var seps := Entries(t, tr.fromSepSiblings, |tr.targetOrTargetParentBoxes|, itgt);
      if !AllAtLevel(t, seps, t.levels[tgtBox]) {
        return false;
      }
    }
    return true;
  }

  // ---------------------------------------------------------------------
  // List 3: strictly finer than the target; List 4: strictly coarser

  predicate AllFiner(t: Tree, boxes: seq<int>, lev: int)
    requires AllBoxes(t, boxes)
  {
    forall k :: 0 <= k < |boxes| ==> lev < t.levels[boxes[k]]
  }

  predicate AllCoarser(t: Tree, boxes: seq<int>, lev: int)
    requires AllBoxes(t, boxes)
  {
    forall k :: 0 <= k < |boxes| ==> t.levels[boxes[k]] < lev
  }

  /** The part of List 3 held by per-level structure `l` for the `i`-th
      target box lies strictly below that box's level. */
  predicate List3EntryOk(t: Tree, tr: Traversal, i: int, l: int)
    requires WellFormed(t, tr)
    requires 0 <= i < |tr.targetBoxes| && 0 <= l < |tr.fromSepSmallerByLevel|
  {
    AllFiner(t, Entries(t, tr.fromSepSmallerByLevel[l], |tr.targetBoxes|, i), t.levels[tr.targetBoxes[i]])
  }

  predicate List3LevelsOk(t: Tree, tr: Traversal)
    requires WellFormed(t, tr)
  {
    forall i, l :: 0 <= i < |tr.targetBoxes| && 0 <= l < |tr.fromSepSmallerByLevel| ==>
      List3EntryOk(t, tr, i, l)
  }

  /** The loops over target boxes, per-level structures and entries. */
  method CheckList3Levels(t: Tree, tr: Traversal) returns (ok: bool)
    requires WellFormed(t, tr)
    ensures ok <==> List3LevelsOk(t, tr)
  {
    for itgt := 0 to |tr.targetBoxes|
      invariant forall i, l :: 0 <= i < itgt && 0 <= l < |tr.fromSepSmallerByLevel| ==>
        List3EntryOk(t, tr, i, l)
    {
      var ibox := tr.targetBoxes[itgt];
      for l := 0 to |tr.fromSepSmallerByLevel|
        invariant forall l' :: 0 <= l' < l ==> List3EntryOk(t, tr, itgt, l')
      {
        var entries := Entries(t, tr.fromSepSmallerByLevel[l], |tr.targetBoxes|, itgt);
        for k := 0 to |entries|
          invariant forall k' :: 0 <= k' < k ==> t.levels[ibox] < t.levels[entries[k']]
        {
          if !(t.levels[ibox] < t.levels[entries[k]]) {
            assert !List3EntryOk(t, tr, itgt, l);
            return false;
          }
        }
      }
    }
    return true;
  }

  /** List 4 of the `i`-th target-or-target-parent box lies strictly above
      that box's level. */
  predicate List4EntryOk(t: Tree, tr: Traversal, i: int)
    requires WellFormed(t, tr) && 0 <= i < |tr.targetOrTargetParentBoxes|
  {
    AllCoarser(t, Entries(t, tr.fromSepBigger, |tr.targetOrTargetParentBoxes|, i), t.levels[tr.targetOrTargetParentBoxes[i]])
  }

  predicate List4LevelsOk(t: Tree, tr: Traversal)
    requires WellFormed(t, tr)
  {
    forall i :: 0 <= i < |tr.targetOrTargetParentBoxes| ==> List4EntryOk(t, tr, i)
  }

  /** The loops over target-or-target-parent boxes and their List 4. */
  method CheckList4Levels(t: Tree, tr: Traversal) returns (ok: bool)
    requires WellFormed(t, tr)
    ensures ok <==> List4LevelsOk(t, tr)
  {
    for itgt := 0 to |tr.targetOrTargetParentBoxes|
      invariant forall i :: 0 <= i < itgt ==> List4EntryOk(t, tr, i)
    {
      var tgtBox := tr.targetOrTargetParentBoxes[itgt];
      var entries := Entries(t, tr.fromSepBigger, |tr.targetOrTargetParentBoxes|, itgt);
      for k := 0 to |entries|
        invariant forall k' :: 0 <= k' < k ==> t.levels[entries[k']] < t.levels[tgtBox]
      {
        if !(t.levels[tgtBox] > t.levels[entries[k]]) {
          assert !List4EntryOk(t, tr, itgt);
          return false;
        }
      }
    }
    return true;
  }

  // ---------------------------------------------------------------------
  // Level-start tables delimit runs of one level each

  /** Each of the first `nlevels` runs of `c` holds boxes of its own level
      only: run `lev` is `c.lists[c.starts[lev]..c.starts[lev + 1]]`. */
  predicate RunsAtLevel(t: Tree, c: CompressedList, nlevels: nat)
    requires ListFamilyOk(t, c, nlevels)
  {
    forall lev :: 0 <= lev < nlevels ==> AllAtLevel(t, Entries(t, c, nlevels, lev), lev)
  }

  /** Runs that each hold one level, in level order, leave the part of the
      array they cover sorted by level (and that part lies inside the
      array). */
  lemma RunsAreLevelSorted(t: Tree, c: CompressedList, nlevels: nat, p: int, p': int)
    requires ListFamilyOk(t, c, nlevels) && RunsAtLevel(t, c, nlevels)
    requires 0 < nlevels && c.starts[0] <= p <= p' < c.starts[nlevels]
    ensures 0 <= p && p' < |c.lists| && t.levels[c.lists[p]] <= t.levels[c.lists[p']]
  {
    // the first and last runs exist, so p and p' index the array
    assert Indexable(c, 0) && Indexable(c, nlevels - 1);
    var lev := SliceContaining(c, nlevels, nlevels, p);
    var lev' := SliceContaining(c, nlevels, nlevels, p');
    if lev' < lev {
      StartsMonotone(c, nlevels, lev' + 1, lev);
    }
    assert AllAtLevel(t, Entries(t, c, nlevels, lev), lev);
    assert Entries(t, c, nlevels, lev)[p - c.starts[lev]] == c.lists[p];
    assert AllAtLevel(t, Entries(t, c, nlevels, lev'), lev');
    assert Entries(t, c, nlevels, lev')[p' - c.starts[lev']] == c.lists[p'];
  }

  predicate LevelStartsOk(t: Tree, tr: Traversal)
    requires WellFormed(t, tr)
  {
    forall q :: 0 <= q < |LevelStartTables(tr)| ==> RunsAtLevel(t, LevelStartTables(tr)[q], t.nlevels)
  }

  /** The loop over the levels of one table, comparing each run's box levels
      with the level all at once. */
  method CheckLevelRuns(t: Tree, c: CompressedList, nlevels: nat) returns (ok: bool)
    requires ListFamilyOk(t, c, nlevels)
    ensures ok <==> RunsAtLevel(t, c, nlevels)
  {
    for lev := 0 to nlevels
      invariant forall lev' :: 0 <= lev' < lev ==> AllAtLevel(t, Entries(t, c, nlevels, lev'), lev')
    {
      var boxNrs := Entries(t, c, nlevels, lev);
      if !AllAtLevel(t, boxNrs, lev) {
        return false;
      }
    }
    return true;
  }

  /** The loop over the four (table, array) pairs. */
  method CheckLevelStarts(t: Tree, tr: Traversal) returns (ok: bool)
    requires WellFormed(t, tr)
    ensures ok <==> LevelStartsOk(t, tr)
  {
    var tables := LevelStartTables(tr);
    for q := 0 to |tables|
      invariant forall q' :: 0 <= q' < q ==> RunsAtLevel(t, tables[q'], t.nlevels)
    {
      ok := CheckLevelRuns(t, tables[q], t.nlevels);
      if !ok {
        return false;
      }
    }
    return true;
  }
}
