/** The integer-array part of test_tree_connectivity: every check it makes
    over the tree's and the traversal's arrays, in its order, with the
    sources-are-targets section run only in that configuration. */
module ConnectivityTest {
  import opened BoxTree
  import opened FmmTraversal
  import opened Duality

  /** What it takes for the test's integer-array assertions all to pass. */
  predicate TreeConnectivity(t: Tree, tr: Traversal, sourcesAreTargets: bool)
    requires WellFormed(t, tr)
  {
    && ParentChildConsistent(t)
    && List1Ok(t, tr, sourcesAreTargets)
    && List2LevelsOk(t, tr)
    && (sourcesAreTargets ==> DualityOk(t, tr))
    && List3LevelsOk(t, tr)
    && List4LevelsOk(t, tr)
    && LevelStartsOk(t, tr)
  }

  /** The test body, stopping at the first failing check as a failed
      assertion does. */
  method TestTreeConnectivity(t: Tree, tr: Traversal, sourcesAreTargets: bool) returns (ok: bool)
    requires WellFormed(t, tr)
    ensures ok <==> TreeConnectivity(t, tr, sourcesAreTargets)
  {
    ok := CheckParentChild(t);
    if !ok { return; }
    ok := CheckList1(t, tr, sourcesAreTargets);
    if !ok { return; }
    ok := CheckList2Levels(t, tr);
    if !ok { return; }
    if sourcesAreTargets {
      ok := CheckDuality(t, tr);
      if !ok { return; }
    }
    ok := CheckList3Levels(t, tr);
    if !ok { return; }
    ok := CheckList4Levels(t, tr);
    if !ok { return; }
    ok := CheckLevelStarts(t, tr);
  }

  /** When sources are targets, the List 1 check forces every target box to
      be a leaf: it is in its own List 1, whose entries are all leaves. */
  lemma TargetBoxesAreLeaves(t: Tree, tr: Traversal, i: int)
    requires WellFormed(t, tr) && List1Ok(t, tr, true)
    requires 0 <= i < |tr.targetBoxes|
    ensures IsLeaf(t, tr.targetBoxes[i])
  {
    assert List1EntryOk(t, tr, true, i);
    var nbl := CompressedLists.Slice(tr.neighborSourceBoxes, i);
    var k :| 0 <= k < |nbl| && nbl[k] == tr.targetBoxes[i];
  }

  /** A passing test with sources as targets leaves List 3 and List 4 exact
      duals, and every List 4 entry a source box. */
  lemma PassingTestGivesDuals(t: Tree, tr: Traversal, ibox: int, jbox: int)
    requires WellFormed(t, tr) && TreeConnectivity(t, tr, true)
    requires IsBox(t, ibox) && IsBox(t, jbox)
    ensures InList3(t, tr, ibox, jbox) <==> InList4(t, tr, jbox, ibox)
    ensures InList4(t, tr, jbox, ibox) ==> ibox in tr.sourceBoxes
  {
    List3AndList4AreDuals(t, tr, ibox, jbox);
    if InList4(t, tr, jbox, ibox) {
      List4EntriesAreSourceBoxes(t, tr, jbox, ibox);
    }
  }
}
