/** The checks that run only when sources are targets: List 3 and List 4
    are duals of each other, `targetOrTargetParentBoxes` is every box id in
    order, and `sourceBoxes` equals `targetBoxes`. */
module Duality {
  import opened BoxTree
  import opened CompressedLists
  import opened FmmTraversal
  import opened TargetIndex

  /** `targetOrTargetParentBoxes` is exactly `0, 1, ..., nboxes - 1`. */
  predicate TargetOrTargetParentIsAllBoxes(t: Tree, tr: Traversal) {
    && |tr.targetOrTargetParentBoxes| == t.NBoxes()
    && forall b :: 0 <= b < t.NBoxes() ==> tr.targetOrTargetParentBoxes[b] == b
  }

  predicate SourcesAreTargetBoxes(tr: Traversal) {
    tr.sourceBoxes == tr.targetBoxes
  }

  /** List 4 of box `b`, read by box id: once every box is a
      target-or-target-parent box, in id order, a box id is also its index. */
  function List4OfBox(t: Tree, tr: Traversal, b: int): seq<int>
    requires WellFormed(t, tr) && TargetOrTargetParentIsAllBoxes(t, tr) && IsBox(t, b)
  {
    Entries(t, tr.fromSepBigger, |tr.targetOrTargetParentBoxes|, b)
  }

  // ---------------------------------------------------------------------
  // Every List 3 entry sees its target in its own List 4

  /** Each entry `jbox` that per-level structure `l` lists for the `i`-th
      target box has that target box in List 4 of `jbox`. */
  predicate List3EntryInList4(t: Tree, tr: Traversal, i: int, l: int)
    requires WellFormed(t, tr) && TargetOrTargetParentIsAllBoxes(t, tr)
    requires 0 <= i < |tr.targetBoxes| && 0 <= l < |tr.fromSepSmallerByLevel|
  {
    var entries := Entries(t, tr.fromSepSmallerByLevel[l], |tr.targetBoxes|, i);
    forall k :: 0 <= k < |entries| ==> tr.targetBoxes[i] in List4OfBox(t, tr, entries[k])
  }

  predicate List3InList4(t: Tree, tr: Traversal)
    requires WellFormed(t, tr) && TargetOrTargetParentIsAllBoxes(t, tr)
  {
    forall i, l :: 0 <= i < |tr.targetBoxes| && 0 <= l < |tr.fromSepSmallerByLevel| ==>
      List3EntryInList4(t, tr, i, l)
  }

  /** The loops over target boxes, per-level structures and entries, looking
      each target box up in its entries' List 4. */
  method CheckList3InList4(t: Tree, tr: Traversal) returns (ok: bool)
    requires WellFormed(t, tr) && TargetOrTargetParentIsAllBoxes(t, tr)
    ensures ok <==> List3InList4(t, tr)
  {
    for itgt := 0 to |tr.targetBoxes|
      invariant forall i, l :: 0 <= i < itgt && 0 <= l < |tr.fromSepSmallerByLevel| ==>
        List3EntryInList4(t, tr, i, l)
    {
      var ibox := tr.targetBoxes[itgt];
      for l := 0 to |tr.fromSepSmallerByLevel|
        invariant forall l' :: 0 <= l' < l ==> List3EntryInList4(t, tr, itgt, l')
      {
        var entries := Entries(t, tr.fromSepSmallerByLevel[l], |tr.targetBoxes|, itgt);
        for k := 0 to |entries|
          invariant forall k' :: 0 <= k' < k ==> ibox in List4OfBox(t, tr, entries[k'])
        {
          var jbox := entries[k];
          if ibox !in List4OfBox(t, tr, jbox) {
            assert !List3EntryInList4(t, tr, itgt, l);
            return false;
          }
        }
      }
    }
    return true;
  }

  // ---------------------------------------------------------------------
  // Every List 4 entry sees the box in some List 3 of its own

  /** Per-level structure `l` lists `ibox` for the target box at index `jt`. */
  predicate InList3At(tr: Traversal, ibox: int, jt: int, l: int)
    requires 0 <= l < |tr.fromSepSmallerByLevel|
    requires Indexable(tr.fromSepSmallerByLevel[l], jt)
  {
    ibox in Slice(tr.fromSepSmallerByLevel[l], jt)
  }

  /** `jbox`, an entry of List 4 of `ibox`, is a target box, and some
      per-level structure of List 3 lists `ibox` at `jbox`'s target index. */
  predicate List4EntryInList3(t: Tree, tr: Traversal, ibox: int, jbox: int)
    requires WellFormed(t, tr) && IsBox(t, jbox)
  {
    var jt := BoxToTargetBoxIndex(t.NBoxes(), tr.targetBoxes)[jbox];
    && jt != -1
    && exists l :: 0 <= l < |tr.fromSepSmallerByLevel| && InList3At(tr, ibox, jt, l)
  }

  predicate List4OfBoxInList3(t: Tree, tr: Traversal, ibox: int)
    requires WellFormed(t, tr) && TargetOrTargetParentIsAllBoxes(t, tr) && IsBox(t, ibox)
  {
    var entries := List4OfBox(t, tr, ibox);
    forall k :: 0 <= k < |entries| ==> List4EntryInList3(t, tr, ibox, entries[k])
  }

  predicate List4InList3(t: Tree, tr: Traversal)
    requires WellFormed(t, tr) && TargetOrTargetParentIsAllBoxes(t, tr)
  {
    forall ibox :: 0 <= ibox < t.NBoxes() ==> List4OfBoxInList3(t, tr, ibox)
  }

  /** The loops over all boxes and their List 4: each entry's target index
      must not be -1, and the `good` flag ORs together, over the per-level
      structures, whether the box is in that entry's List 3. */
  method CheckList4InList3(t: Tree, tr: Traversal, boxToTargetBoxIndex: array<int>) returns (ok: bool)
    requires WellFormed(t, tr) && TargetOrTargetParentIsAllBoxes(t, tr)
    requires boxToTargetBoxIndex[..] == BoxToTargetBoxIndex(t.NBoxes(), tr.targetBoxes)
    ensures ok <==> List4InList3(t, tr)
  {
    for ibox := 0 to t.NBoxes()
      invariant forall b :: 0 <= b < ibox ==> List4OfBoxInList3(t, tr, b)
    {
      var entries := List4OfBox(t, tr, ibox);
      for k := 0 to |entries|
        invariant forall k' :: 0 <= k' < k ==> List4EntryInList3(t, tr, ibox, entries[k'])
      {
        var jbox := entries[k];
        var jtgtBox := boxToTargetBoxIndex[jbox];
        assert jtgtBox == BoxToTargetBoxIndex(t.NBoxes(), tr.targetBoxes)[jbox];
        if jtgtBox == -1 {
          assert !List4EntryInList3(t, tr, ibox, jbox);
          assert !List4OfBoxInList3(t, tr, ibox);
          return false;
        }
        var good := false;
        for l := 0 to |tr.fromSepSmallerByLevel|
          invariant good <==> exists l' :: 0 <= l' < l && InList3At(tr, ibox, jtgtBox, l')
        {
          good := good || InList3At(tr, ibox, jtgtBox, l);
        }
        if !good {
          assert !List4EntryInList3(t, tr, ibox, jbox);
          assert !List4OfBoxInList3(t, tr, ibox);
          return false;
        }
      }
    }
    return true;
  }

  // ---------------------------------------------------------------------
  // The whole sources-are-targets section

  predicate DualityOk(t: Tree, tr: Traversal)
    requires WellFormed(t, tr)
  {
    && TargetOrTargetParentIsAllBoxes(t, tr)
    && List3InList4(t, tr)
    && SourcesAreTargetBoxes(tr)
    && List4InList3(t, tr)
  }

  /** The section in the test's order: the box-range check, List 3 against
      List 4, building the box-to-target-index map, the source/target check
      and the box-range check again, then List 4 against List 3. */
  method CheckDuality(t: Tree, tr: Traversal) returns (ok: bool)
    requires WellFormed(t, tr)
    ensures ok <==> DualityOk(t, tr)
  {
    ok := TargetOrTargetParentIsAllBoxes(t, tr);
    if !ok {
      return;
    }
    ok := CheckList3InList4(t, tr);
    if !ok {
      return;
    }
    var boxToTargetBoxIndex := BuildBoxToTargetIndex(t.NBoxes(), tr.targetBoxes);
    ok := SourcesAreTargetBoxes(tr);
    if !ok {
      return;
    }
    ok := CheckList4InList3(t, tr, boxToTargetBoxIndex);
  }

  // ---------------------------------------------------------------------
  // What the two directions give together

  /** `jbox` is in List 3 of target box `ibox`, in some per-level structure,
      at some index of `ibox` among the target boxes. */
  predicate InList3(t: Tree, tr: Traversal, ibox: int, jbox: int)
    requires WellFormed(t, tr)
  {
    exists i, l :: 0 <= i < |tr.targetBoxes| && 0 <= l < |tr.fromSepSmallerByLevel| &&
      tr.targetBoxes[i] == ibox && jbox in Entries(t, tr.fromSepSmallerByLevel[l], |tr.targetBoxes|, i)
  }

  /** `jbox` is in List 4 of box `ibox`. */
  predicate InList4(t: Tree, tr: Traversal, ibox: int, jbox: int)
    requires WellFormed(t, tr) && TargetOrTargetParentIsAllBoxes(t, tr) && IsBox(t, ibox)
  {
    jbox in List4OfBox(t, tr, ibox)
  }

  /** Both directions together make List 3 and List 4 exact duals:
      `jbox` is in List 3 of `ibox` if and only if `ibox` is in List 4 of
      `jbox`. */
  lemma List3AndList4AreDuals(t: Tree, tr: Traversal, ibox: int, jbox: int)
    requires WellFormed(t, tr) && TargetOrTargetParentIsAllBoxes(t, tr)
    requires List3InList4(t, tr) && List4InList3(t, tr)
    requires IsBox(t, ibox) && IsBox(t, jbox)
    ensures InList3(t, tr, ibox, jbox) <==> InList4(t, tr, jbox, ibox)
  {
    if InList3(t, tr, ibox, jbox) {
      var i, l :| 0 <= i < |tr.targetBoxes| && 0 <= l < |tr.fromSepSmallerByLevel| &&
        tr.targetBoxes[i] == ibox && jbox in Entries(t, tr.fromSepSmallerByLevel[l], |tr.targetBoxes|, i);
      var entries := Entries(t, tr.fromSepSmallerByLevel[l], |tr.targetBoxes|, i);
      var k :| 0 <= k < |entries| && entries[k] == jbox;
      assert List3EntryInList4(t, tr, i, l);
    }
    if InList4(t, tr, jbox, ibox) {
      var entries := List4OfBox(t, tr, jbox);
      var k :| 0 <= k < |entries| && entries[k] == ibox;
      assert List4OfBoxInList3(t, tr, jbox);
      assert List4EntryInList3(t, tr, jbox, ibox);
      var jt := BoxToTargetBoxIndex(t.NBoxes(), tr.targetBoxes)[ibox];
      var l :| 0 <= l < |tr.fromSepSmallerByLevel| && InList3At(tr, jbox, jt, l);
      assert tr.targetBoxes[jt] == ibox;
    }
  }

  /** Every List 4 entry is a target box, hence (sources being targets) a
      source box, as the entries of List 4 are meant to be. */
  lemma List4EntriesAreSourceBoxes(t: Tree, tr: Traversal, ibox: int, jbox: int)
    requires WellFormed(t, tr) && DualityOk(t, tr)
    requires IsBox(t, ibox) && InList4(t, tr, ibox, jbox)
    ensures jbox in tr.targetBoxes && jbox in tr.sourceBoxes
  {
    var entries := List4OfBox(t, tr, ibox);
    var k :| 0 <= k < |entries| && entries[k] == jbox;
    assert List4OfBoxInList3(t, tr, ibox);
    assert List4EntryInList3(t, tr, ibox, jbox);
  }

  /** With List 3 inside List 4, the List 4 level check implies the List 3
      level check. */
  lemma DualityGivesList3Levels(t: Tree, tr: Traversal)
    requires WellFormed(t, tr) && TargetOrTargetParentIsAllBoxes(t, tr)
    requires List3InList4(t, tr) && List4LevelsOk(t, tr)
    ensures List3LevelsOk(t, tr)
  {
    forall i, l | 0 <= i < |tr.targetBoxes| && 0 <= l < |tr.fromSepSmallerByLevel|
      ensures List3EntryOk(t, tr, i, l)
    {
      var entries := Entries(t, tr.fromSepSmallerByLevel[l], |tr.targetBoxes|, i);
      forall k | 0 <= k < |entries|
        ensures t.levels[tr.targetBoxes[i]] < t.levels[entries[k]]
      {
        var jbox := entries[k];
        assert List3EntryInList4(t, tr, i, l);
        var bigger := Entries(t, tr.fromSepBigger, |tr.targetOrTargetParentBoxes|, jbox);
        var r :| 0 <= r < |bigger| && bigger[r] == tr.targetBoxes[i];
        assert List4EntryOk(t, tr, jbox);
      }
    }
  }

  /** With List 4 inside List 3, the List 3 level check implies the List 4
      level check. */
  lemma DualityGivesList4Levels(t: Tree, tr: Traversal)
    requires WellFormed(t, tr) && TargetOrTargetParentIsAllBoxes(t, tr)
    requires List4InList3(t, tr) && List3LevelsOk(t, tr)
    ensures List4LevelsOk(t, tr)
  {
    forall i | 0 <= i < |tr.targetOrTargetParentBoxes|
      ensures List4EntryOk(t, tr, i)
    {
      var entries := Entries(t, tr.fromSepBigger, |tr.targetOrTargetParentBoxes|, i);
      forall k | 0 <= k < |entries|
        ensures t.levels[entries[k]] < t.levels[i]
      {
        var jbox := entries[k];
        assert List4OfBoxInList3(t, tr, i);
        assert List4EntryInList3(t, tr, i, jbox);
        var jt := BoxToTargetBoxIndex(t.NBoxes(), tr.targetBoxes)[jbox];
        var l :| 0 <= l < |tr.fromSepSmallerByLevel| && InList3At(tr, i, jt, l);
        var smaller := Entries(t, tr.fromSepSmallerByLevel[l], |tr.targetBoxes|, jt);
        var r :| 0 <= r < |smaller| && smaller[r] == i;
        assert List3EntryOk(t, tr, jt, l);
      }
    }
  }
}
