/** The tree's per-box integer arrays, as the connectivity test reads them
    after transferring the tree from the device: box levels, parent ids and
    child-id slots.  Box 0 is the root; since the root is nobody's child, the
    id 0 doubles as the "no child here" sentinel in the child slots. */
module BoxTree {

  /** The id stored in an unused child slot. */
  const NoChild: int := 0

  /** `levels[b]`, `parentIds[b]` and `childIds[b]` describe box `b`; the
      number of boxes is `|levels|`.  `parentIds[0]` is meaningless (the root
      has no parent).  Each row of `childIds` holds the 2^dims child slots. */
  datatype Tree = Tree(
    nlevels: nat,
    levels: seq<int>,
    parentIds: seq<int>,
    childIds: seq<seq<int>>)
  {
    function NBoxes(): nat { |levels| }
  }

  predicate IsBox(t: Tree, b: int) {
    0 <= b < |t.levels|
  }

  /** Every id in `s` names a box of `t`. */
  predicate AllBoxes(t: Tree, s: seq<int>) {
    forall k :: 0 <= k < |s| ==> IsBox(t, s[k])
  }

  /** The arrays have one entry per box and every non-root box's parent id is
      a box (the test indexes `levels` and `children` with it). */
  predicate WellFormedTree(t: Tree) {
    && |t.parentIds| == |t.levels|
    && |t.childIds| == |t.levels|
    && forall b :: 1 <= b < |t.levels| ==> IsBox(t, t.parentIds[b])
  }

  /** A leaf has the sentinel in every child slot. */
  predicate IsLeaf(t: Tree, b: int)
    requires WellFormedTree(t) && IsBox(t, b)
  {
    forall s :: 0 <= s < |t.childIds[b]| ==> t.childIds[b][s] == NoChild
  }

  /** Every box in `boxes` is a leaf. */
  predicate AllLeaves(t: Tree, boxes: seq<int>)
    requires WellFormedTree(t) && AllBoxes(t, boxes)
  {
    forall k :: 0 <= k < |boxes| ==> IsLeaf(t, boxes[k])
  }

  /** Every box in `boxes` sits on level `lev`. */
  predicate AllAtLevel(t: Tree, boxes: seq<int>, lev: int)
    requires AllBoxes(t, boxes)
  {
    forall k :: 0 <= k < |boxes| ==> t.levels[boxes[k]] == lev
  }

  /** Non-root box `b` is one level below its parent and is listed among the
      parent's children. */
  predicate ParentLinkOk(t: Tree, b: int)
    requires WellFormedTree(t) && 1 <= b < t.NBoxes()
  {
    var p := t.parentIds[b];
    t.levels[p] + 1 == t.levels[b] && b in t.childIds[p]
  }

  /** Parent and child relations and levels match up for every non-root box. */
  predicate ParentChildConsistent(t: Tree)
    requires WellFormedTree(t)
  {
    forall b :: 1 <= b < t.NBoxes() ==> ParentLinkOk(t, b)
  }

  /** The loop over boxes 1..nboxes-1 checking each parent link; box 0 is
      skipped because it has no parent. */
  method CheckParentChild(t: Tree) returns (ok: bool)
    requires WellFormedTree(t)
    ensures ok <==> ParentChildConsistent(t)
  {
    var ibox := 1;
    while ibox < t.NBoxes()
      invariant 1 <= ibox
      invariant forall b :: 1 <= b < ibox && b < t.NBoxes() ==> ParentLinkOk(t, b)
    {
      var parent := t.parentIds[ibox];
      if t.levels[parent] + 1 != t.levels[ibox] || ibox !in t.childIds[parent] {
        assert !ParentLinkOk(t, ibox);
        return false;
      }
      ibox := ibox + 1;
    }
    return true;
  }

  /** A box of minimal level, found by scanning the first `n` boxes. */
  lemma {:induction false} ShallowestAmong(t: Tree, n: nat) returns (m: int)
    requires 1 <= n <= t.NBoxes()
    ensures 0 <= m < n
    ensures forall b :: 0 <= b < n ==> t.levels[m] <= t.levels[b]
  {
    if n == 1 {
      m := 0;
    } else {
      m := ShallowestAmong(t, n - 1);
      if t.levels[n - 1] < t.levels[m] {
        m := n - 1;
      }
    }
  }

  /** When parent links are consistent the root is strictly shallower than
      every other box.  Hence no box is one level above the root, so the
      root can be nobody's child, which is what makes 0 a safe sentinel. */
  lemma RootIsShallowest(t: Tree)
    requires WellFormedTree(t) && ParentChildConsistent(t)
    requires t.NBoxes() > 0
    ensures forall b :: 1 <= b < t.NBoxes() ==> t.levels[0] < t.levels[b]
    ensures forall p :: 0 <= p < t.NBoxes() ==> t.levels[p] + 1 != t.levels[0]
  {
    var m := ShallowestAmong(t, t.NBoxes());
    forall b | 1 <= b < t.NBoxes()
      ensures t.levels[m] < t.levels[b]
    {
      assert ParentLinkOk(t, b);
    }
    // mention the minimum's level so that the fact above applies to m itself
    var lowest := t.levels[m];
    assert m == 0;
  }

  /** A parent really has a child slot in use: its non-root child's id is not
      the sentinel, so a consistent tree's parents are never leaves. */
  lemma ParentIsNotLeaf(t: Tree, b: int)
    requires WellFormedTree(t) && ParentChildConsistent(t)
    requires 1 <= b < t.NBoxes()
    ensures !IsLeaf(t, t.parentIds[b])
  {
    var p := t.parentIds[b];
    assert ParentLinkOk(t, b);
    var s :| 0 <= s < |t.childIds[p]| && t.childIds[p][s] == b;
  }
}
