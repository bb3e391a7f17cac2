/** The box-to-target-index map the duality check builds: an `nboxes`-long
    array filled with -1, into which position `k` is then written at box
    `targetBoxes[k]` for every `k` (a numpy scatter assignment, taken here to
    write in index order, so the last position of a repeated box wins). */
module TargetIndex {

  /** Every target box id is a valid position in an `nboxes`-long array. */
  predicate TargetsIn(nboxes: nat, targetBoxes: seq<int>) {
    forall k :: 0 <= k < |targetBoxes| ==> 0 <= targetBoxes[k] < nboxes
  }

  /** No box is a target twice. */
  predicate Distinct(targetBoxes: seq<int>) {
    forall k, k' :: 0 <= k < k' < |targetBoxes| ==> targetBoxes[k] != targetBoxes[k']
  }

  /** The map after the fill and the scatter.  It is a left inverse of
      `targetBoxes` wherever it is not -1, and it is -1 exactly at the boxes
      that are not targets. */
  function BoxToTargetBoxIndex(nboxes: nat, targetBoxes: seq<int>): (m: seq<int>)
    requires TargetsIn(nboxes, targetBoxes)
    ensures |m| == nboxes
    ensures forall b :: 0 <= b < nboxes ==> -1 <= m[b] < |targetBoxes|
    ensures forall b :: 0 <= b < nboxes && m[b] != -1 ==> targetBoxes[m[b]] == b
    ensures forall b :: 0 <= b < nboxes ==> (m[b] == -1 <==> b !in targetBoxes)
  {
    if |targetBoxes| == 0 then
      seq(nboxes, _ => -1)
    else
      var last := |targetBoxes| - 1;
      var before := targetBoxes[..last];
      assert targetBoxes == before + [targetBoxes[last]];
      BoxToTargetBoxIndex(nboxes, before)[targetBoxes[last] := last]
  }

  /** With distinct target boxes the map inverts `targetBoxes` exactly.  This
      follows from the map's contract: the entry at `targetBoxes[k]` is not -1
      and points back at a position holding the same box, which can only be
      `k`. */
  lemma IndexOfDistinctTarget(nboxes: nat, targetBoxes: seq<int>, k: int)
    requires TargetsIn(nboxes, targetBoxes) && Distinct(targetBoxes)
    requires 0 <= k < |targetBoxes|
    ensures BoxToTargetBoxIndex(nboxes, targetBoxes)[targetBoxes[k]] == k
  {
  }

  /** `fill(-1)` followed by the scatter of positions into a fresh array. */
  method BuildBoxToTargetIndex(nboxes: nat, targetBoxes: seq<int>) returns (m: array<int>)
    requires TargetsIn(nboxes, targetBoxes)
    ensures fresh(m)
    ensures m[..] == BoxToTargetBoxIndex(nboxes, targetBoxes)
  {
    m := new int[nboxes];
    for b := 0 to nboxes
      invariant forall b' :: 0 <= b' < b ==> m[b'] == -1
    {
      m[b] := -1;
    }
    assert targetBoxes[..0] == [];
    assert m[..] == BoxToTargetBoxIndex(nboxes, targetBoxes[..0]);
    for k := 0 to |targetBoxes|
      invariant m[..] == BoxToTargetBoxIndex(nboxes, targetBoxes[..k])
    {
      assert targetBoxes[..k + 1][..k] == targetBoxes[..k];
      m[targetBoxes[k]] := k;
    }
    assert targetBoxes[..|targetBoxes|] == targetBoxes;
  }
}
