/** The starts/lists layout in which the traversal stores its interaction
    lists: the entries of indexed element `i` are `lists[starts[i]..starts[i+1]]`.
    A level-start table over a level-sorted box-id array has the same shape,
    with levels as the indexed elements. */
module CompressedLists {

  datatype CompressedList = CompressedList(starts: seq<int>, lists: seq<int>)

  /** `starts[i..i+2]` exists and delimits a slice of `lists`. */
  predicate Indexable(c: CompressedList, i: int) {
    0 <= i && i + 1 < |c.starts| && 0 <= c.starts[i] <= c.starts[i + 1] <= |c.lists|
  }

  /** `c` indexes `count` elements: (at least) one more start than elements,
      each consecutive pair delimiting a slice of `lists`. */
  predicate ValidFor(c: CompressedList, count: nat) {
    |c.starts| >= count + 1 && forall i :: 0 <= i < count ==> Indexable(c, i)
  }

  /** The entries of indexed element `i`, each of which is an entry of
      `lists` at a known position. */
  function Slice(c: CompressedList, i: int): (r: seq<int>)
    requires Indexable(c, i)
    ensures |r| == c.starts[i + 1] - c.starts[i]
    ensures forall k :: 0 <= k < |r| ==> r[k] == c.lists[c.starts[i] + k]
  {
    c.lists[c.starts[i]..c.starts[i + 1]]
  }

  /** Starts never decrease, between any two of the `count + 1` positions. */
  lemma {:induction false} StartsMonotone(c: CompressedList, count: nat, a: int, b: int)
    requires ValidFor(c, count)
    requires 0 <= a <= b <= count
    ensures c.starts[a] <= c.starts[b]
    decreases b - a
  {
    if a < b {
      assert Indexable(c, a);
      StartsMonotone(c, count, a + 1, b);
    }
  }

  /** Every position of `lists` from `starts[0]` up to `starts[hi]` lies in
      the slice of exactly one of the first `hi` indexed elements; this
      returns it. */
  lemma {:induction false} SliceContaining(c: CompressedList, count: nat, hi: nat, p: int) returns (i: int)
    requires ValidFor(c, count)
    requires 0 < hi <= count
    requires c.starts[0] <= p < c.starts[hi]
    ensures 0 <= i < hi
    ensures c.starts[i] <= p < c.starts[i + 1]
    ensures forall j :: 0 <= j < hi && c.starts[j] <= p < c.starts[j + 1] ==> j == i
  {
    if c.starts[hi - 1] <= p {
      i := hi - 1;
    } else {
      i := SliceContaining(c, count, hi - 1, p);
    }
    forall j | 0 <= j < hi && c.starts[j] <= p < c.starts[j + 1]
      ensures j == i
    {
      if j < i {
        StartsMonotone(c, count, j + 1, i);
      } else if i < j {
        StartsMonotone(c, count, i + 1, j);
      }
    }
  }
}
