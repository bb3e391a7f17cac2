# boxtree connectivity invariants, in Dafny

boxtree builds an adaptive quad-/octree ("tree") over point sets and then an
FMM traversal over it: for every target box, four interaction lists
(List 1 neighbor source boxes, List 2 separated siblings, List 3 separated
smaller boxes grouped per level, List 4 separated bigger boxes), stored as
flat `starts`/`lists` integer arrays, plus per-level offset tables into the
traversal's box-id arrays. The tree and traversal builders run on OpenCL
and are not part of this model. What is modelled is the combinatorial
contract of their output, as `test_tree_connectivity` checks it over the
integer arrays:

- parent/child links and levels agree for every non-root box;
- List 1 entries are leaves (all child slots hold the sentinel 0), and a
  target box is its own neighbor when sources are targets;
- List 2 entries share their box's level, List 3 entries are strictly finer
  and List 4 entries strictly coarser;
- when sources are targets: the target-or-target-parent boxes are all boxes
  in id order, source boxes equal target boxes, and List 3 and List 4 are
  duals, checked in both directions, the second through a box-to-target-index
  map built by `fill(-1)` and a scatter;
- every level-start table delimits runs of one level each.

The arrays are inputs (`BoxTree.Tree`, `FmmTraversal.Traversal`,
`CompressedLists.CompressedList`). Each check is a predicate. Each test loop
is a method proved to return `true` exactly when its predicate holds. The
box-to-target-index map is an `array<int>` filled and scattered in place.
Lemmas relate the checks to each other: the duality as an if-and-only-if,
each level check implied by the other one plus duality, the root being
strictly the shallowest box (which makes 0 a safe sentinel), and
level-start runs leaving their array level-sorted.

Files: `box_tree.dfy` (module `BoxTree`), `compressed_lists.dfy`
(`CompressedLists`), `traversal.dfy` (`FmmTraversal`), `target_index.dfy`
(`TargetIndex`), `duality.dfy` (`Duality`), `connectivity_test.dfy`
(`ConnectivityTest`).

## Model

| member | source | states |
|---|---|---|
| `BoxTree.CheckParentChild` | test/test_traversal.py:83-88 | returns true exactly when every box 1..nboxes-1 is one level below its parent and is among the parent's child ids; box 0 is exempt |
| `BoxTree.RootIsShallowest` | test/test_traversal.py:83-88 | under consistent parent links box 0 is strictly shallower than every other box, so no box is one level above it and the root can be nobody's child |
| `BoxTree.ParentIsNotLeaf` | test/test_traversal.py:83-111 | under consistent parent links the parent of a non-root box is not a leaf (its child slot holds a non-sentinel id) |
| `FmmTraversal.CheckList1` | test/test_traversal.py:103-111 | returns true exactly when every List 1 entry of every target box is a leaf and, when sources are targets, each target box is in its own List 1 |
| `FmmTraversal.CheckList2Levels` | test/test_traversal.py:119-123 | returns true exactly when every List 2 entry has the level of the target-or-target-parent box it is listed for |
| `FmmTraversal.CheckList3Levels` | test/test_traversal.py:210-215 | returns true exactly when every entry of every per-level List 3 structure is on a strictly higher level than its target box |
| `FmmTraversal.CheckList4Levels` | test/test_traversal.py:223-227 | returns true exactly when every List 4 entry is on a strictly lower level than its target-or-target-parent box |
| `FmmTraversal.CheckLevelRuns` | test/test_traversal.py:243-248 | returns true exactly when, for one table, every box in `ref_array[start[lev]:start[lev+1]]` has level `lev`, for every level |
| `FmmTraversal.CheckLevelStarts` | test/test_traversal.py:235-248 | returns true exactly when all four level-start tables delimit runs of one level each |
| `FmmTraversal.RunsAreLevelSorted` | test/test_traversal.py:235-248 | runs of one level each, in level order, leave the covered part of the box-id array sorted by level, and that part lies inside the array |
| `TargetIndex.BoxToTargetBoxIndex` | test/test_traversal.py:158-161 | the map after fill and scatter has one entry per box, each -1 or a target index; it is -1 exactly at non-target boxes and elsewhere points back at a position holding that box |
| `TargetIndex.IndexOfDistinctTarget` | test/test_traversal.py:158-161 | with distinct target boxes, `map[target_boxes[k]] == k` for every k |
| `TargetIndex.BuildBoxToTargetIndex` | test/test_traversal.py:158-161 | the fill loop and the scatter loop leave a fresh array equal to `BoxToTargetBoxIndex` |
| `Duality.CheckList3InList4` | test/test_traversal.py:143-152 | returns true exactly when every List 3 entry `jbox` of target box `ibox`, in every per-level structure, has `ibox` in List 4 of `jbox` (List 4 read by box id) |
| `Duality.CheckList4InList3` | test/test_traversal.py:167-200 | returns true exactly when every List 4 entry `jbox` of every box `ibox` has a target index other than -1 and the OR-accumulated `good` flag finds `ibox` in some per-level List 3 at that index |
| `Duality.CheckDuality` | test/test_traversal.py:137-206 | returns true exactly when target-or-target-parent boxes are `0..nboxes-1`, List 3 is inside List 4, source boxes equal target boxes and List 4 is inside List 3 |
| `Duality.List3AndList4AreDuals` | test/test_traversal.py:143-200 | the two directions together give: `jbox` is in List 3 of `ibox` if and only if `ibox` is in List 4 of `jbox` |
| `Duality.List4EntriesAreSourceBoxes` | test/test_traversal.py:163-177 | when the sources-are-targets checks pass, every List 4 entry is a target box and hence a source box |
| `Duality.DualityGivesList3Levels` | test/test_traversal.py:143-227 | List 3 inside List 4 plus the List 4 level check imply the List 3 level check |
| `Duality.DualityGivesList4Levels` | test/test_traversal.py:167-227 | List 4 inside List 3 plus the List 3 level check imply the List 4 level check |
| `ConnectivityTest.TestTreeConnectivity` | test/test_traversal.py:51-248 | returns true exactly when all the integer-array checks hold, the duality section only when sources are targets |
| `ConnectivityTest.TargetBoxesAreLeaves` | test/test_traversal.py:103-111 | when sources are targets, a passing List 1 check makes every target box a leaf |
| `ConnectivityTest.PassingTestGivesDuals` | test/test_traversal.py:137-206 | a passing test with sources as targets makes List 3 and List 4 exact duals and every List 4 entry a source box |

## Left out

- OpenCL context, queue and device-to-host transfers (test/test_traversal.py:54-55, 73-74): accelerator plumbing; the model starts from the transferred arrays.
- `TreeBuilder` and `FMMTraversalBuilder` (test/test_traversal.py:65-72): their code is not part of this model; their output arrays are inputs, and no construction is modelled.
- Particle generation (test/test_traversal.py:59-63, 290-296): random floating-point input to the builders.
- The List 2 distance check with `la.norm` against `2.5 * 0.5 * 2**-level * root_extent` (test/test_traversal.py:125-131): floating-point geometry with a square root.
- The box-extent and bounding-box containment checks (test/test_traversal.py:252-274): float coordinates and `get_box_extent`, whose code is not part of this model.
- Plotting (test/test_traversal.py:92-99, 185-196, 281-330), logging, pytest parametrization and the `__main__` entry point (test/test_traversal.py:38-52, 338-344): UI and test-runner plumbing.
- Malformed arrays: every checker requires `FmmTraversal.WellFormed`, or the part of it that it reads (box ids name boxes, enough `starts` entries, slices within `lists`). On arrays without this shape the test behaves as Python and numpy do, and none of that is modelled: a `starts` array too short for `start, end = starts[i:i+2]` raises `ValueError` when the one-element slice is unpacked, an out-of-range box id raises `IndexError`, a negative one wraps around, and slices past the end of `lists` are clamped.
- Duality.CheckDuality: the three whole-array comparisons `(a == b).all()` (test/test_traversal.py:140, 163, 164-165) are modelled as plain sequence equality (`TargetOrTargetParentIsAllBoxes`, `SourcesAreTargetBoxes`), not with numpy broadcasting. Broadcasting stretches a length-1 array to the other's length, and against a length-0 array it gives an empty comparison that `.all()` accepts. So the test passes on some well-formed arrays of unequal length that the model rejects: `target_or_target_parent_boxes == []` or `[0, 0]` with one box, or `source_boxes == []` or `[b, b]` with `target_boxes == [b]`. `DualityOk`, and through it `ConnectivityTest.TestTreeConnectivity`, is therefore stricter than the test on those inputs. Plain equality is what the later List 4 lookups by box id (test/test_traversal.py:167-168) rely on.
- ConnectivityTest.TestTreeConnectivity: inherits the plain-equality reading of those three comparisons from `Duality.CheckDuality`, so with sources as targets it can return false where numpy broadcasting lets the test pass.
- Integer widths: box ids (`box_id_dtype`) and levels are numpy fixed-width integers; the model uses unbounded integers, which agree with them for any tree that fits in memory.
- Repeated target boxes in the scatter at test/test_traversal.py:160-161: numpy does not promise which write wins; the model writes in index order, so the last position wins.
- The second check that target-or-target-parent boxes are `0..nboxes-1` (test/test_traversal.py:164-165) repeats the one at line 140, which must already have passed, so `Duality.CheckDuality` does not repeat it.
- Assertion messages and the order in which a failing run reports: a checker returns `false` at its first failing assertion, and only the pass/fail outcome is modelled.
- FmmTraversal.CheckList1: the section heading and the log message (test/test_traversal.py:101, 113) say List 1 consists of source boxes, but the loop at lines 103-111 only checks that its entries are leaves; the model checks the same and does not state source membership.
