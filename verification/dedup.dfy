/** `filter_unique_detections`: a single left-to-right pass that keeps the
    first detection of every key `(class_id, floor(x1 / grid), floor(y1 / grid))`
    and drops every later detection with an already seen key. */
module Dedup {
  import opened Wrappers
  import opened Detections

  /** The grid size used when the caller gives none. */
  const DefaultGridSize: int := 50

  /** A detection's key: its class and the grid cell of its top-left corner. */
  type Key = (int, int, int)

  /** `math.floor(v / grid)`, with the division carried out exactly. */
  function Cell(v: real, grid: int): int
    requires grid != 0
  {
    (v / grid as real).Floor
  }

  function KeyOf(d: Detection, grid: int): Key
    requires grid != 0
  {
    (d.classId, Cell(d.x1, grid), Cell(d.y1, grid))
  }

  /** The positions `i..` that the pass keeps when it reaches position `i`
      having already seen the keys in `seen`: strictly increasing positions
      of the input, at most one per remaining input position. */
  function KeptFrom(dets: seq<Detection>, grid: int, i: nat, seen: set<Key>): (r: seq<nat>)
    requires grid != 0 && i <= |dets|
    ensures |r| <= |dets| - i
    ensures forall k :: 0 <= k < |r| ==> i <= r[k] < |dets|
    ensures forall a, b :: 0 <= a < b < |r| ==> r[a] < r[b]
    decreases |dets| - i
  {
    if i == |dets| then []
    else if KeyOf(dets[i], grid) in seen then KeptFrom(dets, grid, i + 1, seen)
    else [i] + KeptFrom(dets, grid, i + 1, seen + {KeyOf(dets[i], grid)})
  }

  /** The positions of the input that the filter keeps. */
  function KeptIndices(dets: seq<Detection>, grid: int): seq<nat>
    requires grid != 0
  {
    KeptFrom(dets, grid, 0, {})
  }

  /** The detections at the given positions, in the given order. */
  function Gather(dets: seq<Detection>, idx: seq<nat>): (r: seq<Detection>)
    requires forall k :: 0 <= k < |idx| ==> idx[k] < |dets|
    ensures |r| == |idx|
    ensures forall k :: 0 <= k < |idx| ==> r[k] == dets[idx[k]]
  {
    if |idx| == 0 then [] else [dets[idx[0]]] + Gather(dets, idx[1..])
  }

  /** Of two detections sharing a key, only the first is kept. */
  lemma SameKeyKeepsFirst(a: Detection, b: Detection, grid: int)
    requires grid != 0 && KeyOf(a, grid) == KeyOf(b, grid)
    ensures FilterUnique([a, b], grid) == [a]
  {
    var key := KeyOf(a, grid);
    assert KeptFrom([a, b], grid, 2, {key}) == [];
    assert KeptFrom([a, b], grid, 1, {key}) == [];
    assert KeptFrom([a, b], grid, 0, {}) == [0];
    assert Gather([a, b], [0]) == [a];
  }

  /** The filtered list for a non-zero grid size: an order-preserving
      subsequence of the input, so never longer than it. */
  function FilterUnique(dets: seq<Detection>, grid: int): (r: seq<Detection>)
    requires grid != 0
    ensures |r| <= |dets|
  {
    Gather(dets, KeptIndices(dets, grid))
  }

  /** Position `p` holds the first detection with its key. */
  predicate IsFirstOccurrence(dets: seq<Detection>, grid: int, p: int)
    requires grid != 0
  {
    0 <= p < |dets| && forall q :: 0 <= q < p ==> KeyOf(dets[q], grid) != KeyOf(dets[p], grid)
  }

  /** From position `i`, a position is kept exactly when its key is neither
      among the keys seen before `i` nor among the keys of `i..p`. */
  lemma {:induction false} KeptFromMembership(dets: seq<Detection>, grid: int, i: nat, seen: set<Key>, p: int)
    requires grid != 0 && i <= |dets|
    ensures p in KeptFrom(dets, grid, i, seen) <==>
      i <= p < |dets| && KeyOf(dets[p], grid) !in seen &&
      forall q :: i <= q < p ==> KeyOf(dets[q], grid) != KeyOf(dets[p], grid)
    decreases |dets| - i
  {
    if i < |dets| {
      var key := KeyOf(dets[i], grid);
      if key in seen {
        KeptFromMembership(dets, grid, i + 1, seen, p);
      } else {
        KeptFromMembership(dets, grid, i + 1, seen + {key}, p);
      }
    }
  }

  /** The filter keeps exactly the first occurrence of every key. */
  lemma KeptIndicesAreFirstOccurrences(dets: seq<Detection>, grid: int, p: int)
    requires grid != 0
    ensures p in KeptIndices(dets, grid) <==> IsFirstOccurrence(dets, grid, p)
  {
    KeptFromMembership(dets, grid, 0, {}, p);
  }

  /** The output is the input at strictly increasing positions: an
      order-preserving subsequence. */
  lemma FilterIsSubsequence(dets: seq<Detection>, grid: int)
    requires grid != 0
    ensures var idx := KeptIndices(dets, grid);
      && |FilterUnique(dets, grid)| == |idx|
      && (forall a, b :: 0 <= a < b < |idx| ==> idx[a] < idx[b])
      && forall k :: 0 <= k < |idx| ==> idx[k] < |dets| && FilterUnique(dets, grid)[k] == dets[idx[k]]
  {
  }

  /** No two detections of the output share a key. */
  lemma FilterKeysUnique(dets: seq<Detection>, grid: int)
    requires grid != 0
    ensures var r := FilterUnique(dets, grid);
      forall a, b :: 0 <= a < b < |r| ==> KeyOf(r[a], grid) != KeyOf(r[b], grid)
  {
    var idx := KeptIndices(dets, grid);
    var r := FilterUnique(dets, grid);
    forall a, b | 0 <= a < b < |r|
      ensures KeyOf(r[a], grid) != KeyOf(r[b], grid)
    {
      KeptIndicesAreFirstOccurrences(dets, grid, idx[b]);
    }
  }

  /** The first position holding the key of position `p`. */
  lemma FirstOccurrenceOf(dets: seq<Detection>, grid: int, p: int) returns (q: int)
    requires grid != 0 && 0 <= p < |dets|
    ensures q <= p && IsFirstOccurrence(dets, grid, q)
    ensures KeyOf(dets[q], grid) == KeyOf(dets[p], grid)
  {
    q := 0;
    while KeyOf(dets[q], grid) != KeyOf(dets[p], grid)
      invariant 0 <= q <= p
      invariant forall j :: 0 <= j < q ==> KeyOf(dets[j], grid) != KeyOf(dets[p], grid)
      decreases p - q
    {
      q := q + 1;
    }
  }

  /** Every key of the input is represented in the output, by the
      detection that first carried it: the `k`-th output detection. */
  lemma FilterCoversEveryKey(dets: seq<Detection>, grid: int, p: int) returns (k: int)
    requires grid != 0 && 0 <= p < |dets|
    ensures 0 <= k < |FilterUnique(dets, grid)|
    ensures KeyOf(FilterUnique(dets, grid)[k], grid) == KeyOf(dets[p], grid)
    ensures KeptIndices(dets, grid)[k] <= p && IsFirstOccurrence(dets, grid, KeptIndices(dets, grid)[k])
  {
    var q := FirstOccurrenceOf(dets, grid, p);
    KeptIndicesAreFirstOccurrences(dets, grid, q);
    var idx := KeptIndices(dets, grid);
    k :| 0 <= k < |idx| && idx[k] == q;
  }

  /** A list whose keys are pairwise distinct, and distinct from those seen,
      is kept whole from position `i` on. */
  lemma {:induction false} KeptFromDistinct(dets: seq<Detection>, grid: int, i: nat, seen: set<Key>)
    requires grid != 0 && i <= |dets|
    requires forall a, b :: i <= a < b < |dets| ==> KeyOf(dets[a], grid) != KeyOf(dets[b], grid)
    requires forall a :: i <= a < |dets| ==> KeyOf(dets[a], grid) !in seen
    ensures KeptFrom(dets, grid, i, seen) == seq(|dets| - i, k => i + k)
    decreases |dets| - i
  {
    if i < |dets| {
      var key := KeyOf(dets[i], grid);
      KeptFromDistinct(dets, grid, i + 1, seen + {key});
    }
  }

  /** Filtering a filtered list changes nothing. */
  lemma FilterIdempotent(dets: seq<Detection>, grid: int)
    requires grid != 0
    ensures FilterUnique(FilterUnique(dets, grid), grid) == FilterUnique(dets, grid)
  {
    var r := FilterUnique(dets, grid);
    FilterKeysUnique(dets, grid);
    KeptFromDistinct(r, grid, 0, {});
  }

  /** Two lists agree on every position's class, `x1` and `y1`. */
  predicate SameAnchors(a: seq<Detection>, b: seq<Detection>) {
    |a| == |b| &&
    forall i :: 0 <= i < |a| ==> a[i].classId == b[i].classId && a[i].x1 == b[i].x1 && a[i].y1 == b[i].y1
  }

  lemma {:induction false} KeptFromSameAnchors(a: seq<Detection>, b: seq<Detection>, grid: int, i: nat, seen: set<Key>)
    requires grid != 0 && i <= |a| && SameAnchors(a, b)
    ensures KeptFrom(a, grid, i, seen) == KeptFrom(b, grid, i, seen)
    decreases |a| - i
  {
    if i < |a| {
      assert KeyOf(a[i], grid) == KeyOf(b[i], grid);
      KeptFromSameAnchors(a, b, grid, i + 1, seen);
      KeptFromSameAnchors(a, b, grid, i + 1, seen + {KeyOf(a[i], grid)});
    }
  }

  /** Only `class_id`, `x1` and `y1` decide what is kept: changing `x2`,
      `y2` or the confidence anywhere keeps the same positions. */
  lemma KeptIndicesIgnoreOtherFields(a: seq<Detection>, b: seq<Detection>, grid: int)
    requires grid != 0 && SameAnchors(a, b)
    ensures KeptIndices(a, grid) == KeptIndices(b, grid)
    ensures FilterUnique(b, grid) == Gather(b, KeptIndices(a, grid))
  {
    KeptFromSameAnchors(a, b, grid, 0, {});
  }

  /** An empty list filters to an empty list, whatever the grid. */
  lemma FilterEmpty(grid: int)
    requires grid != 0
    ensures FilterUnique([], grid) == []
  {
  }

  /** One step of the pass, stated on the detections it keeps. */
  lemma GatherKeptStep(dets: seq<Detection>, grid: int, i: nat, seen: set<Key>)
    requires grid != 0 && i < |dets|
    ensures var key := KeyOf(dets[i], grid);
      Gather(dets, KeptFrom(dets, grid, i, seen)) ==
        if key in seen then Gather(dets, KeptFrom(dets, grid, i + 1, seen))
        else [dets[i]] + Gather(dets, KeptFrom(dets, grid, i + 1, seen + {key}))
  {
    var key := KeyOf(dets[i], grid);
    if key !in seen {
      var rest := KeptFrom(dets, grid, i + 1, seen + {key});
      assert ([i] + rest)[1..] == rest;
    }
  }

  /** Why the filter can fail: Python's `x1 / 0` raises. */
  datatype FilterError = ZeroDivision

  /** The loop of `filter_unique_detections` as written: a `seen` set and
      an output list grown by appending. With a zero grid size the first
      division raises, so only an empty input survives it. */
  method FilterUniqueDetections(detections: seq<Detection>, gridSize: int := DefaultGridSize) returns (res: Result<seq<Detection>, FilterError>)
    ensures gridSize != 0 ==> res == Success(FilterUnique(detections, gridSize))
    ensures gridSize == 0 ==> res == if |detections| == 0 then Success([]) else Failure(ZeroDivision)
  {
    var seen: set<Key> := {};
    var filtered: seq<Detection> := [];
    var i := 0;
    while i < |detections|
      invariant 0 <= i <= |detections|
      invariant gridSize == 0 ==> i == 0 && filtered == []
      invariant gridSize != 0 ==>
        FilterUnique(detections, gridSize) == filtered + Gather(detections, KeptFrom(detections, gridSize, i, seen))
    {
      if gridSize == 0 {
        return Failure(ZeroDivision);
      }
      var det := detections[i];
      var gridX := (det.x1 / gridSize as real).Floor;
      var gridY := (det.y1 / gridSize as real).Floor;
      var key := (det.classId, gridX, gridY);
      GatherKeptStep(detections, gridSize, i, seen);
      if key !in seen {
        var tail := Gather(detections, KeptFrom(detections, gridSize, i + 1, seen + {key}));
        assert filtered + ([det] + tail) == (filtered + [det]) + tail;
        seen := seen + {key};
        filtered := filtered + [det];
      }
      i := i + 1;
    }
    if gridSize != 0 {
      assert KeptFrom(detections, gridSize, i, seen) == [];
      assert filtered + Gather(detections, []) == filtered;
    }
    return Success(filtered);
  }
}
