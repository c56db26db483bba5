/**
 * The endpoint-targeting drivers `NewBoardWithMinEndpoints` and
 * `NewBoardWithExactEndpoints`.
 *
 * Both generate up to `maxTry` candidate boards, stop at the first one that
 * meets the target, otherwise keep the best candidate, and hand back that
 * board shuffled.  The out-parameters `cands` (every board `NewBoard`
 * produced, in order) and `k` (the index of the chosen one) make the
 * selection rule statable.
 */
module Drivers {
  import opened Dirs
  import opened Random
  import opened Boards
  import opened Reach
  import opened Generator

  datatype Option<T> = None | Some(value: T)

  /** The initial `bestDiffAbs` of the exact driver: `1<<31 - 1`. */
  const Sentinel := 0x7FFF_FFFF

  /** What `CountEndpoints` returns. */
  function Leaves(b: Board): (r: nat)
    requires WellFormed(b)
  {
    |EndpointSet(b)|
  }

  /** The endpoint count of every candidate, in order. */
  function LeafCounts(cands: seq<Board>): (ls: seq<int>)
    requires forall i :: 0 <= i < |cands| ==> WellFormed(cands[i])
    ensures |ls| == |cands|
  {
    seq(|cands|, i requires 0 <= i < |cands| => Leaves(cands[i]))
  }

  lemma LeafCountsAppend(cands: seq<Board>, c: Board)
    requires forall i :: 0 <= i < |cands| ==> WellFormed(cands[i])
    requires WellFormed(c)
    ensures LeafCounts(cands + [c]) == LeafCounts(cands) + [Leaves(c)]
  {
    var xs := cands + [c];
    assert forall i :: 0 <= i < |cands| ==> xs[i] == cands[i];
  }

  /** Every candidate is a fresh `w` by `h` board. */
  ghost predicate AllFresh(cands: seq<Board>, w: int, h: int) {
    forall i :: 0 <= i < |cands| ==> cands[i].w == w && cands[i].h == h && Generated(cands[i])
  }

  /** The returned board is the chosen candidate after a shuffle, with the same endpoints. */
  ghost predicate ShuffledFrom(b: Board, c: Board)
    requires Valid(c)
  {
    TurnedFrom(b, c) && b.w == c.w && b.h == c.h && WellFormed(b) && EndpointSet(b) == EndpointSet(c)
  }

  /** One try of either driver: a fresh board and its `CountEndpoints`. */
  method Candidate(w: int, h: int, cands: seq<Board>, r: Rand) returns (c: Board, leaf: int, r': Rand)
    requires w >= 1 && h >= 3 && AllFresh(cands, w, h)
    ensures AllFresh(cands + [c], w, h) && WellFormed(c)
    ensures leaf == Leaves(c) && LeafCounts(cands + [c]) == LeafCounts(cands) + [leaf]
  {
    c, r' := NewBoard(w, h, r);
    leaf := CountEndpoints(c);
    LeafCountsAppend(cands, c);
  }

  // ---------------------------------------------------------------------
  // NewBoardWithMinEndpoints
  // ---------------------------------------------------------------------

  /** Count `k` is the first of `ls` that is at least `want`. */
  predicate FirstAtLeast(ls: seq<int>, k: int, want: int) {
    && 0 <= k < |ls|
    && ls[k] >= want
    && forall i :: 0 <= i < k ==> ls[i] < want
  }

  /** No count reaches `want`, and `k` is the first maximum. */
  predicate FirstMost(ls: seq<int>, k: int, want: int) {
    && 0 <= k < |ls|
    && (forall i :: 0 <= i < |ls| ==> ls[i] < want && ls[i] <= ls[k])
    && forall i :: 0 <= i < k ==> ls[i] < ls[k]
  }

  /**
   * The loop of `NewBoardWithMinEndpoints`: try up to `maxTry` fresh boards,
   * stopping at the first with at least `want` endpoints (`hit`), and
   * otherwise keeping the first with the most.
   */
  method TryMin(w: int, h: int, want: int, maxTry: int, r: Rand)
    returns (hit: bool, best: Option<Board>, r': Rand, cands: seq<Board>, k: int)
    requires w >= 1 && h >= 3
    ensures AllFresh(cands, w, h)
    ensures hit ==> FirstAtLeast(LeafCounts(cands), k, want) && k == |cands| - 1 && |cands| <= maxTry
    ensures hit ==> best == Some(cands[k])
    ensures !hit ==> |cands| == (if maxTry < 0 then 0 else maxTry) && (best.Some? <==> |cands| > 0)
    ensures !hit && best.Some? ==> 0 <= k < |cands| && best.value == cands[k] && FirstMost(LeafCounts(cands), k, want)
  {
    best := None;
    var maxLeaf := -1;
    cands, k := [], 0;
    ghost var ls: seq<int> := [];
    r' := r;
    var i := 0;
    while i < maxTry
      invariant 0 <= i == |cands| && (i == 0 || i <= maxTry) && AllFresh(cands, w, h)
      invariant ls == LeafCounts(cands)
      invariant forall j :: 0 <= j < i ==> ls[j] < want
      invariant best.None? <==> i == 0
      invariant best.None? ==> maxLeaf == -1
      invariant best.Some? ==> 0 <= k < i && best.value == cands[k] && maxLeaf == ls[k]
      invariant best.Some? ==> FirstMost(ls, k, want)
    {
      var c, leaf, r1 := Candidate(w, h, cands, r');
      r' := r1;
      MinStep(ls, leaf, want, best.Some?, k, maxLeaf);
      cands, ls := cands + [c], ls + [leaf];
      if leaf >= want {
        return true, Some(c), r', cands, i;
      }
      if leaf > maxLeaf {
        best, maxLeaf, k := Some(c), leaf, i;
      }
      i := i + 1;
    }
    hit := false;
  }

  /** One try of the minimum driver keeps its selection invariant. */
  lemma MinStep(ls: seq<int>, leaf: int, want: int, hasBest: bool, k: int, maxLeaf: int)
    requires forall j :: 0 <= j < |ls| ==> ls[j] < want
    requires leaf >= 0
    requires !hasBest ==> maxLeaf == -1 && |ls| == 0
    requires hasBest ==> 0 <= k < |ls| && maxLeaf == ls[k] && FirstMost(ls, k, want)
    ensures leaf >= want ==> FirstAtLeast(ls + [leaf], |ls|, want)
    ensures leaf < want && leaf > maxLeaf ==> FirstMost(ls + [leaf], |ls|, want)
    ensures leaf < want && leaf <= maxLeaf ==> hasBest && FirstMost(ls + [leaf], k, want)
  {
    var ls' := ls + [leaf];
    assert forall j :: 0 <= j < |ls| ==> ls'[j] == ls[j];
  }

  /**
   * `NewBoardWithMinEndpoints(w, h, want, maxTry)`: the first of at most
   * `maxTry` fresh boards with at least `want` endpoints; failing that the
   * first with the most endpoints; with no tries at all a fresh board.
   */
  method NewBoardWithMinEndpoints(w: int, h: int, want: int, maxTry: int, r: Rand)
    returns (b: Board, r': Rand, cands: seq<Board>, k: int)
    requires w >= 1 && h >= 3
    ensures AllFresh(cands, w, h) && 0 <= k < |cands|
    ensures ShuffledFrom(b, cands[k])
    ensures maxTry > 0 ==>
      || (FirstAtLeast(LeafCounts(cands), k, want) && k == |cands| - 1 && |cands| <= maxTry)
      || (FirstMost(LeafCounts(cands), k, want) && |cands| == maxTry)
    ensures maxTry <= 0 ==> |cands| == 1 && k == 0
  {
    var hit, best, r1;
    hit, best, r1, cands, k := TryMin(w, h, want, maxTry, r);
    if best.Some? {
      b, r' := Shuffled(best.value, r1);
      return;
    }
    var c, r2 := NewBoard(w, h, r1);
    LeafCountsAppend(cands, c);
    cands, k := cands + [c], |cands|;
    b, r' := Shuffled(c, r2);
  }

  /** `b.Shuffle()` on a generated board, with what it keeps. */
  method Shuffled(c: Board, r: Rand) returns (b: Board, r': Rand)
    requires Valid(c)
    ensures ShuffledFrom(b, c)
    ensures r' == Skip(r, |c.grid|)
  {
    ShuffleTurnsTiles(c, r);
    ShuffleKeepsEndpoints(c, r);
    b, r' := Shuffle(c, r).0, Shuffle(c, r).1;
  }

  // ---------------------------------------------------------------------
  // NewBoardWithExactEndpoints
  // ---------------------------------------------------------------------

  /** `|leaf - exact|`. */
  function Diff(leaf: int, exact: int): (r: int) {
    if leaf - exact < 0 then exact - leaf else leaf - exact
  }

  /** Leaf count `a` is strictly preferred to `c`: closer to `exact`, or as close and larger. */
  predicate Beats(a: int, c: int, exact: int) {
    Diff(a, exact) < Diff(c, exact) || (Diff(a, exact) == Diff(c, exact) && a > c)
  }

  /** Count `k` is the first of `ls` equal to `exact`. */
  predicate FirstExact(ls: seq<int>, k: int, exact: int) {
    && 0 <= k < |ls|
    && ls[k] == exact
    && forall i :: 0 <= i < k ==> ls[i] != exact
  }

  /**
   * No candidate hits `exact`; `k` is within the sentinel distance, no
   * candidate is preferred to it, and it is preferred to every earlier one.
   */
  predicate FirstClosest(ls: seq<int>, k: int, exact: int) {
    && 0 <= k < |ls|
    && Diff(ls[k], exact) <= Sentinel
    && (forall i :: 0 <= i < |ls| ==> ls[i] != exact && !Beats(ls[i], ls[k], exact))
    && forall i :: 0 <= i < k ==> Beats(ls[k], ls[i], exact)
  }

  /** Every count misses `exact` by more than the sentinel distance. */
  predicate AllFar(ls: seq<int>, exact: int) {
    forall i :: 0 <= i < |ls| ==> Diff(ls[i], exact) > Sentinel
  }

  /**
   * The loop of `NewBoardWithExactEndpoints`: try up to `maxTry` fresh
   * boards, stopping at the first with exactly `exact` endpoints (`hit`),
   * and otherwise keeping the first closest one within the sentinel.
   */
  method TryExact(w: int, h: int, exact: int, maxTry: int, r: Rand)
    returns (hit: bool, best: Option<Board>, r': Rand, cands: seq<Board>, k: int)
    requires w >= 1 && h >= 3
    ensures AllFresh(cands, w, h)
    ensures hit ==> FirstExact(LeafCounts(cands), k, exact) && k == |cands| - 1 && |cands| <= maxTry
    ensures hit ==> best == Some(cands[k])
    ensures !hit ==> |cands| == (if maxTry < 0 then 0 else maxTry)
    ensures !hit && best.Some? ==> 0 <= k < |cands| && best.value == cands[k] && FirstClosest(LeafCounts(cands), k, exact)
    ensures !hit && best.None? ==> AllFar(LeafCounts(cands), exact)
  {
    best := None;
    var bestDiffAbs, bestLeaf := Sentinel, -1;
    cands, k := [], 0;
    ghost var ls: seq<int> := [];
    r' := r;
    var i := 0;
    while i < maxTry
      invariant 0 <= i == |cands| && (i == 0 || i <= maxTry) && AllFresh(cands, w, h)
      invariant ls == LeafCounts(cands) && forall j :: 0 <= j < i ==> ls[j] >= 0 && ls[j] != exact
      invariant best.None? ==> bestDiffAbs == Sentinel && bestLeaf == -1 && AllFar(ls, exact)
      invariant best.Some? ==> 0 <= k < i && best.value == cands[k]
      invariant best.Some? ==> bestDiffAbs == Diff(ls[k], exact) && bestLeaf == ls[k]
      invariant best.Some? ==> FirstClosest(ls, k, exact)
    {
      var c, leaf, r1 := Candidate(w, h, cands, r');
      r' := r1;
      ghost var before := ls;
      cands, ls := cands + [c], ls + [leaf];
      if leaf == exact {
        return true, Some(c), r', cands, i;
      }
      var diff := leaf - exact;
      if diff < 0 {
        diff := -diff;
      }
      ExactStep(before, leaf, exact, best.Some?, k, bestDiffAbs, bestLeaf);
      if diff < bestDiffAbs || (diff == bestDiffAbs && leaf > bestLeaf) {
        best, bestDiffAbs, bestLeaf, k := Some(c), diff, leaf, i;
      }
      i := i + 1;
    }
    hit := false;
  }

  /**
   * `NewBoardWithExactEndpoints(w, h, exact, maxTry)`: the first of at most
   * `maxTry` fresh boards with exactly `exact` endpoints; failing that the
   * first closest one, ties going to more endpoints; and a further fresh
   * board when there were no tries or every try missed by more than
   * `1<<31 - 1`.
   */
  method NewBoardWithExactEndpoints(w: int, h: int, exact: int, maxTry: int, r: Rand)
    returns (b: Board, r': Rand, cands: seq<Board>, k: int)
    requires w >= 1 && h >= 3
    ensures AllFresh(cands, w, h) && 0 <= k < |cands|
    ensures ShuffledFrom(b, cands[k])
    ensures maxTry > 0 ==>
      || (FirstExact(LeafCounts(cands), k, exact) && k == |cands| - 1 && |cands| <= maxTry)
      || (FirstClosest(LeafCounts(cands), k, exact) && |cands| == maxTry)
      || (|cands| == maxTry + 1 && k == maxTry && AllFar(LeafCounts(cands)[..maxTry], exact))
    ensures maxTry <= 0 ==> |cands| == 1 && k == 0
  {
    var hit, best, r1;
    hit, best, r1, cands, k := TryExact(w, h, exact, maxTry, r);
    if best.Some? {
      b, r' := Shuffled(best.value, r1);
      return;
    }
    ghost var ls := LeafCounts(cands);
    var c, r2 := NewBoard(w, h, r1);
    LeafCountsAppend(cands, c);
    assert (ls + [Leaves(c)])[..|cands|] == ls;
    cands, k := cands + [c], |cands|;
    b, r' := Shuffled(c, r2);
  }

  /** One try of the exact driver keeps its selection invariant. */
  lemma ExactStep(ls: seq<int>, leaf: int, exact: int, hasBest: bool, k: int, bestDiffAbs: int, bestLeaf: int)
    requires forall j :: 0 <= j < |ls| ==> ls[j] >= 0 && ls[j] != exact
    requires leaf >= 0 && leaf != exact
    requires !hasBest ==> bestDiffAbs == Sentinel && bestLeaf == -1 && AllFar(ls, exact)
    requires hasBest ==> 0 <= k < |ls| && bestDiffAbs == Diff(ls[k], exact) && bestLeaf == ls[k]
    requires hasBest ==> FirstClosest(ls, k, exact)
    ensures Diff(leaf, exact) < bestDiffAbs || (Diff(leaf, exact) == bestDiffAbs && leaf > bestLeaf) ==>
      FirstClosest(ls + [leaf], |ls|, exact)
    ensures !(Diff(leaf, exact) < bestDiffAbs || (Diff(leaf, exact) == bestDiffAbs && leaf > bestLeaf)) ==>
      if hasBest then FirstClosest(ls + [leaf], k, exact) else AllFar(ls + [leaf], exact)
  {
    var ls' := ls + [leaf];
    assert forall j :: 0 <= j < |ls| ==> ls'[j] == ls[j];
  }
}
