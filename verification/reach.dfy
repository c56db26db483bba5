/**
 * Power flow: `Reachable` and `Solved`.
 *
 * A wire only conducts when both facing bits of two neighbouring tiles are
 * set.  `Connected` is the reference meaning of reachability (a walk along
 * such live edges from a root cell); `Reachable` computes it with a
 * worklist and `Solved` checks that every wired tile is reached.
 */
module Reach {
  import opened Dirs
  import opened Boards

  /** The wire leaving `p` in direction `d` is live: the neighbour is on the grid and wired back. */
  predicate Live(b: Board, p: Pos, d: Dir)
    requires WellFormed(b)
  {
    In(p, b.w, b.h) && HasConn(b, p, d) && In(Step(p, d), b.w, b.h) && HasConn(b, Step(p, d), Opposite(d))
  }

  predicate LinkedBy(b: Board, p: Pos, d: Dir, q: Pos)
    requires WellFormed(b)
  {
    Live(b, p, d) && Step(p, d) == q
  }

  /** `p` and `q` are joined by a live edge. */
  predicate Linked(b: Board, p: Pos, q: Pos)
    requires WellFormed(b)
  {
    LinkedBy(b, p, Up, q) || LinkedBy(b, p, Right, q) || LinkedBy(b, p, Down, q) || LinkedBy(b, p, Left, q)
  }

  /** A walk that starts at an on-grid root cell and follows live edges. */
  ghost predicate IsRootPath(b: Board, path: seq<Pos>)
    requires WellFormed(b)
  {
    && |path| >= 1
    && In(path[0], b.w, b.h) && IsRoot(b, path[0])
    && forall k :: 0 <= k < |path| - 1 ==> Linked(b, path[k], path[k + 1])
  }

  /** `p` receives power: some live walk leads to it from a root cell. */
  ghost predicate Connected(b: Board, p: Pos)
    requires WellFormed(b)
  {
    exists path :: IsRootPath(b, path) && path[|path| - 1] == p
  }

  /** Every wired tile receives power. */
  ghost predicate IsSolved(b: Board)
    requires WellFormed(b)
  {
    forall p {:trigger Connected(b, p)} :: In(p, b.w, b.h) && Cell(b, p) != 0 ==> Connected(b, p)
  }

  lemma RootConnected(b: Board, p: Pos)
    requires WellFormed(b) && In(p, b.w, b.h) && IsRoot(b, p)
    ensures Connected(b, p)
  {
    assert IsRootPath(b, [p]);
  }

  /** Power flows across a live edge. */
  lemma ConnectedStep(b: Board, p: Pos, d: Dir)
    requires WellFormed(b) && IsDir(d) && Connected(b, p) && Live(b, p, d)
    ensures Connected(b, Step(p, d))
  {
    var path :| IsRootPath(b, path) && path[|path| - 1] == p;
    var path' := path + [Step(p, d)];
    assert Linked(b, p, Step(p, d));
    assert IsRootPath(b, path');
  }

  /** A powered tile is a root cell or carries a wire. */
  lemma ConnectedHasWire(b: Board, p: Pos)
    requires WellFormed(b) && Connected(b, p)
    ensures In(p, b.w, b.h)
    ensures IsRoot(b, p) || Cell(b, p) != 0
  {
    var path :| IsRootPath(b, path) && path[|path| - 1] == p;
    if |path| > 1 {
      var q := path[|path| - 2];
      assert Linked(b, q, p);
    }
  }

  /** A board with no wire outside the root cells is solved. */
  lemma EmptyBoardSolved(b: Board)
    requires WellFormed(b)
    requires forall p :: In(p, b.w, b.h) && !IsRoot(b, p) ==> Cell(b, p) == 0
    ensures IsSolved(b)
  {
    forall p | In(p, b.w, b.h) && Cell(b, p) != 0
      ensures Connected(b, p)
    {
      RootConnected(b, p);
    }
  }

  // ---------------------------------------------------------------------
  // Monotonicity: adding wires never disconnects a tile
  // ---------------------------------------------------------------------

  /** `b2` has every wire of `b1`, on the same grid with the same roots. */
  ghost predicate SubBoard(b1: Board, b2: Board)
    requires WellFormed(b1) && WellFormed(b2)
  {
    && b1.w == b2.w && b1.h == b2.h && b1.rtX == b2.rtX && b1.rtY == b2.rtY
    && forall q {:trigger Cell(b2, q)} {:trigger Cell(b1, q)} :: In(q, b1.w, b1.h) ==> Cell(b1, q) & Cell(b2, q) == Cell(b1, q)
  }

  lemma LiveMono(b1: Board, b2: Board, p: Pos, d: Dir)
    requires WellFormed(b1) && WellFormed(b2) && SubBoard(b1, b2)
    ensures Live(b1, p, d) ==> Live(b2, p, d)
  {
  }

  lemma {:induction false} ConnectedMono(b1: Board, b2: Board, p: Pos)
    requires WellFormed(b1) && WellFormed(b2) && SubBoard(b1, b2)
    ensures Connected(b1, p) ==> Connected(b2, p)
  {
    if Connected(b1, p) {
      var path :| IsRootPath(b1, path) && path[|path| - 1] == p;
      forall k | 0 <= k < |path| - 1
        ensures Linked(b2, path[k], path[k + 1])
      {
        assert Linked(b1, path[k], path[k + 1]);
        LiveMono(b1, b2, path[k], Up);
        LiveMono(b1, b2, path[k], Right);
        LiveMono(b1, b2, path[k], Down);
        LiveMono(b1, b2, path[k], Left);
      }
      assert IsRootPath(b2, path);
    }
  }

  // ---------------------------------------------------------------------
  // The worklist search
  // ---------------------------------------------------------------------

  predicate ClosedAt(b: Board, seen: seq<bool>, p: Pos, d: Dir)
    requires WellFormed(b) && |seen| == |b.grid|
  {
    Live(b, p, d) ==> At(b, seen, Step(p, d))
  }

  /** Every live neighbour of `p` has been seen. */
  predicate Closed(b: Board, seen: seq<bool>, p: Pos)
    requires WellFormed(b) && |seen| == |b.grid|
  {
    ClosedAt(b, seen, p, Up) && ClosedAt(b, seen, p, Right) && ClosedAt(b, seen, p, Down) && ClosedAt(b, seen, p, Left)
  }

  /** Every seen cell receives power. */
  ghost predicate Sound(b: Board, seen: seq<bool>)
    requires WellFormed(b) && |seen| == |b.grid|
  {
    forall p {:trigger At(b, seen, p)} {:trigger Connected(b, p)} :: In(p, b.w, b.h) && At(b, seen, p) ==> Connected(b, p)
  }

  /** Every seen cell that is not still pending has had its neighbours explored. */
  ghost predicate ClosedExcept(b: Board, seen: seq<bool>, pending: seq<Pos>)
    requires WellFormed(b) && |seen| == |b.grid|
  {
    forall p {:trigger At(b, seen, p)} {:trigger Closed(b, seen, p)} :: In(p, b.w, b.h) && At(b, seen, p) && p !in pending ==> Closed(b, seen, p)
  }

  /** Number of cells not yet seen. */
  function Unseen(seen: seq<bool>): (r: nat) {
    CountBound(seen, |seen|);
    |seen| - Visited(seen)
  }

  /** Marking a powered cell keeps the search sound and its explored cells closed. */
  lemma Mark(b: Board, seen: seq<bool>, pending: seq<Pos>, n: Pos)
    requires WellFormed(b) && |seen| == |b.grid| && In(n, b.w, b.h) && !At(b, seen, n)
    requires Sound(b, seen) && ClosedExcept(b, seen, pending) && Connected(b, n)
    ensures 0 <= Idx(b.w, n) < |seen|
    ensures Sound(b, seen[Idx(b.w, n) := true])
    ensures ClosedExcept(b, seen[Idx(b.w, n) := true], pending + [n])
    ensures At(b, seen[Idx(b.w, n) := true], n)
    ensures forall q :: In(q, b.w, b.h) && At(b, seen, q) ==> At(b, seen[Idx(b.w, n) := true], q)
    ensures Unseen(seen[Idx(b.w, n) := true]) == Unseen(seen) - 1
  {
    IdxInRange(b.w, b.h, n);
    CountSet(seen, Idx(b.w, n), |seen|);
    var seen' := seen[Idx(b.w, n) := true];
    forall q | In(q, b.w, b.h)
      ensures At(b, seen', q) <==> At(b, seen, q) || q == n
    {
      IdxInjective(b.w, b.h, q, n);
      IdxInRange(b.w, b.h, q);
      assert At(b, seen', q) == seen'[Idx(b.w, q)];
    }
    forall p | In(p, b.w, b.h) && At(b, seen', p) && p !in pending + [n]
      ensures Closed(b, seen', p)
    {
      assert Closed(b, seen, p);
    }
  }

  /** A walk from a root stays inside a seen set that contains the roots and is closed. */
  lemma {:induction false} PathInside(b: Board, seen: seq<bool>, path: seq<Pos>)
    requires WellFormed(b) && |seen| == |b.grid| && RootsIn(b)
    requires At(b, seen, TopRoot(b)) && At(b, seen, BottomRoot(b))
    requires ClosedExcept(b, seen, [])
    requires IsRootPath(b, path)
    ensures In(path[|path| - 1], b.w, b.h) && At(b, seen, path[|path| - 1])
  {
    if |path| > 1 {
      var prefix := path[..|path| - 1];
      assert IsRootPath(b, prefix) by {
        forall k | 0 <= k < |prefix| - 1
          ensures Linked(b, prefix[k], prefix[k + 1])
        {
          assert prefix[k] == path[k] && prefix[k + 1] == path[k + 1];
        }
      }
      PathInside(b, seen, prefix);
      var q := path[|path| - 2];
      assert Linked(b, q, path[|path| - 1]);
      assert Closed(b, seen, q);
    }
  }

  /** The invariant of the worklist search: pending cells are seen, seen cells are powered, and the rest are explored. */
  ghost predicate SearchInv(b: Board, seen: seq<bool>, pending: seq<Pos>)
    requires WellFormed(b) && RootsIn(b)
  {
    && |seen| == |b.grid|
    && (forall q :: q in pending ==> In(q, b.w, b.h) && At(b, seen, q))
    && Sound(b, seen) && ClosedExcept(b, seen, pending)
    && At(b, seen, TopRoot(b)) && At(b, seen, BottomRoot(b))
  }

  /** Visiting the unseen far end of a live edge from the popped cell `c` marks it and pushes it. */
  lemma Visit(b: Board, seen: seq<bool>, stack: seq<Pos>, c: Pos, d: Dir)
    requires WellFormed(b) && RootsIn(b) && SearchInv(b, seen, stack + [c])
    requires IsDir(d) && Live(b, c, d) && !At(b, seen, Step(c, d))
    ensures 0 <= Idx(b.w, Step(c, d)) < |seen|
    ensures SearchInv(b, seen[Idx(b.w, Step(c, d)) := true], stack + [Step(c, d)] + [c])
    ensures forall e :: ClosedAt(b, seen, c, e) ==> ClosedAt(b, seen[Idx(b.w, Step(c, d)) := true], c, e)
    ensures ClosedAt(b, seen[Idx(b.w, Step(c, d)) := true], c, d)
    ensures Unseen(seen[Idx(b.w, Step(c, d)) := true]) == Unseen(seen) - 1
  {
    var n := Step(c, d);
    assert At(b, seen, c);
    ConnectedStep(b, c, d);
    Mark(b, seen, stack + [c], n);
    assert forall q :: q in stack + [c] + [n] <==> q in stack + [n] + [c];
  }

  /** The body of the DFS for one popped cell `c`: visit each live neighbour in `allDirs` order. */
  method Explore(b: Board, seen: seq<bool>, stack: seq<Pos>, c: Pos) returns (seen': seq<bool>, stack': seq<Pos>)
    requires WellFormed(b) && RootsIn(b) && SearchInv(b, seen, stack + [c])
    ensures SearchInv(b, seen', stack')
    ensures Closed(b, seen', c)
    ensures Unseen(seen') + |stack'| == Unseen(seen) + |stack|
  {
    seen', stack' := seen, stack;
    var k := 0;
    while k < 4
      invariant 0 <= k <= 4
      invariant SearchInv(b, seen', stack' + [c])
      invariant forall j :: 0 <= j < k ==> ClosedAt(b, seen', c, AllDirs[j])
      invariant Unseen(seen') + |stack'| == Unseen(seen) + |stack|
    {
      var d := AllDirs[k];
      if HasConn(b, c, d) {
        var n := Step(c, d);
        if In(n, b.w, b.h) && HasConn(b, n, Opposite(d)) && !At(b, seen', n) {
          Visit(b, seen', stack', c, d);
          seen' := seen'[Idx(b.w, n) := true];
          stack' := stack' + [n];
        }
      }
      k := k + 1;
    }
    assert Closed(b, seen', c) by {
      assert AllDirs[0] == Up && AllDirs[1] == Right && AllDirs[2] == Down && AllDirs[3] == Left;
    }
  }

  /** Once nothing is pending, the seen cells are exactly the powered ones. */
  lemma SearchDone(b: Board, seen: seq<bool>)
    requires WellFormed(b) && RootsIn(b) && SearchInv(b, seen, [])
    ensures forall p {:trigger At(b, seen, p)} {:trigger Connected(b, p)} :: In(p, b.w, b.h) ==> (At(b, seen, p) <==> Connected(b, p))
  {
    forall p | In(p, b.w, b.h) && Connected(b, p)
      ensures At(b, seen, p)
    {
      var path :| IsRootPath(b, path) && path[|path| - 1] == p;
      PathInside(b, seen, path);
    }
  }

  /**
   * `Reachable`: the cells that receive power, one flag per tile in
   * row-major order; always including both root cells.
   */
  method Reachable(b: Board) returns (seen: seq<bool>)
    requires WellFormed(b) && RootsIn(b)
    ensures |seen| == |b.grid|
    ensures forall p {:trigger At(b, seen, p)} {:trigger Connected(b, p)} :: In(p, b.w, b.h) ==> (At(b, seen, p) <==> Connected(b, p))
    ensures At(b, seen, TopRoot(b)) && At(b, seen, BottomRoot(b))
  {
    var stack;
    seen, stack := Start(b);
    while |stack| > 0
      invariant SearchInv(b, seen, stack)
      decreases Unseen(seen) + |stack|
    {
      ghost var before := stack;
      var c := stack[|stack| - 1];
      stack := stack[..|stack| - 1];
      assert stack + [c] == before;
      seen, stack := Explore(b, seen, stack, c);
    }
    SearchDone(b, seen);
  }

  /**
   * The two `dfs` calls from the roots, before either explores: both root
   * cells are seen and pending, and nothing else is seen.
   */
  method Start(b: Board) returns (seen: seq<bool>, stack: seq<Pos>)
    requires WellFormed(b) && RootsIn(b)
    ensures SearchInv(b, seen, stack)
    ensures stack == [TopRoot(b), BottomRoot(b)]
    ensures forall p {:trigger At(b, seen, p)} :: In(p, b.w, b.h) ==> (At(b, seen, p) <==> p == TopRoot(b) || p == BottomRoot(b))
  {
    var top, bottom := TopRoot(b), BottomRoot(b);
    seen := seq(|b.grid|, _ => false);
    forall p | In(p, b.w, b.h)
      ensures !At(b, seen, p)
    {
      IdxInRange(b.w, b.h, p);
    }
    RootConnected(b, top);
    RootConnected(b, bottom);
    Mark(b, seen, [], top);
    IdxInjective(b.w, b.h, top, bottom);
    IdxInRange(b.w, b.h, bottom);
    assert !At(b, seen, bottom);
    seen := seen[Idx(b.w, top) := true];
    Mark(b, seen, [top], bottom);
    seen := seen[Idx(b.w, bottom) := true];
    stack := [top, bottom];
    forall p | In(p, b.w, b.h)
      ensures At(b, seen, p) <==> p == top || p == bottom
    {
      IdxInRange(b.w, b.h, p);
      IdxInjective(b.w, b.h, p, top);
      IdxInjective(b.w, b.h, p, bottom);
    }
  }

  /** `Solved`: every tile with a non-zero mask receives power. */
  method Solved(b: Board) returns (ok: bool)
    requires WellFormed(b) && RootsIn(b)
    ensures ok <==> IsSolved(b)
  {
    var seen := Reachable(b);
    var i := 0;
    while i < |b.grid|
      invariant 0 <= i <= |b.grid|
      invariant forall j :: 0 <= j < i ==> b.grid[j].conn != 0 ==> seen[j]
    {
      if b.grid[i].conn != 0 && !seen[i] {
        IdxBijection(b.w, b.h, Pos(0, 0), i);
        var p := PosOf(b.w, i);
        assert Cell(b, p) != 0 && !At(b, seen, p);
        return false;
      }
      i := i + 1;
    }
    forall p | In(p, b.w, b.h) && Cell(b, p) != 0
      ensures Connected(b, p)
    {
      IdxInRange(b.w, b.h, p);
    }
    return true;
  }
}
