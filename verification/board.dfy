/**
 * The board model: tiles, the row-major grid, the two root cells and the
 * play-time operations `Rotate`, `Shuffle`, `IsRoot`, `IsEndpoint` and
 * `CountEndpoints`.
 */
module Boards {
  import opened Dirs
  import opened Random

  /** A tile carries only its connection mask. */
  datatype Tile = Tile(conn: Dir)

  /** A grid coordinate; `y` grows downwards (`Down` is `y + 1`). */
  datatype Pos = Pos(x: int, y: int)

  /**
   * `w` by `h` tiles stored row-major, and the anchor `(rtX, rtY)` of the
   * two root cells `(rtX, rtY)` (top) and `(rtX, rtY + 1)` (bottom).
   */
  datatype Board = Board(w: int, h: int, grid: seq<Tile>, rtX: int, rtY: int)

  /**
   * The integer product `a * b`, written as repeated addition so that
   * multiplication enters a proof only through the lemmas of this module.
   */
  function Mul(a: int, b: int): (r: int)
    decreases if b < 0 then -b else b
  {
    if b == 0 then 0 else if b > 0 then Mul(a, b - 1) + a else Mul(a, b + 1) - a
  }

  /** `idx`: the row-major index `y * w + x` of a coordinate. */
  function Idx(w: int, p: Pos): (r: int) {
    Mul(p.y, w) + p.x
  }

  /** `in`: the coordinate lies on a `w` by `h` grid. */
  predicate In(p: Pos, w: int, h: int) {
    0 <= p.x < w && 0 <= p.y < h
  }

  /** The coordinate stored at row-major index `i`. */
  function PosOf(w: int, i: int): (r: Pos)
    requires w > 0
  {
    Pos(i % w, i / w)
  }

  /** `step`: the neighbouring coordinate in direction `d`; any other value steps Right. */
  function Step(p: Pos, d: Dir): (r: Pos) {
    if d == Up then Pos(p.x, p.y - 1)
    else if d == Down then Pos(p.x, p.y + 1)
    else if d == Left then Pos(p.x - 1, p.y)
    else Pos(p.x + 1, p.y)
  }

  predicate WellFormed(b: Board) {
    b.w >= 1 && b.h >= 1 && |b.grid| == Mul(b.w, b.h)
  }

  function TopRoot(b: Board): (r: Pos) {
    Pos(b.rtX, b.rtY)
  }

  function BottomRoot(b: Board): (r: Pos) {
    Pos(b.rtX, b.rtY + 1)
  }

  predicate RootsIn(b: Board) {
    In(TopRoot(b), b.w, b.h) && In(BottomRoot(b), b.w, b.h)
  }

  predicate AllMasks(b: Board) {
    forall i :: 0 <= i < |b.grid| ==> IsMask(b.grid[i].conn)
  }

  /** A board as `NewBoard` lays it out: roots at `(w/2, h/2)` and `(w/2, h/2 + 1)`, both on the grid. */
  predicate Valid(b: Board) {
    WellFormed(b) && b.rtX == b.w / 2 && b.rtY == b.h / 2 && RootsIn(b) && AllMasks(b)
  }

  // ---------------------------------------------------------------------
  // Row-major indexing
  // ---------------------------------------------------------------------

  lemma {:induction false} MulIsProduct(a: int, b: int)
    ensures Mul(a, b) == a * b
    decreases if b < 0 then -b else b
  {
    if b > 0 {
      MulIsProduct(a, b - 1);
    } else if b < 0 {
      MulIsProduct(a, b + 1);
    }
  }

  /** The next row starts `w` indices further on. */
  lemma MulStep(a: int, b: int)
    ensures Mul(a + 1, b) == Mul(a, b) + b
    ensures Mul(a, b) == Mul(b, a)
  {
    MulIsProduct(a + 1, b);
    MulIsProduct(a, b);
    MulIsProduct(b, a);
  }

  lemma MulLe(a: int, b: int, c: int)
    requires a <= b && 0 <= c
    ensures a * c <= b * c
  {
  }

  lemma DivModUnique(a: int, w: int, q: int, r: int)
    requires w >= 1 && 0 <= r < w && a == q * w + r
    ensures a / w == q && a % w == r
  {
    var q' := a / w;
    if q' > q {
      MulLe(1, q' - q, w);
    } else if q' < q {
      MulLe(1, q - q', w);
    }
  }

  /** An on-grid coordinate has an index in `0..w*h-1`. */
  lemma IdxInRange(w: int, h: int, p: Pos)
    requires w >= 1 && In(p, w, h)
    ensures 0 <= Idx(w, p) < Mul(w, h)
  {
    MulIsProduct(p.y, w);
    MulIsProduct(w, h);
    MulLe(0, p.y, w);
    MulLe(p.y, h - 1, w);
    assert (h - 1) * w == h * w - w;
  }

  /** `idx` and `in` give a bijection between on-grid coordinates and `0..w*h-1`, with inverse `PosOf`. */
  lemma IdxBijection(w: int, h: int, p: Pos, i: int)
    requires w >= 1 && h >= 1
    ensures In(p, w, h) ==> 0 <= Idx(w, p) < Mul(w, h) && PosOf(w, Idx(w, p)) == p
    ensures 0 <= i < Mul(w, h) ==> In(PosOf(w, i), w, h) && Idx(w, PosOf(w, i)) == i
  {
    if In(p, w, h) {
      PosOfIdx(w, h, p);
    }
    if 0 <= i < Mul(w, h) {
      IdxOfPos(w, h, i);
    }
  }

  lemma PosOfIdx(w: int, h: int, p: Pos)
    requires w >= 1 && In(p, w, h)
    ensures 0 <= Idx(w, p) < Mul(w, h) && PosOf(w, Idx(w, p)) == p
  {
    IdxInRange(w, h, p);
    MulIsProduct(p.y, w);
    DivModUnique(Idx(w, p), w, p.y, p.x);
  }

  lemma IdxOfPos(w: int, h: int, i: int)
    requires w >= 1 && h >= 1 && 0 <= i < Mul(w, h)
    ensures In(PosOf(w, i), w, h) && Idx(w, PosOf(w, i)) == i
  {
    var y, x := i / w, i % w;
    assert i == y * w + x;
    MulIsProduct(y, w);
    MulIsProduct(w, h);
    RowInRange(w, h, i, y, x);
  }

  /** The quotient of an index below `w * h` is a row of the grid. */
  lemma RowInRange(w: int, h: int, i: int, y: int, x: int)
    requires w >= 1 && 0 <= x < w && i == y * w + x && 0 <= i < w * h
    ensures 0 <= y < h
  {
    if y >= h {
      MulLe(h, y, w);
    } else if y < 0 {
      MulLe(y, -1, w);
    }
  }

  /** Distinct on-grid coordinates have distinct indices. */
  lemma IdxInjective(w: int, h: int, p: Pos, q: Pos)
    requires w >= 1 && h >= 1 && In(p, w, h) && In(q, w, h)
    ensures Idx(w, p) == Idx(w, q) <==> p == q
  {
    IdxBijection(w, h, p, 0);
    IdxBijection(w, h, q, 0);
  }

  /** The element of a per-cell sequence `s` (grid, visited or seen flags) at `p`. */
  function At<T>(b: Board, s: seq<T>, p: Pos): (r: T)
    requires WellFormed(b) && |s| == |b.grid| && In(p, b.w, b.h)
  {
    IdxInRange(b.w, b.h, p);
    s[Idx(b.w, p)]
  }

  /** Number of set flags: the visited cells of the generator, the seen cells of the search. */
  function Visited(v: seq<bool>): (r: nat) {
    Count(v, |v|)
  }

  /** Number of set flags among the first `n`. */
  function Count(v: seq<bool>, n: int): (r: nat)
    requires 0 <= n <= |v|
  {
    if n == 0 then 0 else Count(v, n - 1) + (if v[n - 1] then 1 else 0)
  }

  lemma {:induction false} CountBound(v: seq<bool>, n: int)
    requires 0 <= n <= |v|
    ensures Count(v, n) <= n
  {
    if n > 0 {
      CountBound(v, n - 1);
    }
  }

  lemma {:induction false} CountNone(v: seq<bool>, n: int)
    requires 0 <= n <= |v| && forall i :: 0 <= i < |v| ==> !v[i]
    ensures Count(v, n) == 0
  {
    if n > 0 {
      CountNone(v, n - 1);
    }
  }

  /** Setting clear flag `i` counts it in every prefix that covers it. */
  lemma {:induction false} CountSet(v: seq<bool>, i: int, n: int)
    requires 0 <= i < |v| && !v[i] && 0 <= n <= |v|
    ensures Count(v[i := true], n) == Count(v, n) + (if i < n then 1 else 0)
  {
    if n > 0 {
      CountSet(v, i, n - 1);
    }
  }

  /** The connection mask at `p`. */
  function Cell(b: Board, p: Pos): (r: Dir)
    requires WellFormed(b) && In(p, b.w, b.h)
  {
    At(b, b.grid, p).conn
  }

  /** `hasConn`. */
  predicate HasConn(b: Board, p: Pos, d: Dir)
    requires WellFormed(b) && In(p, b.w, b.h)
  {
    Cell(b, p) & d != 0
  }

  /** `setConn`: or the direction bit into the mask at `p`. */
  function SetConn(b: Board, p: Pos, d: Dir): (r: Board)
    requires WellFormed(b) && In(p, b.w, b.h)
    ensures WellFormed(r) && r.w == b.w && r.h == b.h && r.rtX == b.rtX && r.rtY == b.rtY
    ensures 0 <= Idx(b.w, p) < |b.grid| && r.grid == b.grid[Idx(b.w, p) := Tile(Cell(b, p) | d)]
    ensures Cell(r, p) == Cell(b, p) | d
    ensures forall q :: In(q, b.w, b.h) && q != p ==> Cell(r, q) == Cell(b, q)
  {
    IdxInRange(b.w, b.h, p);
    UpdateOthers(b, p, Tile(Cell(b, p) | d));
    b.(grid := b.grid[Idx(b.w, p) := Tile(Cell(b, p) | d)])
  }

  /** Replacing the tile at `p` leaves every other cell as it was. */
  lemma UpdateOthers(b: Board, p: Pos, t: Tile)
    requires WellFormed(b) && In(p, b.w, b.h)
    ensures 0 <= Idx(b.w, p) < |b.grid|
    ensures forall q :: In(q, b.w, b.h) && q != p ==>
      Cell(b.(grid := b.grid[Idx(b.w, p) := t]), q) == Cell(b, q)
  {
    IdxInRange(b.w, b.h, p);
    var r := b.(grid := b.grid[Idx(b.w, p) := t]);
    forall q | In(q, b.w, b.h) && q != p
      ensures Cell(r, q) == Cell(b, q)
    {
      IdxInjective(b.w, b.h, p, q);
      IdxInRange(b.w, b.h, q);
      assert Cell(r, q) == r.grid[Idx(b.w, q)].conn;
    }
  }

  /** Stepping in direction `d` and then in the opposite direction returns to the start. */
  lemma StepOpposite(p: Pos, d: Dir)
    requires IsDir(d)
    ensures IsDir(Opposite(d))
    ensures Step(Step(p, d), Opposite(d)) == p
    ensures Step(p, d) != p
  {
  }

  // ---------------------------------------------------------------------
  // Rotate and Shuffle
  // ---------------------------------------------------------------------

  /**
   * `Rotate(x, y)`: a clockwise quarter turn of the tile at index `idx(W, x, y)`.
   * The Go code only needs that index to lie inside the grid.
   */
  function Rotate(b: Board, p: Pos): (r: Board)
    requires 0 <= Idx(b.w, p) < |b.grid|
    ensures r.w == b.w && r.h == b.h && r.rtX == b.rtX && r.rtY == b.rtY && |r.grid| == |b.grid|
    ensures r.grid[Idx(b.w, p)].conn == RotateConn(b.grid[Idx(b.w, p)].conn)
    ensures IsMask(r.grid[Idx(b.w, p)].conn)
    ensures forall i :: 0 <= i < |b.grid| && i != Idx(b.w, p) ==> r.grid[i] == b.grid[i]
  {
    var i := Idx(b.w, p);
    b.(grid := b.grid[i := Tile(RotateConn(b.grid[i].conn))])
  }

  /** `n` successive `Rotate` calls on the same tile. */
  function RotateTimes(b: Board, p: Pos, n: nat): (r: Board)
    requires 0 <= Idx(b.w, p) < |b.grid|
    ensures r.w == b.w && |r.grid| == |b.grid|
  {
    if n == 0 then b else Rotate(RotateTimes(b, p, n - 1), p)
  }

  /** `n` rotations turn the tile `n` quarter turns and leave the rest of the board alone. */
  lemma {:induction false} RotateTimesTurns(b: Board, p: Pos, n: nat)
    requires 0 <= Idx(b.w, p) < |b.grid|
    ensures RotateTimes(b, p, n).grid[Idx(b.w, p)].conn == Turns(b.grid[Idx(b.w, p)].conn, n)
    ensures RotateTimes(b, p, n) == b.(grid := RotateTimes(b, p, n).grid)
    ensures forall i :: 0 <= i < |b.grid| && i != Idx(b.w, p) ==> RotateTimes(b, p, n).grid[i] == b.grid[i]
  {
    if n > 0 {
      RotateTimesTurns(b, p, n - 1);
    }
  }

  /** Four `Rotate` calls on a tile restore the board. */
  lemma FourRotationsRestore(b: Board, p: Pos)
    requires 0 <= Idx(b.w, p) < |b.grid| && IsMask(b.grid[Idx(b.w, p)].conn)
    ensures RotateTimes(b, p, 4) == b
  {
    var r := RotateTimes(b, p, 4);
    RotateTimesTurns(b, p, 4);
    FourTurnsIdentity(b.grid[Idx(b.w, p)].conn);
    assert r.grid == b.grid;
  }

  /** The rotation `Shuffle` draws for tile `i` (`rand.Intn(4)`, one draw per tile in grid order). */
  function ShuffleDraw(r: Rand, i: nat): (res: int) {
    Peek(r, i) % 4
  }

  /** `Shuffle`: every tile independently turned by its own draw `r` in `0..3`. */
  function Shuffle(b: Board, r: Rand): (res: (Board, Rand))
  {
    var g := seq(|b.grid|, i requires 0 <= i < |b.grid| => Tile(RotateConnBy(b.grid[i].conn, ShuffleDraw(r, i))));
    (b.(grid := g), Skip(r, |b.grid|))
  }

  /** `s` is `b` with some tiles turned by whole quarter turns. */
  ghost predicate TurnedFrom(s: Board, b: Board) {
    && s.w == b.w && s.h == b.h && s.rtX == b.rtX && s.rtY == b.rtY && |s.grid| == |b.grid|
    && forall i :: 0 <= i < |b.grid| ==> Turned(b.grid[i].conn, s.grid[i].conn)
  }

  /** `Shuffle` turns each tile by its draw, which is the same as that many `Rotate` quarter turns. */
  lemma ShuffleTurnsTiles(b: Board, r: Rand)
    requires AllMasks(b)
    ensures forall i :: 0 <= i < |b.grid| ==>
      Shuffle(b, r).0.grid[i].conn == Turns(b.grid[i].conn, ShuffleDraw(r, i))
    ensures TurnedFrom(Shuffle(b, r).0, b)
    ensures Shuffle(b, r).1 == Skip(r, |b.grid|)
  {
    var s := Shuffle(b, r).0;
    forall i | 0 <= i < |b.grid|
      ensures s.grid[i].conn == Turns(b.grid[i].conn, ShuffleDraw(r, i))
      ensures Turned(b.grid[i].conn, s.grid[i].conn)
    {
      RotateByIsTurns(b.grid[i].conn, ShuffleDraw(r, i));
    }
  }

  /** Turning each shuffled tile a further `4 - r` quarter turns restores the board before `Shuffle`. */
  lemma ShuffleRoundTrip(b: Board, r: Rand)
    requires AllMasks(b)
    ensures forall i :: 0 <= i < |b.grid| ==>
      Turns(Shuffle(b, r).0.grid[i].conn, 4 - ShuffleDraw(r, i)) == b.grid[i].conn
  {
    forall i | 0 <= i < |b.grid|
      ensures Turns(Shuffle(b, r).0.grid[i].conn, 4 - ShuffleDraw(r, i)) == b.grid[i].conn
    {
      RotateByUndo(b.grid[i].conn, ShuffleDraw(r, i));
    }
  }

  // ---------------------------------------------------------------------
  // Roots and endpoints
  // ---------------------------------------------------------------------

  /** `IsRoot`. */
  predicate IsRoot(b: Board, p: Pos) {
    p.x == b.rtX && (p.y == b.rtY || p.y == b.rtY + 1)
  }

  /**
   * The root cells are the two vertically adjacent cells at `(w/2, h/2)` and
   * `(w/2, h/2 + 1)`; the lower one is on the grid exactly when `h >= 3`.
   */
  lemma RootCells(b: Board, p: Pos)
    requires b.w >= 1 && b.h >= 1 && b.rtX == b.w / 2 && b.rtY == b.h / 2
    ensures IsRoot(b, p) <==> p == TopRoot(b) || p == BottomRoot(b)
    ensures TopRoot(b) != BottomRoot(b) && Step(TopRoot(b), Down) == BottomRoot(b)
    ensures In(TopRoot(b), b.w, b.h)
    ensures In(BottomRoot(b), b.w, b.h) <==> b.h >= 3
  {
  }

  /** `IsEndpoint`: a non-root tile with exactly one wire. */
  predicate IsEndpoint(b: Board, p: Pos)
    requires 0 <= Idx(b.w, p) < |b.grid|
  {
    !IsRoot(b, p) && PopCount(b.grid[Idx(b.w, p)].conn) == 1
  }

  /** An endpoint is a non-root tile whose mask is a single direction. */
  lemma EndpointIsSingleDirection(b: Board, p: Pos)
    requires WellFormed(b) && AllMasks(b) && In(p, b.w, b.h)
    ensures 0 <= Idx(b.w, p) < |b.grid| && (IsEndpoint(b, p) <==> !IsRoot(b, p) && IsDir(Cell(b, p)))
  {
    IdxInRange(b.w, b.h, p);
    SingleWireIsDir(Cell(b, p));
  }

  predicate EndpointAt(b: Board, i: int)
    requires WellFormed(b) && 0 <= i < |b.grid|
  {
    IdxBijection(b.w, b.h, Pos(0, 0), i);
    IsEndpoint(b, PosOf(b.w, i))
  }

  /** The indices of the endpoint tiles among the first `k` tiles. */
  function EndpointsBelow(b: Board, k: int): (r: set<int>)
    requires WellFormed(b)
  {
    set i | 0 <= i < k && i < |b.grid| && EndpointAt(b, i)
  }

  /** The indices of all endpoint tiles. */
  function EndpointSet(b: Board): (r: set<int>)
    requires WellFormed(b)
  {
    EndpointsBelow(b, |b.grid|)
  }

  lemma EndpointsBelowStep(b: Board, k: int)
    requires WellFormed(b) && 0 <= k < |b.grid|
    ensures |EndpointsBelow(b, k + 1)| == |EndpointsBelow(b, k)| + (if EndpointAt(b, k) then 1 else 0)
  {
    if EndpointAt(b, k) {
      assert EndpointsBelow(b, k + 1) == EndpointsBelow(b, k) + {k};
    } else {
      assert EndpointsBelow(b, k + 1) == EndpointsBelow(b, k);
    }
  }

  /** `CountEndpoints`: the number of endpoint tiles, scanned row by row. */
  method CountEndpoints(b: Board) returns (cnt: int)
    requires WellFormed(b)
    ensures cnt == |EndpointSet(b)|
  {
    cnt := 0;
    var y := 0;
    MulIsProduct(0, b.w);
    while y < b.h
      invariant 0 <= y <= b.h
      invariant cnt == |EndpointsBelow(b, Mul(y, b.w))|
    {
      var x := 0;
      while x < b.w
        invariant 0 <= x <= b.w
        invariant cnt == |EndpointsBelow(b, Idx(b.w, Pos(x, y)))|
      {
        var p := Pos(x, y);
        IdxBijection(b.w, b.h, p, 0);
        EndpointsBelowStep(b, Idx(b.w, p));
        if IsEndpoint(b, p) {
          cnt := cnt + 1;
        }
        x := x + 1;
      }
      MulStep(y, b.w);
      y := y + 1;
    }
    MulStep(b.h, b.w);
  }

  /** Two boards whose tiles differ only by quarter turns have the same endpoints. */
  lemma TurnedKeepsEndpoints(s: Board, b: Board)
    requires WellFormed(b) && AllMasks(b) && TurnedFrom(s, b)
    ensures WellFormed(s) && AllMasks(s)
    ensures EndpointSet(s) == EndpointSet(b)
  {
    forall i | 0 <= i < |b.grid|
      ensures IsMask(s.grid[i].conn) && PopCount(s.grid[i].conn) == PopCount(b.grid[i].conn)
    {
      TurnedPreservesPopCount(b.grid[i].conn, s.grid[i].conn);
    }
    forall i | 0 <= i < |b.grid|
      ensures EndpointAt(s, i) <==> EndpointAt(b, i)
    {
      IdxBijection(b.w, b.h, Pos(0, 0), i);
    }
  }

  /** `Rotate` does not change which tiles are endpoints, so `CountEndpoints` is unchanged. */
  lemma RotateKeepsEndpoints(b: Board, p: Pos)
    requires WellFormed(b) && AllMasks(b) && In(p, b.w, b.h)
    ensures 0 <= Idx(b.w, p) < |b.grid| && AllMasks(Rotate(b, p))
    ensures EndpointSet(Rotate(b, p)) == EndpointSet(b)
  {
    IdxInRange(b.w, b.h, p);
    var r := Rotate(b, p);
    assert r.grid[Idx(b.w, p)].conn == Turns(b.grid[Idx(b.w, p)].conn, 1);
    TurnedKeepsEndpoints(r, b);
  }

  /** `Shuffle` does not change which tiles are endpoints, so `CountEndpoints` is unchanged. */
  lemma ShuffleKeepsEndpoints(b: Board, r: Rand)
    requires WellFormed(b) && AllMasks(b)
    ensures AllMasks(Shuffle(b, r).0)
    ensures EndpointSet(Shuffle(b, r).0) == EndpointSet(b)
  {
    ShuffleTurnsTiles(b, r);
    TurnedKeepsEndpoints(Shuffle(b, r).0, b);
  }
}
