/**
 * Board generation: `NewBoard` and the three phases of
 * `generateEnhancedNetwork`.
 *
 * Every phase joins a visited cell to an unvisited neighbour with a pair of
 * facing wires (`Link`).  The invariant `GenInv` that all of them keep says
 * that the visited flags are exactly the wired tiles, that every wire is
 * answered by its neighbour, that every visited tile receives power, and
 * that the wires form a tree: twice as many wire bits as visited tiles
 * minus one.
 */
module Generator {
  import opened Dirs
  import opened Random
  import opened Boards
  import opened Reach

  // ---------------------------------------------------------------------
  // The generation invariant
  // ---------------------------------------------------------------------

  /** Every wire bit of `p` is answered by the neighbour it points at. */
  predicate NoStubs(b: Board, p: Pos)
    requires WellFormed(b) && In(p, b.w, b.h)
  {
    && (HasConn(b, p, Up) ==> Live(b, p, Up))
    && (HasConn(b, p, Right) ==> Live(b, p, Right))
    && (HasConn(b, p, Down) ==> Live(b, p, Down))
    && (HasConn(b, p, Left) ==> Live(b, p, Left))
  }

  /** Every link on the board is reciprocal and stays on the grid. */
  ghost predicate Reciprocal(b: Board)
    requires WellFormed(b)
  {
    forall p {:trigger NoStubs(b, p)} :: In(p, b.w, b.h) ==> NoStubs(b, p)
  }

  /** Total number of wire bits of a row of tiles. */
  function Wires(g: seq<Tile>): (r: nat) {
    if |g| == 0 then 0 else PopCount(g[0].conn) + Wires(g[1..])
  }

  /** One flag per tile: does it carry a wire? */
  function Wired(b: Board): (s: seq<bool>)
    ensures |s| == |b.grid|
  {
    seq(|b.grid|, i requires 0 <= i < |b.grid| => b.grid[i].conn != 0)
  }

  /** Number of tiles that carry a wire. */
  function WiredCount(b: Board): (r: nat) {
    Visited(Wired(b))
  }

  /** The state every generation phase keeps, for a board `b` and its visited flags `v`. */
  ghost predicate GenInv(b: Board, v: seq<bool>) {
    && Valid(b) && |v| == |b.grid|
    && (forall i :: 0 <= i < |v| ==> (v[i] <==> b.grid[i].conn != 0))
    && Reciprocal(b)
    && Sound(b, v)
    && At(b, v, TopRoot(b)) && At(b, v, BottomRoot(b))
    && Wires(b.grid) == 2 * (Visited(v) - 1)
  }

  /** `b2`, `v2` extend `b1`, `v1`: no wire removed and no visited flag cleared. */
  ghost predicate Grows(b1: Board, v1: seq<bool>, b2: Board, v2: seq<bool>)
    requires WellFormed(b1) && WellFormed(b2) && |v1| == |b1.grid| && |v2| == |b2.grid|
  {
    SubBoard(b1, b2) && forall q {:trigger At(b2, v2, q)} {:trigger At(b1, v1, q)} :: In(q, b1.w, b1.h) && At(b1, v1, q) ==> At(b2, v2, q)
  }

  /** What `NewBoard` guarantees of the board it returns. */
  ghost predicate Generated(b: Board) {
    && Valid(b)
    && Reciprocal(b)
    && IsSolved(b)
    && (forall p {:trigger Connected(b, p)} :: In(p, b.w, b.h) ==> (Connected(b, p) <==> Cell(b, p) != 0))
    && Wires(b.grid) == 2 * (WiredCount(b) - 1)
  }

  lemma {:induction false} WiresUpdate(g: seq<Tile>, i: int, t: Tile)
    requires 0 <= i < |g|
    ensures Wires(g[i := t]) == Wires(g) - PopCount(g[i].conn) + PopCount(t.conn)
  {
    if i == 0 {
      assert g[i := t][1..] == g[1..];
    } else {
      WiresUpdate(g[1..], i - 1, t);
      assert g[i := t][1..] == g[1..][i - 1 := t];
    }
  }

  /** `make([]Tile, n)`: `n` tiles without wires. */
  function Blank(n: nat): (g: seq<Tile>)
    ensures |g| == n
  {
    seq(n, _ => Tile(0))
  }

  /** `make([]bool, n)`: `n` clear flags. */
  function NoFlags(n: nat): (v: seq<bool>)
    ensures |v| == n && Visited(v) == 0
  {
    var f := seq(n, _ => false);
    CountNone(f, n);
    f
  }

  lemma {:induction false} WiresBlank(n: nat)
    ensures Wires(Blank(n)) == 0
  {
    if n > 0 {
      WiresBlank(n - 1);
      assert Blank(n)[1..] == Blank(n - 1);
    }
  }

  lemma GrowsRefl(b: Board, v: seq<bool>)
    requires WellFormed(b) && |v| == |b.grid|
    ensures Grows(b, v, b, v)
  {
  }

  lemma GrowsTrans(b1: Board, v1: seq<bool>, b2: Board, v2: seq<bool>, b3: Board, v3: seq<bool>)
    requires WellFormed(b1) && WellFormed(b2) && WellFormed(b3)
    requires |v1| == |b1.grid| && |v2| == |b2.grid| && |v3| == |b3.grid|
    requires Grows(b1, v1, b2, v2) && Grows(b2, v2, b3, v3)
    ensures Grows(b1, v1, b3, v3)
  {
    forall q | In(q, b1.w, b1.h)
      ensures Cell(b1, q) & Cell(b3, q) == Cell(b1, q)
    {
      assert Cell(b1, q) & Cell(b2, q) == Cell(b1, q);
      assert Cell(b2, q) & Cell(b3, q) == Cell(b2, q);
    }
  }

  /** Under the invariant a cell is visited exactly when its tile carries a wire. */
  lemma VisitedIffWired(b: Board, v: seq<bool>, p: Pos)
    requires GenInv(b, v) && In(p, b.w, b.h)
    ensures At(b, v, p) <==> Cell(b, p) != 0
  {
    IdxInRange(b.w, b.h, p);
  }

  // ---------------------------------------------------------------------
  // Linking a visited cell to an unvisited neighbour
  // ---------------------------------------------------------------------

  /** The two `setConn` calls that join `p` and its neighbour in direction `d`. */
  function Link(b: Board, p: Pos, d: Dir): (r: Board)
    requires WellFormed(b) && In(p, b.w, b.h) && In(Step(p, d), b.w, b.h)
    ensures WellFormed(r) && r.w == b.w && r.h == b.h && r.rtX == b.rtX && r.rtY == b.rtY
  {
    SetConn(SetConn(b, p, d), Step(p, d), Opposite(d))
  }

  lemma LinkCells(b: Board, p: Pos, d: Dir)
    requires WellFormed(b) && In(p, b.w, b.h) && IsDir(d) && In(Step(p, d), b.w, b.h)
    ensures Step(p, d) != p
    ensures 0 <= Idx(b.w, p) < |b.grid| && 0 <= Idx(b.w, Step(p, d)) < |b.grid|
    ensures Idx(b.w, p) != Idx(b.w, Step(p, d))
    ensures Link(b, p, d).grid ==
      b.grid[Idx(b.w, p) := Tile(Cell(b, p) | d)][Idx(b.w, Step(p, d)) := Tile(Cell(b, Step(p, d)) | Opposite(d))]
    ensures Cell(Link(b, p, d), p) == Cell(b, p) | d
    ensures Cell(Link(b, p, d), Step(p, d)) == Cell(b, Step(p, d)) | Opposite(d)
    ensures forall q :: In(q, b.w, b.h) && q != p && q != Step(p, d) ==> Cell(Link(b, p, d), q) == Cell(b, q)
  {
    StepOpposite(p, d);
    IdxInjective(b.w, b.h, p, Step(p, d));
    IdxInRange(b.w, b.h, p);
    IdxInRange(b.w, b.h, Step(p, d));
  }

  /** An unvisited neighbour of a visited cell is blank, and the visited cell has no wire towards it. */
  lemma OpenNeighbour(b: Board, v: seq<bool>, p: Pos, d: Dir)
    requires GenInv(b, v) && In(p, b.w, b.h) && At(b, v, p) && IsDir(d)
    requires In(Step(p, d), b.w, b.h) && !At(b, v, Step(p, d))
    ensures Cell(b, Step(p, d)) == 0 && Cell(b, p) != 0 && Cell(b, p) & d == 0
  {
    VisitedIffWired(b, v, p);
    VisitedIffWired(b, v, Step(p, d));
    assert !Live(b, p, d);
    assert NoStubs(b, p);
  }

  lemma LinkSub(b: Board, v: seq<bool>, p: Pos, d: Dir)
    requires GenInv(b, v) && In(p, b.w, b.h) && At(b, v, p) && IsDir(d)
    requires In(Step(p, d), b.w, b.h) && !At(b, v, Step(p, d))
    ensures SubBoard(b, Link(b, p, d))
    ensures Live(Link(b, p, d), p, d)
    ensures Cell(Link(b, p, d), Step(p, d)) == Opposite(d)
  {
    LinkCells(b, p, d);
    OpenNeighbour(b, v, p, d);
    StepOpposite(p, d);
  }

  /** Or-ing in a direction bit leaves the other direction bits as they were. */
  lemma OrOtherBit(c: Dir, d: Dir, e: Dir)
    requires IsDir(d) && IsDir(e) && e != d
    ensures (c | d) & e != 0 <==> c & e != 0
  {
  }

  /** A single direction meets another direction exactly when they are equal. */
  lemma SingleBit(c: Dir, e: Dir)
    requires IsDir(c) && IsDir(e)
    ensures c & e != 0 <==> c == e
  {
  }

  /** The wire of `p` in direction `e` stays answered when `p` gains the live wire `d`. */
  lemma StubAtBase(b: Board, b2: Board, p: Pos, d: Dir, e: Dir)
    requires WellFormed(b) && WellFormed(b2) && SubBoard(b, b2) && In(p, b.w, b.h)
    requires IsDir(d) && IsDir(e) && Live(b2, p, d) && Cell(b2, p) == Cell(b, p) | d
    requires HasConn(b, p, e) ==> Live(b, p, e)
    ensures HasConn(b2, p, e) ==> Live(b2, p, e)
  {
    if e != d {
      OrOtherBit(Cell(b, p), d, e);
      LiveMono(b, b2, p, e);
    }
  }

  /** The wire of a tile `q` is still answered when the tile itself is unchanged. */
  lemma StubElsewhere(b: Board, b2: Board, q: Pos)
    requires WellFormed(b) && WellFormed(b2) && SubBoard(b, b2) && In(q, b.w, b.h)
    requires NoStubs(b, q) && Cell(b2, q) == Cell(b, q)
    ensures NoStubs(b2, q)
  {
    LiveMono(b, b2, q, Up);
    LiveMono(b, b2, q, Right);
    LiveMono(b, b2, q, Down);
    LiveMono(b, b2, q, Left);
  }

  /** The new tile's only wire points back at `p` and is answered. */
  lemma StubAtNew(b2: Board, p: Pos, d: Dir)
    requires WellFormed(b2) && In(p, b2.w, b2.h) && IsDir(d) && In(Step(p, d), b2.w, b2.h)
    requires Live(b2, p, d) && Cell(b2, Step(p, d)) == Opposite(d)
    ensures NoStubs(b2, Step(p, d))
  {
    var n := Step(p, d);
    StepOpposite(p, d);
    OppositeInvolution(d);
    assert Live(b2, n, Opposite(d));
    SingleBit(Opposite(d), Up);
    SingleBit(Opposite(d), Right);
    SingleBit(Opposite(d), Down);
    SingleBit(Opposite(d), Left);
  }

  lemma LinkReciprocal(b: Board, v: seq<bool>, p: Pos, d: Dir)
    requires GenInv(b, v) && In(p, b.w, b.h) && At(b, v, p) && IsDir(d)
    requires In(Step(p, d), b.w, b.h) && !At(b, v, Step(p, d))
    ensures Reciprocal(Link(b, p, d))
  {
    var n, b2 := Step(p, d), Link(b, p, d);
    LinkCells(b, p, d);
    LinkSub(b, v, p, d);
    forall q | In(q, b.w, b.h)
      ensures NoStubs(b2, q)
    {
      assert NoStubs(b, q);
      if q == p {
        StubAtBase(b, b2, p, d, Up);
        StubAtBase(b, b2, p, d, Right);
        StubAtBase(b, b2, p, d, Down);
        StubAtBase(b, b2, p, d, Left);
      } else if q == n {
        StubAtNew(b2, p, d);
      } else {
        StubElsewhere(b, b2, q);
      }
    }
  }

  lemma LinkSound(b: Board, v: seq<bool>, p: Pos, d: Dir)
    requires GenInv(b, v) && In(p, b.w, b.h) && At(b, v, p) && IsDir(d)
    requires In(Step(p, d), b.w, b.h) && !At(b, v, Step(p, d))
    ensures 0 <= Idx(b.w, Step(p, d)) < |v|
    ensures Sound(Link(b, p, d), v[Idx(b.w, Step(p, d)) := true])
    ensures Grows(b, v, Link(b, p, d), v[Idx(b.w, Step(p, d)) := true])
    ensures At(Link(b, p, d), v[Idx(b.w, Step(p, d)) := true], Step(p, d))
    ensures At(Link(b, p, d), v[Idx(b.w, Step(p, d)) := true], TopRoot(b))
    ensures At(Link(b, p, d), v[Idx(b.w, Step(p, d)) := true], BottomRoot(b))
  {
    var n, b2 := Step(p, d), Link(b, p, d);
    LinkCells(b, p, d);
    LinkSub(b, v, p, d);
    var v2 := v[Idx(b.w, n) := true];
    ConnectedMono(b, b2, p);
    ConnectedStep(b2, p, d);
    forall q | In(q, b.w, b.h)
      ensures At(b2, v2, q) <==> At(b, v, q) || q == n
    {
      IdxInjective(b.w, b.h, q, n);
      IdxInRange(b.w, b.h, q);
      assert At(b2, v2, q) == v2[Idx(b.w, q)];
    }
    forall q | In(q, b.w, b.h) && At(b2, v2, q)
      ensures Connected(b2, q)
    {
      if q != n {
        ConnectedMono(b, b2, q);
      }
    }
  }

  /** Facts about the two updated tiles, at index level. */
  lemma LinkTiles(b: Board, v: seq<bool>, p: Pos, d: Dir)
    requires GenInv(b, v) && In(p, b.w, b.h) && At(b, v, p) && IsDir(d)
    requires In(Step(p, d), b.w, b.h) && !At(b, v, Step(p, d))
    ensures 0 <= Idx(b.w, p) < |v| && 0 <= Idx(b.w, Step(p, d)) < |v| && Idx(b.w, p) != Idx(b.w, Step(p, d))
    ensures v[Idx(b.w, p)] && !v[Idx(b.w, Step(p, d))]
    ensures b.grid[Idx(b.w, p)].conn & d == 0 && b.grid[Idx(b.w, Step(p, d))].conn == 0
    ensures Link(b, p, d).grid ==
      b.grid[Idx(b.w, p) := Tile(b.grid[Idx(b.w, p)].conn | d)][Idx(b.w, Step(p, d)) := Tile(Opposite(d))]
  {
    LinkCells(b, p, d);
    OpenNeighbour(b, v, p, d);
    assert Cell(b, p) == b.grid[Idx(b.w, p)].conn;
    assert Cell(b, Step(p, d)) == b.grid[Idx(b.w, Step(p, d))].conn;
  }

  lemma LinkWires(b: Board, v: seq<bool>, p: Pos, d: Dir)
    requires GenInv(b, v) && In(p, b.w, b.h) && At(b, v, p) && IsDir(d)
    requires In(Step(p, d), b.w, b.h) && !At(b, v, Step(p, d))
    ensures Wires(Link(b, p, d).grid) == Wires(b.grid) + 2
  {
    LinkTiles(b, v, p, d);
    var ip, iN := Idx(b.w, p), Idx(b.w, Step(p, d));
    var c := b.grid[ip].conn;
    assert IsMask(c);
    AddWire(c, d);
    AddWire(0, Opposite(d));
    StepOpposite(p, d);
    var g1 := b.grid[ip := Tile(c | d)];
    WiresUpdate(b.grid, ip, Tile(c | d));
    WiresUpdate(g1, iN, Tile(Opposite(d)));
    assert g1[iN] == b.grid[iN];
  }

  lemma LinkFlags(b: Board, v: seq<bool>, p: Pos, d: Dir)
    requires GenInv(b, v) && In(p, b.w, b.h) && At(b, v, p) && IsDir(d)
    requires In(Step(p, d), b.w, b.h) && !At(b, v, Step(p, d))
    ensures 0 <= Idx(b.w, Step(p, d)) < |v|
    ensures Valid(Link(b, p, d))
    ensures forall i :: 0 <= i < |v| ==>
      (v[Idx(b.w, Step(p, d)) := true][i] <==> Link(b, p, d).grid[i].conn != 0)
    ensures Visited(v[Idx(b.w, Step(p, d)) := true]) == Visited(v) + 1
  {
    LinkTiles(b, v, p, d);
    StepOpposite(p, d);
    var ip, iN := Idx(b.w, p), Idx(b.w, Step(p, d));
    var g2, v2 := Link(b, p, d).grid, v[iN := true];
    forall i | 0 <= i < |v|
      ensures IsMask(g2[i].conn) && (v2[i] <==> g2[i].conn != 0)
    {
      assert IsMask(b.grid[i].conn);
      if i == ip {
        assert IsMask(b.grid[ip].conn | d) && b.grid[ip].conn != 0;
      } else if i == iN {
        assert IsMask(Opposite(d)) && Opposite(d) != 0;
      }
    }
    FlagSet(v, iN);
  }

  /** Setting a clear flag counts one more visited cell. */
  lemma FlagSet(v: seq<bool>, i: int)
    requires 0 <= i < |v| && !v[i]
    ensures Visited(v[i := true]) == Visited(v) + 1
  {
    CountSet(v, i, |v|);
  }

  lemma LinkCounts(b: Board, v: seq<bool>, p: Pos, d: Dir)
    requires GenInv(b, v) && In(p, b.w, b.h) && At(b, v, p) && IsDir(d)
    requires In(Step(p, d), b.w, b.h) && !At(b, v, Step(p, d))
    ensures 0 <= Idx(b.w, Step(p, d)) < |v|
    ensures Valid(Link(b, p, d))
    ensures forall i :: 0 <= i < |v| ==>
      (v[Idx(b.w, Step(p, d)) := true][i] <==> Link(b, p, d).grid[i].conn != 0)
    ensures Visited(v[Idx(b.w, Step(p, d)) := true]) == Visited(v) + 1
    ensures Wires(Link(b, p, d).grid) == Wires(b.grid) + 2
  {
    LinkFlags(b, v, p, d);
    LinkWires(b, v, p, d);
  }

  /** Linking a visited cell to an unvisited neighbour keeps the invariant, marks the neighbour and adds one tree edge. */
  lemma LinkPreserves(b: Board, v: seq<bool>, p: Pos, d: Dir)
    requires GenInv(b, v) && In(p, b.w, b.h) && At(b, v, p) && IsDir(d)
    requires In(Step(p, d), b.w, b.h) && !At(b, v, Step(p, d))
    ensures 0 <= Idx(b.w, Step(p, d)) < |v|
    ensures GenInv(Link(b, p, d), v[Idx(b.w, Step(p, d)) := true])
    ensures Grows(b, v, Link(b, p, d), v[Idx(b.w, Step(p, d)) := true])
    ensures At(Link(b, p, d), v[Idx(b.w, Step(p, d)) := true], Step(p, d))
    ensures Visited(v[Idx(b.w, Step(p, d)) := true]) == Visited(v) + 1
  {
    LinkCounts(b, v, p, d);
    LinkSound(b, v, p, d);
    LinkReciprocal(b, v, p, d);
    var b2, v2 := Link(b, p, d), v[Idx(b.w, Step(p, d)) := true];
    assert TopRoot(b2) == TopRoot(b) && BottomRoot(b2) == BottomRoot(b);
    assert Wires(b2.grid) == 2 * (Visited(v2) - 1);
    GenInvIntro(b2, v2);
  }

  lemma GenInvIntro(b: Board, v: seq<bool>)
    requires Valid(b) && |v| == |b.grid|
    requires forall i :: 0 <= i < |v| ==> (v[i] <==> b.grid[i].conn != 0)
    requires Reciprocal(b) && Sound(b, v)
    requires At(b, v, TopRoot(b)) && At(b, v, BottomRoot(b))
    requires Wires(b.grid) == 2 * (Visited(v) - 1)
    ensures GenInv(b, v)
  {
  }

  // ---------------------------------------------------------------------
  // Direction scans
  // ---------------------------------------------------------------------

  /** A shuffled copy of `allDirs` holds the four directions, each once. */
  lemma PermutedDirs(dirs: seq<Dir>)
    requires multiset(dirs) == multiset(AllDirs)
    ensures |dirs| == 4
    ensures forall k :: 0 <= k < |dirs| ==> IsDir(dirs[k])
    ensures forall d :: IsDir(d) ==> d in dirs
  {
    AllDirsClockwise();
    assert |dirs| == |multiset(dirs)| == |multiset(AllDirs)| == 4;
    forall k | 0 <= k < |dirs|
      ensures IsDir(dirs[k])
    {
      assert dirs[k] in multiset(dirs);
    }
    forall d | IsDir(d)
      ensures d in dirs
    {
      assert d in multiset(AllDirs);
    }
  }
  /** `rand.Shuffle` of a copy of `allDirs`: the four directions in a random order. */
  method ShuffleDirs(r: Rand) returns (dirs: seq<Dir>, r': Rand)
    ensures |dirs| == 4
    ensures forall k :: 0 <= k < |dirs| ==> IsDir(dirs[k])
    ensures forall d :: IsDir(d) ==> d in dirs
  {
    var res := Permute(AllDirs, r);
    PermutedDirs(res.0);
    dirs, r' := res.0, res.1;
  }

  /** From `p` a branch can grow in direction `d`: no wire yet, and the neighbour is on the grid and unvisited. */
  predicate Open(b: Board, v: seq<bool>, p: Pos, d: Dir)
    requires WellFormed(b) && |v| == |b.grid| && In(p, b.w, b.h)
  {
    !HasConn(b, p, d) && In(Step(p, d), b.w, b.h) && !At(b, v, Step(p, d))
  }

  /** The scan of `tryAddBranch` and `extendBranch`: the first direction of `dirs` open from `p`. */
  method FirstOpen(b: Board, v: seq<bool>, p: Pos, dirs: seq<Dir>) returns (found: bool, k: int)
    requires WellFormed(b) && |v| == |b.grid| && In(p, b.w, b.h)
    ensures found ==> 0 <= k < |dirs| && Open(b, v, p, dirs[k])
    ensures found ==> forall j :: 0 <= j < k ==> !Open(b, v, p, dirs[j])
    ensures !found ==> forall j :: 0 <= j < |dirs| ==> !Open(b, v, p, dirs[j])
  {
    k := 0;
    while k < |dirs|
      invariant 0 <= k <= |dirs|
      invariant forall j :: 0 <= j < k ==> !Open(b, v, p, dirs[j])
    {
      var d := dirs[k];
      if !HasConn(b, p, d) {
        var n := Step(p, d);
        if In(n, b.w, b.h) && !At(b, v, n) {
          return true, k;
        }
      }
      k := k + 1;
    }
    return false, k;
  }

  /** Directions listed in strictly increasing `allDirs` position, all before position `k`. */
  predicate RankedBelow(ds: seq<Dir>, k: int) {
    && (forall i :: 0 <= i < |ds| ==> Rank(ds[i]) < k)
    && (forall i, j :: 0 <= i < j < |ds| ==> Rank(ds[i]) < Rank(ds[j]))
  }

  lemma RankedSnoc(ds: seq<Dir>, d: Dir, k: int)
    requires RankedBelow(ds, k) && Rank(d) == k
    ensures RankedBelow(ds + [d], k + 1)
  {
  }

  /** The scan of `addShortBranches`: the directions of `allDirs`, in order, that are open from `p`. */
  method OpenDirs(b: Board, v: seq<bool>, p: Pos) returns (ds: seq<Dir>)
    requires WellFormed(b) && |v| == |b.grid| && In(p, b.w, b.h)
    ensures |ds| <= 4
    ensures forall d :: d in ds <==> IsDir(d) && Open(b, v, p, d)
    ensures forall i, j :: 0 <= i < j < |ds| ==> Rank(ds[i]) < Rank(ds[j])
  {
    AllDirsClockwise();
    ds := [];
    var k := 0;
    while k < 4
      invariant 0 <= k <= 4 && |ds| <= k
      invariant forall d :: d in ds <==> d in AllDirs[..k] && Open(b, v, p, d)
      invariant RankedBelow(ds, k)
    {
      var d := AllDirs[k];
      assert AllDirs[..k + 1] == AllDirs[..k] + [d];
      assert Rank(d) == k;
      if !HasConn(b, p, d) {
        var n := Step(p, d);
        if In(n, b.w, b.h) && !At(b, v, n) {
          RankedSnoc(ds, d, k);
          ds := ds + [d];
        }
      }
      k := k + 1;
    }
    assert AllDirs[..4] == AllDirs;
  }

  /** Flags of the cells kept by a scan: visited, and wired too when `wiredOnly`. */
  function Kept(b: Board, v: seq<bool>, wiredOnly: bool): (s: seq<bool>)
    requires |v| == |b.grid|
    ensures |s| == |v|
  {
    seq(|v|, i requires 0 <= i < |v| => v[i] && (!wiredOnly || b.grid[i].conn != 0))
  }

  /** The scan keeps cell `q`: on the grid, visited, and wired too when `wiredOnly`. */
  predicate Keeps(b: Board, v: seq<bool>, wiredOnly: bool, q: Pos)
    requires WellFormed(b) && |v| == |b.grid|
  {
    In(q, b.w, b.h) && At(b, v, q) && (wiredOnly ==> Cell(b, q) != 0)
  }


  /** Cell `q` comes before `(x, y)` in row-major order. */
  predicate Before(q: Pos, x: int, y: int) {
    q.y < y || (q.y == y && q.x < x)
  }

  /** Scanning cell `p` appends it exactly when it is kept, and counts it. */
  lemma ScanCell(b: Board, v: seq<bool>, wiredOnly: bool, cells: seq<Pos>, p: Pos)
    requires WellFormed(b) && |v| == |b.grid| && In(p, b.w, b.h) && 0 <= Idx(b.w, p) < |v|
    requires |cells| == Count(Kept(b, v, wiredOnly), Idx(b.w, p))
    requires forall q :: q in cells <==> Keeps(b, v, wiredOnly, q) && Before(q, p.x, p.y)
    ensures Keeps(b, v, wiredOnly, p) ==>
      && |cells + [p]| == Count(Kept(b, v, wiredOnly), Idx(b.w, p) + 1)
      && forall q :: q in cells + [p] <==> Keeps(b, v, wiredOnly, q) && Before(q, p.x + 1, p.y)
    ensures !Keeps(b, v, wiredOnly, p) ==>
      && |cells| == Count(Kept(b, v, wiredOnly), Idx(b.w, p) + 1)
      && forall q :: q in cells <==> Keeps(b, v, wiredOnly, q) && Before(q, p.x + 1, p.y)
  {
    var keep, i := Kept(b, v, wiredOnly), Idx(b.w, p);
    assert keep[i] == Keeps(b, v, wiredOnly, p);
  }

  /** A scan that has passed the last column of row `y` holds the kept cells of rows up to `y`. */
  lemma RowDone(b: Board, v: seq<bool>, wiredOnly: bool, y: int, cells: seq<Pos>)
    requires WellFormed(b) && |v| == |b.grid| && 0 <= y < b.h
    requires 0 <= Idx(b.w, Pos(b.w, y)) <= |v|
    requires |cells| == Count(Kept(b, v, wiredOnly), Idx(b.w, Pos(b.w, y)))
    requires forall q :: q in cells <==> Keeps(b, v, wiredOnly, q) && Before(q, b.w, y)
    ensures 0 <= Mul(y + 1, b.w) <= |v|
    ensures |cells| == Count(Kept(b, v, wiredOnly), Mul(y + 1, b.w))
    ensures forall q :: q in cells <==> Keeps(b, v, wiredOnly, q) && q.y < y + 1
  {
    MulStep(y, b.w);
  }

  /** One row `y` of a scan, appended to the cells of the rows above. */
  method CollectRow(b: Board, v: seq<bool>, wiredOnly: bool, y: int, cells: seq<Pos>) returns (cells': seq<Pos>)
    requires WellFormed(b) && |v| == |b.grid| && 0 <= y < b.h
    requires 0 <= Mul(y, b.w) <= |v|
    requires |cells| == Count(Kept(b, v, wiredOnly), Mul(y, b.w))
    requires forall q :: q in cells <==> Keeps(b, v, wiredOnly, q) && q.y < y
    ensures 0 <= Mul(y + 1, b.w) <= |v|
    ensures |cells'| == Count(Kept(b, v, wiredOnly), Mul(y + 1, b.w))
    ensures forall q :: q in cells' <==> Keeps(b, v, wiredOnly, q) && q.y < y + 1
  {
    cells' := cells;
    var x := 0;
    while x < b.w
      invariant 0 <= x <= b.w
      invariant 0 <= Idx(b.w, Pos(x, y)) <= |v|
      invariant |cells'| == Count(Kept(b, v, wiredOnly), Idx(b.w, Pos(x, y)))
      invariant forall q :: q in cells' <==> Keeps(b, v, wiredOnly, q) && Before(q, x, y)
    {
      var p := Pos(x, y);
      IdxInRange(b.w, b.h, p);
      ScanCell(b, v, wiredOnly, cells', p);
      if At(b, v, p) && (wiredOnly ==> Cell(b, p) != 0) {
        cells' := cells' + [p];
      }
      x := x + 1;
    }
    RowDone(b, v, wiredOnly, y, cells');
  }

  /**
   * The row-by-row scans of `addExtraBranches` (visited and wired cells) and
   * `addShortBranches` (visited cells).
   */
  method Collect(b: Board, v: seq<bool>, wiredOnly: bool) returns (cells: seq<Pos>)
    requires WellFormed(b) && |v| == |b.grid|
    ensures forall q :: q in cells <==> In(q, b.w, b.h) && At(b, v, q) && (wiredOnly ==> Cell(b, q) != 0)
    ensures |cells| == Visited(Kept(b, v, wiredOnly))
  {
    cells := [];
    var y := 0;
    MulIsProduct(0, b.w);
    while y < b.h
      invariant 0 <= y <= b.h
      invariant 0 <= Mul(y, b.w) <= |v|
      invariant |cells| == Count(Kept(b, v, wiredOnly), Mul(y, b.w))
      invariant forall q :: q in cells <==> Keeps(b, v, wiredOnly, q) && q.y < y
    {
      cells := CollectRow(b, v, wiredOnly, y, cells);
      y := y + 1;
    }
    MulStep(b.h, b.w);
  }

  // ---------------------------------------------------------------------
  // Phase A: the breadth-first tree
  // ---------------------------------------------------------------------

  /**
   * The state of phase A while it expands `cur`: `b'`, `v'` extend `b`, `v`
   * and visit exactly the cells of `pushed` besides, none of which was
   * visited before.
   */
  ghost predicate Expanding(b: Board, v: seq<bool>, b': Board, v': seq<bool>, cur: Pos, pushed: seq<Pos>) {
    && WellFormed(b) && |v| == |b.grid|
    && GenInv(b', v') && Grows(b, v, b', v')
    && In(cur, b.w, b.h) && At(b', v', cur)
    && Visited(v') == Visited(v) + |pushed|
    && forall q :: q in pushed ==> In(q, b.w, b.h) && At(b', v', q) && !At(b, v, q)
  }

  /** No cell occurs twice in `s`. */
  predicate Distinct(s: seq<Pos>) {
    forall i, j :: 0 <= i < j < |s| ==> s[i] != s[j]
  }

  lemma DistinctAppend(a: seq<Pos>, c: seq<Pos>)
    requires Distinct(a) && Distinct(c)
    requires forall q :: q in c ==> q !in a
    ensures Distinct(a + c)
  {
    forall i, j | 0 <= i < j < |a + c|
      ensures (a + c)[i] != (a + c)[j]
    {
      if i < |a| && j >= |a| {
        assert (a + c)[j] in c;
      }
    }
  }

  /**
   * One popped cell of phase A: shuffle the directions, allow
   * `1 + rand.Intn(3)` links, and join each on-grid unvisited neighbour with
   * a 70% trial until the allowance is used up.
   */
  method GrowFrom(b: Board, v: seq<bool>, cur: Pos, r: Rand)
    returns (b': Board, v': seq<bool>, r': Rand, pushed: seq<Pos>)
    requires GenInv(b, v) && In(cur, b.w, b.h) && At(b, v, cur)
    ensures Expanding(b, v, b', v', cur, pushed)
    ensures |pushed| <= 3
    ensures Distinct(pushed)
    ensures forall q :: q in pushed ==> exists d :: IsDir(d) && q == Step(cur, d)
  {
    var dirs, r1 := ShuffleDirs(r);
    var (m, r2) := Intn(r1, 3);
    var maxConnections := 1 + m;
    var connections := 0;
    b', v', r', pushed := b, v, r2, [];
    GrowsRefl(b, v);
    var k := 0;
    while k < |dirs|
      invariant 0 <= k <= |dirs|
      invariant Expanding(b, v, b', v', cur, pushed)
      invariant connections == |pushed| <= maxConnections
      invariant Distinct(pushed)
      invariant forall q :: q in pushed ==> exists d :: IsDir(d) && q == Step(cur, d)
    {
      if connections >= maxConnections {
        break;
      }
      var linked;
      b', v', r', pushed, linked := GrowStep(b, v, b', v', cur, dirs[k], r', pushed);
      if linked {
        connections := connections + 1;
      }
      k := k + 1;
    }
  }

  /** One direction `d` of phase A: an on-grid unvisited neighbour is linked and pushed after a 70% trial. */
  method GrowStep(b: Board, v: seq<bool>, b1: Board, v1: seq<bool>, cur: Pos, d: Dir, r: Rand, pushed: seq<Pos>)
    returns (b2: Board, v2: seq<bool>, r': Rand, pushed': seq<Pos>, linked: bool)
    requires Expanding(b, v, b1, v1, cur, pushed) && IsDir(d)
    ensures Expanding(b, v, b2, v2, cur, pushed')
    ensures pushed' == if linked then pushed + [Step(cur, d)] else pushed
    ensures linked <==> In(Step(cur, d), b.w, b.h) && !At(b1, v1, Step(cur, d)) && Chance(r, LinkPercent).0
    ensures r' == if In(Step(cur, d), b.w, b.h) && !At(b1, v1, Step(cur, d)) then Skip(r, 1) else r
    ensures !linked ==> b2 == b1 && v2 == v1
  {
    b2, v2, r', pushed', linked := b1, v1, r, pushed, false;
    var n := Step(cur, d);
    if In(n, b.w, b.h) && !At(b1, v1, n) {
      var (ok, r3) := Chance(r, LinkPercent);
      r' := r3;
      if ok {
        PushLink(b, v, b1, v1, cur, d, pushed);
        b2, v2 := Link(b1, cur, d), v1[Idx(b.w, n) := true];
        pushed', linked := pushed + [n], true;
      }
    }
  }

  /** One link of phase A: the grown state still extends the start, and the newly visited neighbour joins the pushed cells. */
  lemma PushLink(b: Board, v: seq<bool>, b1: Board, v1: seq<bool>, cur: Pos, d: Dir, pushed: seq<Pos>)
    requires WellFormed(b) && |v| == |b.grid| && GenInv(b1, v1) && Grows(b, v, b1, v1)
    requires In(cur, b.w, b.h) && At(b1, v1, cur) && IsDir(d)
    requires In(Step(cur, d), b.w, b.h) && !At(b1, v1, Step(cur, d))
    requires Visited(v1) == Visited(v) + |pushed|
    requires forall q :: q in pushed ==> In(q, b.w, b.h) && At(b1, v1, q) && !At(b, v, q)
    ensures 0 <= Idx(b.w, Step(cur, d)) < |v1|
    ensures GenInv(Link(b1, cur, d), v1[Idx(b.w, Step(cur, d)) := true])
    ensures Grows(b, v, Link(b1, cur, d), v1[Idx(b.w, Step(cur, d)) := true])
    ensures At(Link(b1, cur, d), v1[Idx(b.w, Step(cur, d)) := true], cur)
    ensures Visited(v1[Idx(b.w, Step(cur, d)) := true]) == Visited(v) + |pushed| + 1
    ensures forall q :: q in pushed + [Step(cur, d)] ==>
      In(q, b.w, b.h) && At(Link(b1, cur, d), v1[Idx(b.w, Step(cur, d)) := true], q) && !At(b, v, q)
  {
    var n := Step(cur, d);
    LinkPreserves(b1, v1, cur, d);
    var b2, v2 := Link(b1, cur, d), v1[Idx(b.w, n) := true];
    GrowsTrans(b, v, b1, v1, b2, v2);
    forall q | q in pushed + [n]
      ensures In(q, b.w, b.h) && At(b2, v2, q) && !At(b, v, q)
    {
      if q in pushed {
        assert At(b1, v1, q);
      }
    }
  }

  /**
   * Phase A: breadth-first growth from the two root cells until the queue is
   * empty.  `queued` lists every cell ever put on the queue, in order: the
   * two roots, then each cell as it is newly visited, so no cell is queued
   * twice.
   */
  method GrowTree(b: Board, v: seq<bool>, r: Rand) returns (b': Board, v': seq<bool>, r': Rand, queued: seq<Pos>)
    requires GenInv(b, v)
    ensures GenInv(b', v') && Grows(b, v, b', v')
    ensures |queued| >= 2 && queued[0] == TopRoot(b) && queued[1] == BottomRoot(b)
    ensures Distinct(queued)
    ensures forall q :: q in queued ==> In(q, b.w, b.h) && At(b', v', q)
    ensures Visited(v') == Visited(v) + |queued| - 2
  {
    b', v', r' := b, v, r;
    GrowsRefl(b, v);
    var queue := [TopRoot(b), BottomRoot(b)];
    queued := queue;
    while |queue| > 0
      invariant GenInv(b', v') && Grows(b, v, b', v')
      invariant forall q :: q in queue ==> In(q, b.w, b.h) && At(b', v', q)
      invariant |queued| >= 2 && queued[0] == TopRoot(b) && queued[1] == BottomRoot(b)
      invariant Distinct(queued)
      invariant forall q :: q in queued ==> In(q, b.w, b.h) && At(b', v', q)
      invariant Visited(v') == Visited(v) + |queued| - 2
      decreases |v'| - Visited(v'), |queue|
    {
      var cur := queue[0];
      queue := queue[1..];
      var b2, v2, r2, pushed := GrowFrom(b', v', cur, r');
      CountBound(v2, |v2|);
      DistinctAppend(queued, pushed);
      GrowsTrans(b, v, b', v', b2, v2);
      b', v', r' := b2, v2, r2;
      queue := queue + pushed;
      queued := queued + pushed;
    }
  }

  // ---------------------------------------------------------------------
  // Phase B: extra branches
  // ---------------------------------------------------------------------

  /** `extendBranch`: walk on from `p` for up to `maxSteps` links, each to the first open direction of a fresh shuffle. */
  method ExtendBranch(b: Board, v: seq<bool>, p: Pos, maxSteps: int, r: Rand)
    returns (b': Board, v': seq<bool>, r': Rand)
    requires GenInv(b, v) && In(p, b.w, b.h) && At(b, v, p)
    ensures GenInv(b', v') && Grows(b, v, b', v')
    ensures Visited(v) <= Visited(v') <= Visited(v) + (if maxSteps < 0 then 0 else maxSteps)
  {
    b', v', r' := b, v, r;
    GrowsRefl(b, v);
    var cur := p;
    var i := 0;
    while i < maxSteps
      invariant 0 <= i && (i == 0 || i <= maxSteps)
      invariant GenInv(b', v') && Grows(b, v, b', v')
      invariant In(cur, b.w, b.h) && At(b', v', cur)
      invariant Visited(v) <= Visited(v') <= Visited(v) + i
    {
      var dirs, r1 := ShuffleDirs(r');
      r' := r1;
      var found, k := FirstOpen(b', v', cur, dirs);
      if !found {
        break;
      }
      var d := dirs[k];
      var n := Step(cur, d);
      LinkPreserves(b', v', cur, d);
      var b2, v2 := Link(b', cur, d), v'[Idx(b.w, n) := true];
      GrowsTrans(b, v, b', v', b2, v2);
      b', v' := b2, v2;
      cur := n;
      i := i + 1;
    }
  }

  /**
   * `tryAddBranch`: link `p` to the first open direction of a shuffle, and
   * with a 40% trial extend the new branch by `1 + rand.Intn(3)` steps.
   */
  method TryAddBranch(b: Board, v: seq<bool>, p: Pos, r: Rand) returns (b': Board, v': seq<bool>, r': Rand)
    requires GenInv(b, v) && In(p, b.w, b.h) && At(b, v, p)
    ensures GenInv(b', v') && Grows(b, v, b', v')
    ensures Visited(v') <= Visited(v) + 4
    ensures Visited(v') > Visited(v) <==> exists d :: IsDir(d) && Open(b, v, p, d)
  {
    var dirs, r1 := ShuffleDirs(r);
    var found, k := FirstOpen(b, v, p, dirs);
    b', v', r' := b, v, r1;
    GrowsRefl(b, v);
    if found {
      var d := dirs[k];
      var n := Step(p, d);
      LinkPreserves(b, v, p, d);
      b', v' := Link(b, p, d), v[Idx(b.w, n) := true];
      var (ext, r2) := Chance(r1, ExtendPercent);
      r' := r2;
      if ext {
        var (m, r3) := Intn(r2, 3);
        var b2, v2, r4 := ExtendBranch(b', v', n, 1 + m, r3);
        GrowsTrans(b, v, b', v', b2, v2);
        b', v', r' := b2, v2, r4;
      }
    } else {
      NoneOpen(b, v, p, dirs);
    }
  }

  /** If no entry of a shuffle of `allDirs` is open, no direction is. */
  lemma NoneOpen(b: Board, v: seq<bool>, p: Pos, dirs: seq<Dir>)
    requires WellFormed(b) && |v| == |b.grid| && In(p, b.w, b.h)
    requires forall d :: IsDir(d) ==> d in dirs
    requires forall j :: 0 <= j < |dirs| ==> !Open(b, v, p, dirs[j])
    ensures forall d :: IsDir(d) ==> !Open(b, v, p, d)
  {
    forall d | IsDir(d)
      ensures !Open(b, v, p, d)
    {
      var j :| 0 <= j < |dirs| && dirs[j] == d;
    }
  }

  /** Under the invariant the wired visited cells are all the visited cells. */
  lemma KeptWired(b: Board, v: seq<bool>)
    requires GenInv(b, v)
    ensures Kept(b, v, true) == v && Kept(b, v, false) == v
  {
  }

  /**
   * Phase B, `addExtraBranches`: shuffle the wired visited cells and try a
   * branch from the first third of them.
   */
  method AddExtraBranches(b: Board, v: seq<bool>, r: Rand) returns (b': Board, v': seq<bool>, r': Rand)
    requires GenInv(b, v)
    ensures GenInv(b', v') && Grows(b, v, b', v')
    ensures Visited(v') <= Visited(v) + 4 * (Visited(v) / 3)
  {
    var nodes := Collect(b, v, true);
    KeptWired(b, v);
    var (shuffled, r1) := Permute(nodes, r);
    assert forall q :: q in shuffled ==> q in multiset(nodes);
    nodes := shuffled;
    var branchesToAdd := |nodes| / 3;
    b', v', r' := b, v, r1;
    GrowsRefl(b, v);
    var i := 0;
    while i < branchesToAdd && i < |nodes|
      invariant 0 <= i <= branchesToAdd
      invariant GenInv(b', v') && Grows(b, v, b', v')
      invariant forall q :: q in nodes ==> In(q, b.w, b.h) && At(b', v', q)
      invariant Visited(v') <= Visited(v) + 4 * i
    {
      var b2, v2, r2 := TryAddBranch(b', v', nodes[i], r');
      GrowsTrans(b, v, b', v', b2, v2);
      b', v', r' := b2, v2, r2;
      i := i + 1;
    }
  }

  // ---------------------------------------------------------------------
  // Phase C: short branches
  // ---------------------------------------------------------------------

  /**
   * Phase C, `addShortBranches`: `w*h/4` attempts, each picking a random
   * visited cell and, if it has open directions, linking one of them.
   */
  method AddShortBranches(b: Board, v: seq<bool>, r: Rand) returns (b': Board, v': seq<bool>, r': Rand)
    requires GenInv(b, v)
    ensures GenInv(b', v') && Grows(b, v, b', v')
    ensures Visited(v') <= Visited(v) + Mul(b.w, b.h) / 4
  {
    MulIsProduct(b.w, b.h);
    var attempts := Mul(b.w, b.h) / 4;
    b', v', r' := b, v, r;
    GrowsRefl(b, v);
    var attempt := 0;
    while attempt < attempts
      invariant 0 <= attempt <= attempts
      invariant GenInv(b', v') && Grows(b, v, b', v')
      invariant Visited(v') <= Visited(v) + attempt
    {
      var candidates := Collect(b', v', false);
      if |candidates| == 0 {
        break;
      }
      var (j, r1) := Intn(r', |candidates|);
      r' := r1;
      var base := candidates[j];
      var available := OpenDirs(b', v', base);
      if |available| > 0 {
        var (k, r2) := Intn(r', |available|);
        r' := r2;
        var d := available[k];
        var n := Step(base, d);
        LinkPreserves(b', v', base, d);
        var b2, v2 := Link(b', base, d), v'[Idx(b.w, n) := true];
        GrowsTrans(b, v, b', v', b2, v2);
        b', v' := b2, v2;
      }
      attempt := attempt + 1;
    }
  }

  // ---------------------------------------------------------------------
  // NewBoard
  // ---------------------------------------------------------------------

  /** The board of `NewBoard` before generation: blank tiles except the wire joining the two root cells. */
  ghost predicate Rooted(b: Board) {
    && WellFormed(b) && b.h >= 3 && b.rtX == b.w / 2 && b.rtY == b.h / 2
    && 0 <= Idx(b.w, TopRoot(b)) < |b.grid| && 0 <= Idx(b.w, BottomRoot(b)) < |b.grid|
    && Idx(b.w, TopRoot(b)) != Idx(b.w, BottomRoot(b))
    && b.grid == Blank(|b.grid|)[Idx(b.w, TopRoot(b)) := Tile(Down)][Idx(b.w, BottomRoot(b)) := Tile(Up)]
  }

  /** The visited flags `generateEnhancedNetwork` starts from: the two root cells. */
  function RootFlags(b: Board): (v: seq<bool>)
    requires WellFormed(b) && RootsIn(b)
    ensures |v| == |b.grid|
  {
    IdxInRange(b.w, b.h, TopRoot(b));
    IdxInRange(b.w, b.h, BottomRoot(b));
    NoFlags(|b.grid|)[Idx(b.w, TopRoot(b)) := true][Idx(b.w, BottomRoot(b)) := true]
  }

  lemma RootedValid(b: Board)
    requires Rooted(b)
    ensures Valid(b)
  {
    var it, ib := Idx(b.w, TopRoot(b)), Idx(b.w, BottomRoot(b));
    var g := b.grid;
    forall i | 0 <= i < |g|
      ensures IsMask(g[i].conn)
    {
      assert g[i] == (if i == ib then Tile(Up) else if i == it then Tile(Down) else Tile(0));
    }
  }

  lemma RootedReciprocal(b: Board)
    requires Rooted(b)
    ensures Valid(b) && Reciprocal(b)
    ensures forall p :: In(p, b.w, b.h) ==> (Cell(b, p) != 0 <==> p == TopRoot(b) || p == BottomRoot(b))
  {
    RootedValid(b);
    var top, bot := TopRoot(b), BottomRoot(b);
    forall p | In(p, b.w, b.h)
      ensures Cell(b, p) == (if p == top then Down else if p == bot then Up else 0)
    {
      IdxInjective(b.w, b.h, p, top);
      IdxInjective(b.w, b.h, p, bot);
      IdxInRange(b.w, b.h, p);
    }
    forall p | In(p, b.w, b.h)
      ensures NoStubs(b, p)
    {
      if p == top {
        assert Live(b, top, Down);
      } else if p == bot {
        assert Step(bot, Up) == top;
        assert Live(b, bot, Up);
      }
    }
  }

  lemma RootedWires(b: Board)
    requires Rooted(b)
    ensures Wires(b.grid) == 2
  {
    var it, ib := Idx(b.w, TopRoot(b)), Idx(b.w, BottomRoot(b));
    var z := Blank(|b.grid|);
    var z1 := z[it := Tile(Down)];
    WiresBlank(|b.grid|);
    WiresUpdate(z, it, Tile(Down));
    assert z[it] == Tile(0) && z1[ib] == Tile(0);
    assert PopCount(0) == 0 && PopCount(Down) == 1 && PopCount(Up) == 1;
    WiresUpdate(z1, ib, Tile(Up));
  }

  lemma RootedFlags(b: Board)
    requires Rooted(b)
    ensures RootsIn(b)
    ensures forall i :: 0 <= i < |b.grid| ==> (RootFlags(b)[i] <==> b.grid[i].conn != 0)
    ensures Visited(RootFlags(b)) == 2
    ensures At(b, RootFlags(b), TopRoot(b)) && At(b, RootFlags(b), BottomRoot(b))
  {
    var it, ib := Idx(b.w, TopRoot(b)), Idx(b.w, BottomRoot(b));
    var v, g := RootFlags(b), b.grid;
    forall i | 0 <= i < |g|
      ensures v[i] <==> g[i].conn != 0
    {
      assert g[i] == (if i == ib then Tile(Up) else if i == it then Tile(Down) else Tile(0));
    }
    var v0 := NoFlags(|g|);
    FlagSet(v0, it);
    FlagSet(v0[it := true], ib);
  }

  lemma RootedSound(b: Board)
    requires Rooted(b) && RootsIn(b)
    ensures Sound(b, RootFlags(b))
  {
    var v := RootFlags(b);
    var top, bot := TopRoot(b), BottomRoot(b);
    RootConnected(b, top);
    RootConnected(b, bot);
    forall q | In(q, b.w, b.h) && At(b, v, q)
      ensures Connected(b, q)
    {
      IdxInjective(b.w, b.h, q, top);
      IdxInjective(b.w, b.h, q, bot);
      IdxInRange(b.w, b.h, q);
    }
  }

  /** The rooted board with its root flags satisfies the generation invariant. */
  lemma RootedInv(b: Board)
    requires Rooted(b)
    ensures Valid(b) && GenInv(b, RootFlags(b))
  {
    RootedReciprocal(b);
    RootedFlags(b);
    RootedWires(b);
    RootedSound(b);
  }

  /** The invariant at the end of generation gives everything `NewBoard` promises. */
  lemma InvGenerated(b: Board, v: seq<bool>)
    requires GenInv(b, v)
    ensures Generated(b)
  {
    assert Wired(b) == v;
    forall p | In(p, b.w, b.h)
      ensures Connected(b, p) <==> Cell(b, p) != 0
    {
      VisitedIffWired(b, v, p);
      if Connected(b, p) {
        ConnectedHasWire(b, p);
        RootCells(b, p);
        VisitedIffWired(b, v, TopRoot(b));
        VisitedIffWired(b, v, BottomRoot(b));
      }
    }
  }

  /** `generateEnhancedNetwork`: phases A, B and C from the rooted board and its root flags. */
  method GenerateEnhancedNetwork(b: Board, r: Rand) returns (b': Board, r': Rand)
    requires Rooted(b)
    ensures b'.w == b.w && b'.h == b.h && Generated(b')
    ensures SubBoard(b, b')
  {
    RootedInv(b);
    var v := RootFlags(b);
    var b1, v1, r1, _ := GrowTree(b, v, r);
    var b2, v2, r2 := AddExtraBranches(b1, v1, r1);
    var b3, v3, r3 := AddShortBranches(b2, v2, r2);
    GrowsTrans(b, v, b1, v1, b2, v2);
    GrowsTrans(b, v, b2, v2, b3, v3);
    InvGenerated(b3, v3);
    b', r' := b3, r3;
  }

  /**
   * `NewBoard(w, h)`: a `w` by `h` board whose wires form a tree through
   * the two central root cells, with every wire answered and every wired
   * tile powered.  The Go code needs `h >= 3` to place the lower root cell.
   */
  method NewBoard(w: int, h: int, r: Rand) returns (b: Board, r': Rand)
    requires w >= 1 && h >= 3
    ensures b.w == w && b.h == h && b.rtX == w / 2 && b.rtY == h / 2
    ensures Generated(b)
    ensures Cell(b, TopRoot(b)) & Down != 0 && Cell(b, BottomRoot(b)) & Up != 0
  {
    IdxInRange(w, h, Pos(0, 0));
    b := Board(w, h, Blank(Mul(w, h)), w / 2, h / 2);
    var top, bot := Pos(b.rtX, b.rtY), Pos(b.rtX, b.rtY + 1);
    IdxInRange(w, h, top);
    IdxInRange(w, h, bot);
    IdxInjective(w, h, top, bot);
    assert Cell(b, top) == 0 && Cell(b, bot) == 0;
    b := SetConn(b, top, Down);
    b := SetConn(b, bot, Up);
    assert Rooted(b);
    ghost var b0 := b;
    assert Cell(b0, top) == Down && Cell(b0, bot) == Up;
    b, r' := GenerateEnhancedNetwork(b, r);
    assert Cell(b0, top) & Cell(b, top) == Cell(b0, top);
    assert Cell(b0, bot) & Cell(b, bot) == Cell(b0, bot);
  }
}
