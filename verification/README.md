# NetWalk engine core in Dafny

A model of the puzzle engine of NetWalk, a game on a `W` by `H` grid. Each tile
carries a 4-bit connection mask (Up=1, Right=2, Down=4, Left=8). Two vertically
adjacent cells in the middle of the board are the power source. A wire conducts
only when the two neighbouring tiles both point at each other. The player turns
tiles a quarter turn at a time. The puzzle is solved when every wired tile
receives power.

The model covers the following:

- the direction algebra: `opposite`, the quarter turn of `Rotate` and the `r`-turn formula of `Shuffle`;
- the row-major grid: `idx`, `in`, `step`, `setConn` and `hasConn`;
- the play-time operations: `Rotate`, `Shuffle`, `IsRoot`, `IsEndpoint`, `CountEndpoints`, `Reachable` and `Solved`;
- the generator: `NewBoard`, and the three phases of `generateEnhancedNetwork` with `tryAddBranch` and `extendBranch`;
- the two drivers `NewBoardWithMinEndpoints` and `NewBoardWithExactEndpoints`.

Files and modules:

- `dirs.dfy` (`Dirs`): directions and masks as `bv8`, the same width as Go's `uint8` `Dir`. Shifts and masks are bit-exact.
- `random.dfy` (`Random`): the random source as an explicit oracle `Rand`, a stream of raw draws and a cursor. It provides `rand.Intn`, the `Float32() < p` trials and `rand.Shuffle` (Fisher-Yates). Every property holds for every stream.
- `board.dfy` (`Boards`): tiles, boards, indexing, `Rotate`, `Shuffle`, roots and endpoints, `CountEndpoints`.
- `reach.dfy` (`Reach`):
  - `Connected` is the reference meaning of "receives power": a walk of live edges from a root cell.
  - `IsSolved` is the reference meaning of "solved".
  - `Reachable` and `Solved` are proved to compute these.
- `generator.dfy` (`Generator`):
  - `NewBoard` and the generation phases.
  - The invariant `GenInv` that every phase keeps. It says:
    - a cell is visited exactly when its tile is wired;
    - every wire is answered by its neighbour;
    - every visited tile is powered;
    - the wires form a tree: the number of wire bits is twice the number of wired tiles minus two.
- `drivers.dfy` (`Drivers`): the two endpoint-targeting drivers. Their extra out-parameters `cands` and `k` list every candidate board in order and the index of the chosen one.

A fresh board (`Generator.Generated`) has these properties:

- it lies inside its grid;
- its links are reciprocal;
- it is solved;
- a cell is powered exactly when it is wired;
- it has exactly `wired - 1` edges.

Since every wired tile is joined to the roots, the wiring is a spanning tree of the wired tiles.

Board size:

- `NewBoard` places the roots at `(w/2, h/2)` and `(w/2, h/2 + 1)`, so it needs `h >= 3`.
- For `h = 2` the lower root lands on row 2, and `setConn` at internal/game/newBoard.go:19 indexes past the grid.
- `Boards.RootCells` proves that the lower root is on the grid exactly when `h >= 3`.

## Model

| member | source | states |
|---|---|---|
| Dirs.DirectionBits | internal/game/board.go:7-14 | The four direction constants are distinct single bits, and every 4-bit mask is the union of its direction bits. |
| Dirs.AllDirsClockwise | internal/game/board.go:16 | `allDirs` holds each of the four directions exactly once; a value is a direction iff it occurs in `allDirs`; a quarter turn maps each entry to the next, cyclically. |
| Dirs.RotateClockwise | internal/game/newBoard.go:222-226 | A quarter turn maps Up→Right→Down→Left→Up and always yields a 4-bit mask. |
| Dirs.OppositeInvolution | internal/game/newBoard.go:403-405 | `opposite` swaps Up/Down and Right/Left, is its own inverse on masks, and equals two quarter turns. |
| Dirs.FourTurnsIdentity | internal/game/newBoard.go:225 | Four quarter turns restore any mask (the rotation group has order 4). |
| Dirs.TurnsPreservePopCount | internal/game/newBoard.go:225 | Any number of quarter turns keeps a mask in 4 bits with the same number of wires. |
| Dirs.RotateByIsTurns | internal/game/newBoard.go:232 | The `Shuffle` formula with count `r` equals `r` quarter turns of `Rotate`; `r = 0` leaves the mask alone. |
| Dirs.RotateByUndo | internal/game/newBoard.go:232 | A further `4 - r` quarter turns undo a `Shuffle` rotation by `r`. |
| Dirs.TurnedPreservesPopCount | internal/game/newBoard.go:232 | A mask reached by whole quarter turns has the same wire count. |
| Dirs.SingleWireIsDir | internal/game/newBoard.go:273 | `OnesCount8(c) == 1` holds for a mask exactly when the mask is one of the four directions. |
| Dirs.AddWire | internal/game/newBoard.go:407-409 | Or-ing a missing direction bit into a mask adds exactly one wire. |
| Random.Intn | internal/game/newBoard.go:46 | `rand.Intn(n)` yields a value in `0..n-1` and consumes one draw. |
| Random.Chance | internal/game/newBoard.go:65 | The probability trial consumes exactly one draw; it never succeeds at rate 0 or below and always succeeds at rate 100 or above. |
| Random.ChanceRate | internal/game/newBoard.go:65 | For a rate `0 <= percent <= 100`, exactly `percent` of the hundred residues of a draw are accepted, and a trial's outcome is decided by the residue of its next draw. |
| Random.AcceptedSize | internal/game/newBoard.go:65 | The set of accepted residues below 100 has exactly `percent` elements. |
| Random.Permute | internal/game/newBoard.go:43 | `rand.Shuffle` returns a permutation of its input (same multiset, same length). |
| Boards.IdxInRange | internal/game/newBoard.go:386-387 | `idx` maps every coordinate accepted by `in` into `0..w*h-1`. |
| Boards.IdxBijection | internal/game/newBoard.go:386-387 | `idx` on in-grid coordinates and `PosOf` on `0..w*h-1` are mutually inverse. |
| Boards.PosOfIdx | internal/game/newBoard.go:386-387 | For an in-grid coordinate, `PosOf` recovers it from its `idx`. |
| Boards.IdxOfPos | internal/game/newBoard.go:386-387 | Every index in `0..w*h-1` is the `idx` of an in-grid coordinate. |
| Boards.IdxInjective | internal/game/newBoard.go:386 | Two in-grid coordinates have the same `idx` iff they are equal. |
| Boards.SetConn | internal/game/newBoard.go:407-409 | `setConn` ors the bit into exactly the tile at `p`, and leaves every other cell and the dimensions and roots unchanged. |
| Boards.UpdateOthers | internal/game/newBoard.go:408 | Writing the tile at `idx(p)` changes no other in-grid cell. |
| Boards.StepOpposite | internal/game/newBoard.go:390-405 | A step in direction `d` followed by a step in `opposite(d)` returns to the start, and a step always moves. |
| Boards.Rotate | internal/game/newBoard.go:222-226 | `Rotate` turns the tile at `idx(x, y)` a quarter turn clockwise, yields a 4-bit mask and changes no other tile. |
| Boards.RotateTimesTurns | internal/game/newBoard.go:222-226 | `n` `Rotate` calls on one tile turn it `n` quarter turns and touch nothing else. |
| Boards.FourRotationsRestore | internal/game/newBoard.go:222-226 | Four `Rotate` calls on the same tile give back the original board. |
| Boards.ShuffleTurnsTiles | internal/game/newBoard.go:228-234 | `Shuffle` turns tile `i` by exactly its own draw `Intn(4)` in quarter turns, consuming one draw per tile. |
| Boards.ShuffleRoundTrip | internal/game/newBoard.go:228-234 | Turning each shuffled tile a further `4 - r` quarter turns restores the board before `Shuffle`. |
| Boards.RootCells | internal/game/newBoard.go:264-266 | `IsRoot` holds exactly for `(w/2, h/2)` and the cell below it. They are distinct, the top root is always on the grid, and the bottom root is on the grid iff `h >= 3`. |
| Boards.EndpointIsSingleDirection | internal/game/newBoard.go:268-274 | `IsEndpoint` holds iff the cell is not a root and its mask is a single direction. |
| Boards.EndpointsBelowStep | internal/game/newBoard.go:303-309 | Scanning one more tile adds one to the endpoint count exactly when that tile is an endpoint. |
| Boards.CountEndpoints | internal/game/newBoard.go:301-311 | The row-by-row count equals the number of indices whose tile is an endpoint. |
| Boards.TurnedKeepsEndpoints | internal/game/newBoard.go:268-274 | Boards whose tiles differ only by quarter turns have the same set of endpoints. |
| Boards.RotateKeepsEndpoints | internal/game/newBoard.go:222-226 | `Rotate` leaves the set of endpoints, and so `CountEndpoints`, unchanged. |
| Boards.ShuffleKeepsEndpoints | internal/game/newBoard.go:228-234 | `Shuffle` leaves the set of endpoints, and so `CountEndpoints`, unchanged. |
| Reach.RootConnected | internal/game/newBoard.go:295-296 | Each on-grid root cell receives power. |
| Reach.ConnectedStep | internal/game/newBoard.go:286-291 | Power flows from a powered cell across a wire that its on-grid neighbour answers with the opposite bit. |
| Reach.ConnectedHasWire | internal/game/newBoard.go:286-291 | A powered cell is on the grid and is a root cell or carries a wire. |
| Reach.EmptyBoardSolved | internal/game/newBoard.go:256-261 | A board with no wire outside the root cells is solved. |
| Reach.ConnectedMono | internal/game/newBoard.go:407-409 | Adding wire bits (as `setConn` does) never disconnects a powered cell. |
| Reach.Mark | internal/game/newBoard.go:281-285 | Marking a powered unseen cell keeps every seen cell powered and every explored cell closed, and leaves one fewer unseen cell. |
| Reach.PathInside | internal/game/newBoard.go:279-296 | A live walk from a root stays inside any seen set that holds both roots and is closed under live edges. |
| Reach.Explore | internal/game/newBoard.go:286-293 | Visiting the live neighbours of a popped cell in `allDirs` order keeps the search invariant and closes that cell: every live neighbour is now seen. |
| Reach.SearchDone | internal/game/newBoard.go:277-298 | When no cell is pending, a cell is seen exactly when it receives power. |
| Reach.Start | internal/game/newBoard.go:295-296 | The search starts from the two root cells: both are pending, they are the only seen cells, and the search invariant holds. |
| Reach.Reachable | internal/game/newBoard.go:277-298 | The returned flag of each cell is true iff the cell receives power along live edges from a root cell; both roots are marked. |
| Reach.Solved | internal/game/newBoard.go:236-262 | `Solved` returns true iff every tile with a non-zero mask receives power. |
| Generator.NoFlags | internal/game/newBoard.go:30 | The fresh visited slice marks no cell. |
| Generator.WiresBlank | internal/game/newBoard.go:14 | The freshly made grid carries no wire bit. |
| Generator.VisitedIffWired | internal/game/newBoard.go:88 | During generation a cell is visited exactly when its tile carries a wire. |
| Generator.LinkCells | internal/game/newBoard.go:66-67 | The two `setConn` calls add `d` at `p` and `opposite(d)` at the neighbour, at distinct indices, and change nothing else. |
| Generator.OpenNeighbour | internal/game/newBoard.go:54-62 | An on-grid unvisited neighbour of a visited cell is blank, and the visited cell has no wire towards it. |
| Generator.LinkSub | internal/game/newBoard.go:66-67 | A link only adds wires, the new wire is live, and the new tile points only back. |
| Generator.LinkReciprocal | internal/game/newBoard.go:66-67 | Linking to an unvisited neighbour keeps every wire on the board answered. |
| Generator.LinkSound | internal/game/newBoard.go:66-68 | After a link and marking the neighbour visited, every visited cell still receives power. |
| Generator.LinkWires | internal/game/newBoard.go:66-67 | A link adds exactly two wire bits. |
| Generator.LinkFlags | internal/game/newBoard.go:68 | Marking the neighbour keeps "visited iff wired" and adds one visited cell. |
| Generator.LinkPreserves | internal/game/newBoard.go:66-69 | A link from a visited cell to an unvisited neighbour keeps the whole generation invariant (tree, reciprocal, powered) and marks one more cell. |
| Generator.ShuffleDirs | internal/game/newBoard.go:42-43 | The shuffled direction list (also at lines 108-109 and 142-143) has four entries, each a direction, and holds every direction. |
| Generator.PermutedDirs | internal/game/newBoard.go:42-43 | A shuffle of `Up, Right, Down, Left` holds each direction, and only directions. |
| Generator.FirstOpen | internal/game/newBoard.go:111-125 | The scan finds the first shuffled direction with no wire towards an on-grid unvisited neighbour, or reports that there is none. |
| Generator.NoneOpen | internal/game/newBoard.go:111-125 | If no entry of the shuffle is open then no direction at all is open. |
| Generator.OpenDirs | internal/game/newBoard.go:197-205 | `availableDirs` holds exactly the directions with no wire towards an on-grid unvisited neighbour, each once and in `allDirs` order, so the `rand.Intn` pick at line 208 sees a fixed list. |
| Generator.Collect | internal/game/newBoard.go:85-92 | The row-major scan returns exactly the visited (and, for phase B, wired) cells, one entry each. |
| Generator.CollectRow | internal/game/newBoard.go:182-188 | Scanning row `y` appends exactly the kept cells of that row. |
| Generator.KeptWired | internal/game/newBoard.go:88 | Under the invariant, the wired visited cells are exactly the visited cells. |
| Generator.GrowFrom | internal/game/newBoard.go:38-72 | One popped cell keeps the invariant, links and enqueues at most three newly visited cells, all distinct neighbours of the popped cell, and never removes a wire. |
| Generator.GrowStep | internal/game/newBoard.go:54-71 | One direction links and enqueues the neighbour exactly when it is on the grid and unvisited and the 70% trial accepts; the trial consumes one draw only for such a neighbour. A link keeps the invariant and visits exactly that one more cell; without a link the board and the flags are unchanged. |
| Generator.GrowTree | internal/game/newBoard.go:29-73 | The breadth-first phase terminates and keeps the invariant, only adding wires. Its `queued` history starts with the two roots, holds no cell twice, and every queued cell is visited; the visited count grows by exactly the number of cells queued after the roots. |
| Generator.ExtendBranch | internal/game/newBoard.go:140-173 | Extending keeps the invariant and adds between 0 and `maxSteps` visited cells. |
| Generator.TryAddBranch | internal/game/newBoard.go:107-137 | A branch attempt keeps the invariant, adds at most four cells, and adds at least one exactly when some direction of `p` is open. |
| Generator.AddExtraBranches | internal/game/newBoard.go:83-104 | Phase B keeps the invariant and adds at most four cells per branch attempt, over a third of the visited cells. |
| Generator.AddShortBranches | internal/game/newBoard.go:176-216 | Phase C keeps the invariant and adds at most one cell per attempt, at most `w*h/4` in all. |
| Generator.RootedValid | internal/game/newBoard.go:14-19 | The board set up by `NewBoard` before generation has 4-bit masks and on-grid roots. |
| Generator.RootedReciprocal | internal/game/newBoard.go:17-19 | The two root wires answer each other, and only the root cells are wired. |
| Generator.RootedWires | internal/game/newBoard.go:18-19 | The set-up board has exactly two wire bits. |
| Generator.RootedFlags | internal/game/newBoard.go:30-32 | The initial visited flags are exactly the two root cells. |
| Generator.RootedSound | internal/game/newBoard.go:30-32 | Both initially visited cells receive power. |
| Generator.RootedInv | internal/game/newBoard.go:14-32 | The set-up board and its root flags satisfy the generation invariant. |
| Generator.InvGenerated | internal/game/newBoard.go:75-79 | The invariant at the end of generation makes a cell powered iff it is wired, the board solved and the wiring a tree. |
| Generator.GenerateEnhancedNetwork | internal/game/newBoard.go:28-80 | The three phases keep the root wires and produce a generated board (reciprocal, solved, tree, powered iff wired). |
| Generator.NewBoard | internal/game/newBoard.go:12-25 | A `w` by `h` board with roots at `(w/2, h/2)` and `(w/2, h/2 + 1)` whose wiring is a reciprocal tree through the roots, powered exactly where wired, and solved; the top root keeps its `Down` wire and the bottom root its `Up` wire. |
| Drivers.Candidate | internal/game/newBoard.go:320-321 | One try is a fresh board together with its `CountEndpoints`. |
| Drivers.TryMin | internal/game/newBoard.go:316-331 | The loop stops at the first try with at least `want` endpoints; otherwise, after `maxTry` tries, it keeps the first try with the most. |
| Drivers.MinStep | internal/game/newBoard.go:323-330 | One try of the minimum driver keeps its selection rule. |
| Drivers.Shuffled | internal/game/newBoard.go:324 | The shuffled board differs from the candidate only by quarter turns and has the same endpoints. |
| Drivers.NewBoardWithMinEndpoints | internal/game/newBoard.go:315-342 | The result is a shuffle of the first candidate with at least `want` endpoints; failing that, of the first with the most, after exactly `maxTry` tries; with no tries, of one fresh board. |
| Drivers.ExactStep | internal/game/newBoard.go:356-368 | One try of the exact driver keeps its selection rule, including the `1<<31 - 1` starting distance. |
| Drivers.TryExact | internal/game/newBoard.go:346-369 | The loop stops at the first try with exactly `exact` endpoints. Otherwise it keeps the first closest try within the sentinel distance, ties going to more endpoints, or none when every try is farther. |
| Drivers.NewBoardWithExactEndpoints | internal/game/newBoard.go:345-380 | The result is a shuffle of the first exact hit, else of the first closest candidate, else (no tries, or every try farther than `1<<31 - 1`) of one extra fresh board. |

## Left out

- The graphical UI (`internal/ui`, an Ebiten window) and the command-line programs (`cmd/`) are not part of this model.
- The seeding of `math/rand` (`rand.Seed(time.Now().UnixNano())`) and the generator itself are left out. The `Rand` oracle stands for any stream of draws.
- The float comparisons `rand.Float32() < 0.7` and `< 0.4` are not modelled as floats. They become a draw modulo 100 compared with 70 and 40, which has nearly the same acceptance rate (Go compares with the `float32` nearest 0.7 or 0.4) but not the same bits.
- `Reachable` and `Solved` use a recursive closure in Go. They are modelled as an explicit worklist that visits each cell's neighbours in `allDirs` order. The returned set of cells is the same, but the visiting order may differ.
- Reach.Reachable: requires both root cells to be on the grid, which every board built by `NewBoard` satisfies. For a hand-made board with an off-grid root, the Go code would read a wrapped-around or out-of-range index.
- Generator.NewBoard: requires `w >= 1` and `h >= 3`. For `w * h <= 0` and for `w >= 1` with `h <= 2`, the Go code indexes outside the grid or makes a slice of negative length, and panics. When both sizes are negative, Go's truncating division can put both roots inside a grid of `w * h` cells and return a board; that case is not modelled.
- Go's `int` is 64 bits wide. The model uses unbounded integers, so the overflow of `leaf - exact` in the exact driver for extreme `exact` is not modelled.
- Drivers.NewBoardWithMinEndpoints and Drivers.NewBoardWithExactEndpoints state their selection rule through two extra out-parameters. These list the candidates that were generated and the index of the chosen one. Go keeps only the best board.
- internal/game/board.go:31-186 is an older generator kept as commented-out code; it is not part of this model.
- `In` (newBoard.go:388) is only an exported alias of `in` and is modelled by `Boards.In`.
