/**
 * Directions and connection masks of the NetWalk engine.
 *
 * A direction is one bit of a 4-bit mask and a tile's connection mask is the
 * union of the directions in which it carries a wire.  The Go code stores
 * both as a `uint8` (`Dir`), modelled here as `bv8`, so shifts and masks are
 * exactly those of the source.
 */
module Dirs {

  type Dir = bv8

  const Up: Dir := 1
  const Right: Dir := 2
  const Down: Dir := 4
  const Left: Dir := 8

  /** `allDirs`: the four directions in clockwise order. */
  const AllDirs: seq<Dir> := [Up, Right, Down, Left]

  /** `d` is one of the four single-bit directions. */
  predicate IsDir(d: Dir) {
    d == Up || d == Right || d == Down || d == Left
  }

  /** The position of a direction in `allDirs`; 4 for anything else. */
  function Rank(d: Dir): (i: int) {
    if d == Up then 0 else if d == Right then 1 else if d == Down then 2 else if d == Left then 3 else 4
  }

  /** A connection mask uses only the four direction bits (0..15). */
  predicate IsMask(c: Dir) {
    c < 16
  }

  function Bit(c: Dir, k: nat): (r: nat)
    requires k < 8
  {
    if (c >> k) & 1 == 1 then 1 else 0
  }

  /** Number of set bits of a byte (Go's `bits.OnesCount8`). */
  function PopCount(c: Dir): (r: nat) {
    Bit(c, 0) + Bit(c, 1) + Bit(c, 2) + Bit(c, 3) + Bit(c, 4) + Bit(c, 5) + Bit(c, 6) + Bit(c, 7)
  }

  /** `opposite`: the mask rotated by two bit positions within four bits. */
  function Opposite(d: Dir): (r: Dir) {
    ((d << 2) | (d >> 2)) & 0xF
  }

  /** The quarter turn applied by `Rotate`: a one-bit cyclic left rotate of the low nibble. */
  function RotateConn(c: Dir): (r: Dir) {
    ((c << 1) | (c >> 3)) & 0xF
  }

  /** The `r`-quarter-turn formula used by `Shuffle`, for a draw `r` of `rand.Intn(4)`. */
  function RotateConnBy(c: Dir, r: int): (res: Dir)
    requires 0 <= r < 4
  {
    ((c << r) | (c >> (4 - r))) & 0xF
  }

  /** `n` successive quarter turns. */
  function Turns(c: Dir, n: nat): (r: Dir) {
    if n == 0 then c else RotateConn(Turns(c, n - 1))
  }

  /** `a` can be turned into `c` by some number of quarter turns. */
  predicate Turned(a: Dir, c: Dir) {
    c == a || c == Turns(a, 1) || c == Turns(a, 2) || c == Turns(a, 3)
  }

  /** The four direction constants are distinct single bits and every mask is a union of them. */
  lemma DirectionBits(c: Dir)
    requires IsMask(c)
    ensures IsDir(Up) && IsDir(Right) && IsDir(Down) && IsDir(Left)
    ensures Up != Right && Up != Down && Up != Left && Right != Down && Right != Left && Down != Left
    ensures PopCount(Up) == 1 && PopCount(Right) == 1 && PopCount(Down) == 1 && PopCount(Left) == 1
    ensures c == (c & Up) | (c & Right) | (c & Down) | (c & Left)
  {
  }

  /** `allDirs` holds each direction once, and a quarter turn maps each entry to the next one. */
  lemma AllDirsClockwise()
    ensures |AllDirs| == 4
    ensures forall i, j :: 0 <= i < j < 4 ==> AllDirs[i] != AllDirs[j]
    ensures forall d :: IsDir(d) <==> d in AllDirs
    ensures forall i :: 0 <= i < 4 ==> RotateConn(AllDirs[i]) == AllDirs[(i + 1) % 4]
  {
  }

  /** A quarter turn maps Up to Right, Right to Down, Down to Left and Left to Up, and keeps masks in range. */
  lemma RotateClockwise(c: Dir)
    ensures RotateConn(Up) == Right && RotateConn(Right) == Down
    ensures RotateConn(Down) == Left && RotateConn(Left) == Up
    ensures IsMask(RotateConn(c))
  {
  }

  /** `opposite` swaps Up with Down and Right with Left, is an involution on masks and is a half turn. */
  lemma OppositeInvolution(c: Dir)
    requires IsMask(c)
    ensures Opposite(Up) == Down && Opposite(Down) == Up
    ensures Opposite(Right) == Left && Opposite(Left) == Right
    ensures Opposite(Opposite(c)) == c
    ensures Opposite(c) == Turns(c, 2)
  {
    assert Turns(c, 1) == RotateConn(Turns(c, 0));
    assert Turns(c, 2) == RotateConn(Turns(c, 1));
  }

  /** Four quarter turns restore a mask. */
  lemma FourTurnsIdentity(c: Dir)
    requires IsMask(c)
    ensures Turns(c, 4) == c
  {
    assert Turns(c, 1) == RotateConn(Turns(c, 0));
    assert Turns(c, 2) == RotateConn(Turns(c, 1));
    assert Turns(c, 3) == RotateConn(Turns(c, 2));
    assert Turns(c, 4) == RotateConn(Turns(c, 3));
  }

  /** Quarter turns preserve the number of wires of a mask. */
  lemma {:induction false} TurnsPreservePopCount(c: Dir, n: nat)
    requires IsMask(c)
    ensures IsMask(Turns(c, n))
    ensures PopCount(Turns(c, n)) == PopCount(c)
  {
    if n > 0 {
      TurnsPreservePopCount(c, n - 1);
    }
  }

  /** The one-step `Shuffle` formula with count `r` equals `r` quarter turns; `r == 0` is the identity. */
  lemma RotateByIsTurns(c: Dir, r: int)
    requires IsMask(c) && 0 <= r < 4
    ensures RotateConnBy(c, r) == Turns(c, r)
    ensures RotateConnBy(c, 0) == c
  {
    if r == 0 {
    } else if r == 1 {
    } else if r == 2 {
    } else {
      assert Turns(c, 3) == RotateConn(Turns(c, 2));
    }
  }

  /** `4 - r` further quarter turns undo a `Shuffle` rotation by `r`. */
  lemma RotateByUndo(c: Dir, r: int)
    requires IsMask(c) && 0 <= r < 4
    ensures Turns(RotateConnBy(c, r), 4 - r) == c
  {
    RotateByIsTurns(c, r);
    TurnsAdd(c, r, 4 - r);
    FourTurnsIdentity(c);
  }

  lemma {:induction false} TurnsAdd(c: Dir, m: nat, n: nat)
    ensures Turns(Turns(c, m), n) == Turns(c, m + n)
  {
    if n > 0 {
      TurnsAdd(c, m, n - 1);
    }
  }

  /** A turned mask is still a mask with the same number of wires. */
  lemma TurnedPreservesPopCount(a: Dir, c: Dir)
    requires IsMask(a) && Turned(a, c)
    ensures IsMask(c) && PopCount(c) == PopCount(a)
  {
    if c == Turns(a, 1) {
      TurnsPreservePopCount(a, 1);
    } else if c == Turns(a, 2) {
      TurnsPreservePopCount(a, 2);
    } else if c == Turns(a, 3) {
      TurnsPreservePopCount(a, 3);
    }
  }

  /** A mask has exactly one wire iff it is a single direction. */
  lemma SingleWireIsDir(c: Dir)
    requires IsMask(c)
    ensures PopCount(c) == 1 <==> IsDir(c)
  {
  }

  /** Adding a direction bit the mask lacks adds exactly one wire. */
  lemma AddWire(c: Dir, d: Dir)
    requires IsMask(c) && IsDir(d) && c & d == 0
    ensures IsMask(c | d)
    ensures PopCount(c | d) == PopCount(c) + 1
  {
    if d == Up {
    } else if d == Right {
    } else if d == Down {
    } else {
    }
  }
}
