/**
 * The random source of the generator and of `Shuffle`, as an explicit oracle.
 *
 * The Go code draws from the process-wide `math/rand` generator.  Here a
 * `Rand` is an arbitrary stream of raw draws together with a cursor, so every
 * operation is deterministic in its oracle and every property proved about it
 * holds for all streams.
 */
module Random {

  datatype Rand = Rand(source: nat -> nat, pos: nat)

  /** Phase A accepts a link when `rand.Float32() < 0.7`. */
  const LinkPercent := 70

  /** Phase B extends a new branch when `rand.Float32() < 0.4`. */
  const ExtendPercent := 40

  /** The raw draw `k` places after the cursor. */
  function Peek(r: Rand, k: nat): (res: nat) {
    r.source(r.pos + k)
  }

  /** The stream advanced by `k` draws. */
  function Skip(r: Rand, k: nat): (res: Rand) {
    Rand(r.source, r.pos + k)
  }

  /** `rand.Intn(n)`: a value in `0..n-1`, consuming one draw. */
  function Intn(r: Rand, n: int): (res: (int, Rand))
    requires n > 0
    ensures 0 <= res.0 < n
    ensures res.1 == Skip(r, 1)
  {
    (Peek(r, 0) % n, Skip(r, 1))
  }

  /**
   * A trial that succeeds `percent` times in a hundred, consuming one draw;
   * it stands for the comparison `rand.Float32() < percent / 100`.
   */
  function Chance(r: Rand, percent: int): (res: (bool, Rand))
    ensures percent <= 0 ==> !res.0
    ensures percent >= 100 ==> res.0
    ensures res.1 == Skip(r, 1)
  {
    (Peek(r, 0) % 100 < percent, Skip(r, 1))
  }

  /** The outcome of a trial whose next raw draw is `d`. */
  function ChanceOn(d: nat, percent: int): (ok: bool) {
    d % 100 < percent
  }

  /** The raw draws below 100 that a trial with `percent` accepts. */
  function Accepted(percent: int): (s: set<nat>) {
    set d: nat | d < 100 && ChanceOn(d, percent)
  }

  lemma {:induction false} AcceptedSize(percent: int)
    requires 0 <= percent <= 100
    ensures |Accepted(percent)| == percent
  {
    if percent > 0 {
      assert Accepted(percent) == Accepted(percent - 1) + {percent - 1};
      AcceptedSize(percent - 1);
    }
  }

  /**
   * The acceptance rate: of the hundred residues a draw can leave modulo
   * 100, a trial with `0 <= percent <= 100` accepts exactly `percent`, and
   * its outcome depends only on the residue of the next draw.
   */
  lemma ChanceRate(r: Rand, percent: int)
    requires 0 <= percent <= 100
    ensures |Accepted(percent)| == percent
    ensures Chance(r, percent).0 == ChanceOn(Peek(r, 0), percent)
    ensures Chance(r, percent).0 <==> Peek(r, 0) % 100 in Accepted(percent)
  {
    AcceptedSize(percent);
  }

  function Swap<T>(s: seq<T>, i: int, j: int): (t: seq<T>)
    requires 0 <= i < |s| && 0 <= j < |s|
    ensures |t| == |s| && t[i] == s[j] && t[j] == s[i]
    ensures forall k :: 0 <= k < |s| && k != i && k != j ==> t[k] == s[k]
    ensures multiset(t) == multiset(s)
  {
    s[i := s[j]][j := s[i]]
  }

  /** Fisher-Yates steps `i, i-1, ..., 1` of `rand.Shuffle`: swap slot `i` with a slot drawn from `0..i`. */
  function PermuteFrom<T>(s: seq<T>, i: int, r: Rand): (res: (seq<T>, Rand))
    requires i < |s|
    ensures multiset(res.0) == multiset(s)
    ensures |res.0| == |s|
    ensures res.1.source == r.source
    decreases i
  {
    if i <= 0 then (s, r)
    else
      var (j, r1) := Intn(r, i + 1);
      PermuteFrom(Swap(s, i, j), i - 1, r1)
  }

  /** `rand.Shuffle`: a permutation of `s` chosen by the oracle. */
  function Permute<T>(s: seq<T>, r: Rand): (res: (seq<T>, Rand))
    ensures multiset(res.0) == multiset(s)
    ensures |res.0| == |s|
  {
    PermuteFrom(s, |s| - 1, r)
  }
}
