/** Jump consistent hashing, as the sharding filter uses it. */
module Jump {

  type U64 = x: int | 0 <= x < 0x1_0000_0000_0000_0000

  const MULTIPLIER := 2862933555777941757
  const TWO31 := 0x8000_0000
  const TWO32 := 0x1_0000_0000
  const TWO33 := 0x2_0000_0000
  const TWO53 := 0x20_0000_0000_0000
  const TWO63 := 0x8000_0000_0000_0000
  const TWO64 := 0x1_0000_0000_0000_0000

  /** The farthest jump: from bucket 2^32 - 2, by the largest ratio. It is a float64, and below 2^63. */
  const FARTHEST := (TWO32 - 1) * TWO31

  predicate Exact(rnd: real -> real, i: int) {
    rnd(i as real) == i as real
  }

  /** What the algorithm needs of float64 rounding: monotone, exact on integers up to 2^53 and on the farthest jump. */
  ghost predicate Rounding(rnd: real -> real) {
    && (forall x, y :: x <= y ==> rnd(x) <= rnd(y))
    && (forall i: int :: -TWO53 <= i <= TWO53 ==> Exact(rnd, i))
    && Exact(rnd, FARTHEST)
  }

  /** The linear congruential step of the key, in 64-bit wrap-around arithmetic. */
  function NextKey(key: U64): (r: U64)
    ensures (key * 2862933555777941757 + 1 - r) % 0x1_0000_0000_0000_0000 == 0
  {
    (key * MULTIPLIER + 1) % TWO64
  }

  /** `float64(int64(1)<<31) / float64((key>>33)+1)` */
  function Ratio(rnd: real -> real, key: U64): real {
    rnd(TWO31 as real / ((key / TWO33) + 1) as real)
  }

  /** The jump that follows bucket `b`, computed in floating point from the advanced key. */
  function NextJump(rnd: real -> real, key: U64, b: int): int {
    rnd((b + 1) as real * Ratio(rnd, key)).Floor
  }

  /** A Go conversion to int32: the low 32 bits, as a signed number. */
  function Int32(x: int): (r: int)
    ensures -TWO31 <= r < TWO31
    ensures -TWO31 <= x < TWO31 ==> r == x
    ensures (r - x) % TWO32 == 0
  {
    (x + TWO31) % TWO32 - TWO31
  }

  lemma Int32Wraps(x: int)
    requires 0 <= x < TWO32
    ensures Int32(x) == if x < TWO31 then x else x - TWO32
  {
  }

  lemma RatioBounds(rnd: real -> real, key: U64)
    requires Rounding(rnd)
    ensures 1.0 <= Ratio(rnd, key) <= TWO31 as real
  {
    var d := (key / TWO33) + 1;
    assert 1 <= d <= TWO31;
    var q := TWO31 as real / d as real;
    assert q * d as real == TWO31 as real;
    assert 1.0 <= q <= TWO31 as real;
    assert Exact(rnd, 1) && Exact(rnd, TWO31);
  }

  lemma MulBound(x: real, r: real, mx: real, mr: real)
    requires 0.0 <= x <= mx && 1.0 <= r <= mr
    ensures x <= x * r <= mx * mr
  {
    assert x * (r - 1.0) >= 0.0;
    assert x * (mr - r) >= 0.0;
    assert (mx - x) * mr >= 0.0;
  }

  lemma RoundsBetween(rnd: real -> real, lo: int, y: real, hi: int)
    requires Rounding(rnd) && Exact(rnd, lo) && Exact(rnd, hi) && lo as real <= y <= hi as real
    ensures lo <= rnd(y).Floor <= hi
  {
    assert rnd(lo as real) <= rnd(y) <= rnd(hi as real);
  }

  lemma Product(x: real, r: real) returns (y: real)
    requires 0.0 <= x <= (TWO32 - 1) as real && 1.0 <= r <= TWO31 as real
    ensures y == x * r && x <= y <= FARTHEST as real
  {
    y := x * r;
    MulBound(x, r, (TWO32 - 1) as real, TWO31 as real);
  }

  lemma Scaled(b: int, r: real) returns (y: real)
    requires 0 <= b < TWO32 - 1 && 1.0 <= r <= TWO31 as real
    ensures y == (b + 1) as real * r && (b + 1) as real <= y <= FARTHEST as real
  {
    var x := (b + 1) as real;
    y := Product(x, r);
  }

  /** Jumps go strictly forward, and stay within int64 as long as there are less than 2^32 buckets. */
  lemma JumpForward(rnd: real -> real, key: U64, b: int)
    requires Rounding(rnd)
    requires 0 <= b < TWO32 - 1
    ensures b < NextJump(rnd, key, b) <= FARTHEST < TWO63
  {
    RatioBounds(rnd, key);
    var y := Scaled(b, Ratio(rnd, key));
    assert Exact(rnd, b + 1) && Exact(rnd, FARTHEST);
    RoundsBetween(rnd, b + 1, y, FARTHEST);
  }

  /** The last jump below `n` when the loop stands at candidate `j`, having last accepted `b`. */
  function LastJump(rnd: real -> real, key: U64, b: int, j: int, n: int): (r: int)
    requires Rounding(rnd)
    requires -1 <= b < j && n < TWO32
    ensures b <= r && (j < n ==> j <= r < n) && (n <= j ==> r == b)
    decreases n - j
  {
    if j < n then
      var key' := NextKey(key);
      JumpForward(rnd, key', j);
      LastJump(rnd, key', j, NextJump(rnd, key', j), n)
    else b
  }

  /** The bucket of a key: the largest jump below the number of buckets, as an int32. */
  function Bucket(rnd: real -> real, key: U64, n: int): (r: int)
    requires Rounding(rnd)
    requires n < TWO32
    ensures 1 <= n <= TWO31 ==> 0 <= r < n
    ensures n < 1 ==> r == -1
  {
    Int32(LastJump(rnd, key, -1, 0, n))
  }

  /** The jump-hash loop. It ends for every key, and no jump leaves int64. */
  method Hash(rnd: real -> real, key: U64, n: int) returns (bucket: int)
    requires Rounding(rnd)
    requires n < TWO32
    ensures bucket == Bucket(rnd, key, n)
    ensures 1 <= n <= TWO31 ==> 0 <= bucket < n
    ensures n < 1 ==> bucket == -1
  {
    var k, b, j := key, -1, 0;
    while j < n
      invariant -1 <= b < j < TWO63 && b < TWO32 - 1
      invariant LastJump(rnd, k, b, j, n) == LastJump(rnd, key, -1, 0, n)
      decreases n - j
    {
      b := j;
      k := NextKey(k);
      JumpForward(rnd, k, b);
      j := NextJump(rnd, k, b);
    }
    bucket := Int32(b);
  }

  // ---- the jump sequence of Lamping and Veach

  /** The key after `i` steps. */
  function KeyAt(key: U64, i: nat): U64 {
    if i == 0 then key else NextKey(KeyAt(key, i - 1))
  }

  /** The `i`-th jump of a key: the buckets it moves to as their number grows. */
  function JumpAt(rnd: real -> real, key: U64, i: nat): int {
    if i == 0 then 0 else NextJump(rnd, KeyAt(key, i), JumpAt(rnd, key, i - 1))
  }

  lemma {:induction false} LastJumpIsJumpAt(rnd: real -> real, key: U64, b: int, i: nat, n: int) returns (m: nat)
    requires Rounding(rnd)
    requires n < TWO32 && -1 <= b < JumpAt(rnd, key, i) < n
    ensures LastJump(rnd, KeyAt(key, i), b, JumpAt(rnd, key, i), n) == JumpAt(rnd, key, m)
    ensures JumpAt(rnd, key, m) < n <= JumpAt(rnd, key, m + 1)
    decreases n - JumpAt(rnd, key, i)
  {
    var j, j' := JumpAt(rnd, key, i), JumpAt(rnd, key, i + 1);
    OneJump(rnd, KeyAt(key, i), b, j, KeyAt(key, i + 1), j', n);
    if j' < n {
      m := LastJumpIsJumpAt(rnd, key, j, i + 1, n);
    } else {
      m := i;
    }
  }

  /** The bucket is the jump below `n` whose successor is not, as an int32. */
  lemma BucketIsLastJumpBelow(rnd: real -> real, key: U64, n: int) returns (m: nat)
    requires Rounding(rnd)
    requires 1 <= n < TWO32
    ensures JumpAt(rnd, key, m) < n <= JumpAt(rnd, key, m + 1)
    ensures Bucket(rnd, key, n) == Int32(JumpAt(rnd, key, m))
  {
    m := LastJumpIsJumpAt(rnd, key, -1, 0, n);
  }

  /** No rounding at all: one admissible way to compute. */
  function Unrounded(x: real): real {
    x
  }

  lemma UnroundedIsRounding()
    ensures Rounding(Unrounded)
  {
  }

  lemma CancelLe(a: real, b: real, d: real)
    requires d > 0.0 && a * d <= b * d
    ensures a <= b
  {
  }

  lemma CancelLt(a: real, b: real, d: real)
    requires d > 0.0 && a * d < b * d
    ensures a < b
  {
  }

  lemma Quotient(x: int, d: int, q: int)
    requires d > 0 && q * d <= x < (q + 1) * d
    ensures (x as real / d as real).Floor == q
  {
    var y := x as real / d as real;
    assert y * d as real == x as real;
    assert q as real * d as real == (q * d) as real;
    assert (q + 1) as real * d as real == ((q + 1) * d) as real;
    CancelLe(q as real, y, d as real);
    CancelLt(y, (q + 1) as real, d as real);
  }

  lemma Regroup(x: real, y: real, d: real)
    requires d > 0.0
    ensures x * (y / d) == (x * y) / d
  {
  }

  /** Without rounding, the next jump is `(b + 1) * 2^31` divided by one more than the top 31 bits of the key. */
  lemma ExactJump(key: U64, b: int, q: int)
    requires b >= 0
    requires q * (key / 0x2_0000_0000 + 1) <= (b + 1) * 0x8000_0000 < (q + 1) * (key / 0x2_0000_0000 + 1)
    ensures NextJump(Unrounded, key, b) == q
  {
    var d, x := key / TWO33 + 1, (b + 1) * TWO31;
    Quotient(x, d, q);
    Regroup((b + 1) as real, TWO31 as real, d as real);
    assert x as real == (b + 1) as real * TWO31 as real;
  }

  /** The int32 keeps the jump exactly if it is below 2^31; a larger one turns negative, and is nobody's shard. */
  lemma LargeBucketsTurnNegative(rnd: real -> real, key: U64, n: int)
    requires Rounding(rnd)
    requires 1 <= n < TWO32
    ensures var jump := LastJump(rnd, key, -1, 0, n);
            if jump < TWO31 then Bucket(rnd, key, n) == jump else Bucket(rnd, key, n) == jump - TWO32 < 0
  {
    Int32Wraps(LastJump(rnd, key, -1, 0, n));
  }

  /** Key 0 jumps from bucket 0 straight to 2^31. */
  lemma ZeroKeyJumps(rnd: real -> real)
    requires Rounding(rnd)
    ensures NextKey(0) == 1 && NextJump(rnd, 1, 0) == TWO31
  {
    assert Exact(rnd, TWO31);
    assert 1 / TWO33 == 0;
    assert TWO31 as real / 1 as real == TWO31 as real;
    assert Ratio(rnd, 1) == TWO31 as real;
    assert 1 as real * TWO31 as real == TWO31 as real;
  }

  /** The failing input: with more than 2^31 buckets, key 0 gets a negative one, however floats are rounded. */
  lemma ZeroKeyIsLost(rnd: real -> real, n: int)
    requires Rounding(rnd)
    requires TWO31 < n < TWO32
    ensures Bucket(rnd, 0, n) < 0
  {
    ZeroKeyJumps(rnd);
    OneJump(rnd, 0, -1, 0, 1, TWO31, n);
    LargeBucketsTurnNegative(rnd, 0, n);
  }

  /** Every key gets a bucket iff there are between 1 and 2^31 of them. */
  lemma BucketsAreInRangeIff(rnd: real -> real, n: int)
    requires Rounding(rnd)
    requires n < TWO32
    ensures (forall key: U64 :: 0 <= Bucket(rnd, key, n) < n) <==> 1 <= n <= TWO31
  {
    if n > TWO31 {
      ZeroKeyIsLost(rnd, n);
    } else if n < 1 {
      assert Bucket(rnd, 0, n) == -1;
    }
  }

  lemma {:induction false} LastJumpGrow(rnd: real -> real, key: U64, b: int, j: int, n: int)
    requires Rounding(rnd)
    requires -1 <= b < j && n < TWO32 - 1
    ensures LastJump(rnd, key, b, j, n + 1) == LastJump(rnd, key, b, j, n) || LastJump(rnd, key, b, j, n + 1) == n
    decreases n - j
  {
    if j < n {
      var key' := NextKey(key);
      JumpForward(rnd, key', j);
      LastJumpGrow(rnd, key', j, NextJump(rnd, key', j), n);
    }
  }

  /** Consistency: one more bucket moves a key nowhere but to the new bucket. */
  lemma GrowMovesOnlyToNewBucket(rnd: real -> real, key: U64, n: int)
    requires Rounding(rnd)
    requires 1 <= n < TWO31
    ensures Bucket(rnd, key, n + 1) == Bucket(rnd, key, n) || Bucket(rnd, key, n + 1) == n
  {
    LastJumpGrow(rnd, key, -1, 0, n);
  }

  /** Growing by any number of buckets: a key stays where it is or moves to one of the new buckets. */
  lemma {:induction false} GrowByMany(rnd: real -> real, key: U64, n: int, m: int)
    requires Rounding(rnd)
    requires 1 <= n <= m <= TWO31
    ensures Bucket(rnd, key, m) == Bucket(rnd, key, n) || n <= Bucket(rnd, key, m) < m
    decreases m - n
  {
    if n < m {
      GrowByMany(rnd, key, n, m - 1);
      GrowMovesOnlyToNewBucket(rnd, key, m - 1);
    }
  }

  // ---- keys with different buckets

  /** A key that jumps from 0 to 1. */
  const KEY_TO_1: U64 := 4626093953513826134

  /** A key that jumps from 0 to 2^30, and from there beyond 2^32. */
  const KEY_TO_TWO30: U64 := 6004266571019785131

  /** One turn of the loop. */
  lemma OneJump(rnd: real -> real, key: U64, b: int, j: int, key': U64, j': int, n: int)
    requires Rounding(rnd) && -1 <= b < j < n < TWO32
    requires NextKey(key) == key' && NextJump(rnd, key', j) == j'
    ensures j < j' && LastJump(rnd, key, b, j, n) == LastJump(rnd, key', j, j', n)
  {
    JumpForward(rnd, key', j);
  }

  lemma NextKeys()
    ensures NextKey(KEY_TO_1) == 18446744073709551615
    ensures NextKey(KEY_TO_TWO30) == 8589934592 && NextKey(8589934592) == 1108274709679570945
  {
  }

  lemma KeyTo1(n: int)
    requires 2 <= n <= TWO31
    ensures Rounding(Unrounded) && Bucket(Unrounded, KEY_TO_1, n) >= 1
  {
    var k := 18446744073709551615;
    UnroundedIsRounding();
    NextKeys();
    ExactJump(k, 0, 1);
    OneJump(Unrounded, KEY_TO_1, -1, 0, k, 1, n);
  }

  lemma KeyToTwo30(n: int)
    requires TWO31 < n < TWO32
    ensures Rounding(Unrounded) && Bucket(Unrounded, KEY_TO_TWO30, n) >= 0
  {
    var k1, k2 := 8589934592, 1108274709679570945;
    UnroundedIsRounding();
    NextKeys();
    ExactJump(k1, 0, 1073741824);
    ExactJump(k2, 1073741824, 17871959289);
    OneJump(Unrounded, KEY_TO_TWO30, -1, 0, k1, 1073741824, n);
    OneJump(Unrounded, k1, 0, 1073741824, k2, 17871959289, n);
  }

  lemma ZeroKeyStays(rnd: real -> real, n: int)
    requires Rounding(rnd)
    requires 1 <= n <= TWO31
    ensures Bucket(rnd, 0, n) == 0
  {
    ZeroKeyJumps(rnd);
    OneJump(rnd, 0, -1, 0, 1, TWO31, n);
  }

  /** For every number of buckets but one, the key matters. */
  lemma KeyMatters(n: int) returns (key: U64)
    requires 2 <= n < TWO32
    ensures Rounding(Unrounded) && Bucket(Unrounded, key, n) != Bucket(Unrounded, 0, n)
  {
    UnroundedIsRounding();
    if n <= TWO31 {
      key := KEY_TO_1;
      KeyTo1(n);
      ZeroKeyStays(Unrounded, n);
    } else {
      key := KEY_TO_TWO30;
      KeyToTwo30(n);
      ZeroKeyIsLost(Unrounded, n);
    }
  }
}
