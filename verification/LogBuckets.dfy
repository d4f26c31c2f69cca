/**
  The logarithmic buckets of a latency sketch, over exact reals: bucket k holds the values in
  (gamma^(k-1), gamma^k] with gamma = 1.01 / 0.99.
 */
module LogBuckets {
  import opened Uvarint

  const GAMMA: real := 101.0 / 99.0

  function Pow(k: nat): (p: real)
    ensures p >= 1.0
  {
    if k == 0 then 1.0 else
    GammaGrows(Pow(k - 1));
    GAMMA * Pow(k - 1)
  }

  lemma GammaGrows(x: real)
    requires x >= 1.0
    ensures GAMMA * x >= x + 2.0 / 99.0
  {
    assert GAMMA * x == x + (2.0 / 99.0) * x;
    assert (2.0 / 99.0) * x >= 2.0 / 99.0;
  }

  lemma {:induction false} PowMonotone(a: nat, b: nat)
    requires a <= b
    ensures Pow(a) <= Pow(b)
    decreases b
  {
    if a < b {
      PowMonotone(a, b - 1);
      GammaGrows(Pow(b - 1));
    }
  }

  lemma {:induction false} PowGrows(k: nat)
    ensures Pow(k) >= 1.0 + k as real * (2.0 / 99.0)
  {
    if k > 0 {
      PowGrows(k - 1);
      GammaGrows(Pow(k - 1));
      assert k as real * (2.0 / 99.0) == (k - 1) as real * (2.0 / 99.0) + 2.0 / 99.0;
    }
  }

  /** The least k from `from` on whose upper bound reaches v. */
  function KeyFrom(v: int, from: nat): (k: nat)
    requires v >= 1
    ensures k >= from && v as real <= Pow(k) && (k > from ==> Pow(k - 1) < v as real)
    decreases 50 * v - from
  {
    if v as real <= Pow(from) then from else
    SearchEnds(v, from);
    KeyFrom(v, from + 1)
  }

  lemma SearchEnds(v: int, k: nat)
    requires v >= 1 && v as real > Pow(k)
    ensures k < 50 * v
  {
    PowGrows(k);
    assert k as real * (2.0 / 99.0) < v as real;
    assert k as real * 2.0 < 99.0 * v as real;
  }

  /** ceil(log(v) / log(gamma)): the bucket of a positive value. */
  function Key(v: int): (k: nat)
    requires v >= 1
    ensures v as real <= Pow(k) && (k > 0 ==> Pow(k - 1) < v as real)
  {
    KeyFrom(v, 0)
  }

  /** The bucket is the only one whose half-open range holds the value. */
  lemma KeyUnique(v: int, k: nat)
    requires v >= 1 && v as real <= Pow(k) && (k > 0 ==> Pow(k - 1) < v as real)
    ensures k == Key(v)
  {
    if k < Key(v) { PowMonotone(k, Key(v) - 1); }
    if Key(v) < k { PowMonotone(Key(v), k - 1); }
  }

  lemma KeyMonotone(a: int, b: int)
    requires 1 <= a <= b
    ensures Key(a) <= Key(b)
  {
    if Key(b) < Key(a) { PowMonotone(Key(b), Key(a) - 1); }
  }

  function Pow2(j: nat): nat {
    if j == 0 then 1 else Pow2(j - 1) + Pow2(j - 1)
  }

  lemma {:induction false} PowAdds(a: nat, b: nat)
    ensures Pow(a + b) == Pow(a) * Pow(b)
  {
    if b > 0 {
      PowAdds(a, b - 1);
      assert GAMMA * (Pow(a) * Pow(b - 1)) == Pow(a) * (GAMMA * Pow(b - 1));
    }
  }

  function Fifties(j: nat): nat {
    if j == 0 then 0 else Fifties(j - 1) + 50
  }

  /** Fifty buckets at least double the bound. */
  lemma {:induction false} FiftyBucketsDouble(j: nat)
    ensures Pow(Fifties(j)) >= Pow2(j) as real
  {
    if j > 0 {
      FiftyBucketsDouble(j - 1);
      DoubleAfter(Fifties(j - 1), Fifties(j) - Fifties(j - 1));
    }
  }

  lemma DoubleAfter(a: nat, n: nat)
    requires n >= 50
    ensures Pow(a + n) >= Pow(a) + Pow(a)
  {
    PowAdds(a, n);
    PowGrows(n);
    assert n as real * (2.0 / 99.0) >= 50.0 * (2.0 / 99.0);
    DoublesAtLeast(Pow(a), Pow(n));
  }

  lemma DoublesAtLeast(p: real, q: real)
    requires p >= 0.0 && q >= 2.0
    ensures p * q >= p + p
  {
    assert p * (q - 2.0) >= 0.0;
  }

  lemma {:induction false} Pow2Adds(a: nat, b: nat)
    ensures Pow2(a + b) == Pow2(a) * Pow2(b)
  {
    if b > 0 { Pow2Adds(a, b - 1); }
  }

  lemma {:induction false} FiftiesIs(j: nat)
    ensures Fifties(j) == 50 * j
  {
    if j > 0 { FiftiesIs(j - 1); }
  }

  lemma Pow2Cubes(a: nat)
    ensures Pow2(a + a + a) == Pow2(a) * Pow2(a) * Pow2(a)
  {
    Pow2Adds(a, a);
    Pow2Adds(a + a, a);
  }

  lemma TopPowerOfTwo(a: nat)
    requires Pow2(a) == 128
    ensures Pow2((a + a + a) + (a + a + a) + (a + a + a)) == MAX_INT64 + 1
  {
    Pow2Cubes(a);
    Pow2Cubes(a + a + a);
  }

  /** Keys of int64 latencies are small, so every one of them is an int64. */
  lemma KeyBound(v: int)
    requires 1 <= v <= MAX_INT64
    ensures Key(v) <= 3150
  {
    assert Pow2(7) == 128;
    KeyBoundAt(v, 7);
  }

  lemma KeyBoundAt(v: int, a: nat)
    requires 1 <= v <= MAX_INT64 && Pow2(a) == 128
    ensures Key(v) <= 450 * a
  {
    var j := (a + a + a) + (a + a + a) + (a + a + a);
    TopPowerOfTwo(a);
    FiftyBucketsDouble(j);
    FiftiesIs(j);
    if Key(v) > Fifties(j) { PowMonotone(Fifties(j), Key(v) - 1); }
  }

  // ----- representatives -----

  /** gamma^k for any int64 key, as math.Pow gives it. */
  function Upper(k: int): real {
    if k >= 0 then Pow(k) else 1.0 / Pow(-k)
  }

  /** The unrounded representative of a bucket. */
  function Representative(k: int): real {
    2.0 * Upper(k) / (GAMMA + 1.0)
  }

  /** sketchRepresentativeValue: rounded to the nearest integer and kept inside [1, MaxInt64]. */
  function RepresentativeValue(k: int): int {
    var r := (Representative(k) + 0.5).Floor;
    if r < 1 then 1 else if r > MAX_INT64 then MAX_INT64 else r
  }

  /** The unrounded representative of a value's bucket is within one percent of the value. */
  lemma OnePercent(v: int)
    requires v >= 1
    ensures 0.99 * v as real <= Representative(Key(v)) <= 1.01 * v as real
  {
    var k := Key(v);
    assert Representative(k) == 0.99 * Pow(k);
    if k > 0 {
      assert Pow(k) == GAMMA * Pow(k - 1);
      assert 0.99 * Pow(k) == 1.01 * Pow(k - 1);
    } else {
      assert v == 1;
    }
  }

  /** After rounding and clamping the error grows by at most one half. */
  lemma RoundedOnePercent(v: int)
    requires 1 <= v <= MAX_INT64
    ensures 0.99 * v as real - 0.5 <= RepresentativeValue(Key(v)) as real <= 1.01 * v as real + 0.5
  {
    OnePercent(v);
  }

  /** Every representative is a positive int64; the keys that no positive integer has stand for 1. */
  lemma RepresentativeRange(k: int)
    ensures 1 <= RepresentativeValue(k) <= 0x7FFF_FFFF_FFFF_FFFF
    ensures k <= 0 ==> RepresentativeValue(k) == 1
  {
    if k < 0 {
      InverseAtMostOne(Pow(-k));
      assert Representative(k) == 0.99 * Upper(k);
    }
  }

  lemma InverseAtMostOne(p: real)
    requires p >= 1.0
    ensures 1.0 / p <= 1.0
  {
  }
}
