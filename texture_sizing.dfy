/** Power-of-two texture sizing of `GPUSimulation`: `getNextPowerOfTwo` and
    `getTextureDimensionsPot`, stated over naturals. The source computes them
    with `Math.log`, `Math.sqrt` and `Math.pow`; here they are the integer
    functions those expressions are meant to compute. */
module TextureSizing {
  import opened Three

  /** 2 to the power k. */
  function Pow2(k: nat): (r: nat)
    ensures r >= 1
  {
    if k == 0 then 1 else 2 * Pow2(k - 1)
  }

  /** x is a power of two, defined by halving (independent of Pow2). */
  predicate IsPowerOfTwo(x: nat)
    decreases x
  {
    x == 1 || (x >= 2 && x % 2 == 0 && IsPowerOfTwo(x / 2))
  }

  /** The exponent of a power of two. */
  function Log2(x: nat): (k: nat)
    requires IsPowerOfTwo(x)
    ensures Pow2(k) == x
    decreases x
  {
    if x == 1 then 0 else Log2(x / 2) + 1
  }

  lemma {:induction false} Pow2IsPowerOfTwo(k: nat)
    ensures IsPowerOfTwo(Pow2(k))
  {
    if k > 0 {
      Pow2IsPowerOfTwo(k - 1);
      assert Pow2(k) / 2 == Pow2(k - 1);
    }
  }

  lemma {:induction false} Pow2Monotone(i: nat, j: nat)
    requires i <= j
    ensures Pow2(i) <= Pow2(j)
    decreases j - i
  {
    if i < j {
      Pow2Monotone(i, j - 1);
    }
  }

  lemma {:induction false} Pow2StrictlyMonotone(i: nat, j: nat)
    requires i < j
    ensures Pow2(i) < Pow2(j)
  {
    Pow2Monotone(i, j - 1);
  }

  lemma {:induction false} Pow2Add(i: nat, j: nat)
    ensures Pow2(i) * Pow2(j) == Pow2(i + j)
  {
    if i > 0 {
      Pow2Add(i - 1, j);
      calc {
        Pow2(i) * Pow2(j);
        2 * (Pow2(i - 1) * Pow2(j));
        2 * Pow2(i - 1 + j);
        Pow2(i + j);
      }
    }
  }

  /** ceil(log2(v)) for v >= 1: the least k with 2^k >= v. */
  function CeilLog2(v: nat): (k: nat)
    requires v >= 1
    ensures Pow2(k) >= v
    ensures k > 0 ==> Pow2(k - 1) < v
  {
    if v == 1 then 0 else CeilLog2((v + 1) / 2) + 1
  }

  /** No exponent below CeilLog2(v) reaches v. */
  lemma {:induction false} CeilLog2Least(v: nat, k: nat)
    requires v >= 1 && Pow2(k) >= v
    ensures k >= CeilLog2(v)
  {
    if v > 1 {
      assert k >= 1;
      CeilLog2Least((v + 1) / 2, k - 1);
    }
  }

  /** `getNextPowerOfTwo(v)` for an integer v >= 1: 2^ceil(log2 v). */
  function NextPowerOfTwo(v: nat): (r: nat)
    requires v >= 1
    ensures IsPowerOfTwo(r)
    ensures v <= r < 2 * v
  {
    Pow2IsPowerOfTwo(CeilLog2(v));
    Pow2(CeilLog2(v))
  }

  /** NextPowerOfTwo(v) is the least power of two that is at least v. */
  lemma NextPowerOfTwoIsLeast(v: nat, m: nat)
    requires v >= 1 && IsPowerOfTwo(m) && m >= v
    ensures NextPowerOfTwo(v) <= m
  {
    var k := Log2(m);
    CeilLog2Least(v, k);
    Pow2Monotone(CeilLog2(v), k);
  }

  /** `getNextPowerOfTwo(Math.sqrt(n))`: the least power of two m with m >= sqrt(n),
      that is m * m >= n while (m/2) * (m/2) < n. It is 2^ceil(k/2) for k = ceil(log2 n). */
  function NextPowerOfTwoOfSqrt(n: nat): (m: nat)
    requires n >= 1
    ensures IsPowerOfTwo(m)
    ensures m * m >= n
    ensures m >= 2 ==> (m / 2) * (m / 2) < n
  {
    var k := CeilLog2(n);
    var j := (k + 1) / 2;
    Pow2IsPowerOfTwo(j);
    Pow2Add(j, j);
    Pow2Monotone(k, 2 * j);
    if j == 0 then
      Pow2(j)
    else
      Pow2Add(j - 1, j - 1);
      Pow2Monotone(2 * j - 2, k - 1);
      Pow2(j)
  }

  /** The exponents behind the two candidates of `getTextureDimensionsPot`. */
  lemma CandidateExponents(n: nat)
    requires n >= 1
    ensures var k := CeilLog2(n);
            var j := (k + 1) / 2;
            NextPowerOfTwo(n) == Pow2(k) &&
            NextPowerOfTwoOfSqrt(n) == Pow2(j) &&
            (Pow2(j) * Pow2(j) == Pow2(k) <==> k % 2 == 0) &&
            (k % 2 == 1 ==> j >= 1 && Pow2(j) / 2 == Pow2(j - 1) && Pow2(j) * Pow2(j - 1) == Pow2(k))
  {
    var k := CeilLog2(n);
    var j := (k + 1) / 2;
    Pow2Add(j, j);
    if k % 2 == 1 {
      Pow2StrictlyMonotone(k, 2 * j);
      Pow2Add(j, j - 1);
    }
  }

  /** The two candidates either square to NextPowerOfTwo(n), or the smaller side is
      half of potMinor and still a power of two. */
  lemma CandidateBranches(n: nat)
    requires n >= 1
    ensures var m := NextPowerOfTwoOfSqrt(n);
            var p := NextPowerOfTwo(n);
            m * m == p ||
            (m >= 2 && m == 2 * (m / 2) && IsPowerOfTwo(m / 2) && m * (m / 2) == p)
  {
    var k := CeilLog2(n);
    var j := (k + 1) / 2;
    CandidateExponents(n);
    if k % 2 == 1 {
      Pow2IsPowerOfTwo(j - 1);
    }
  }

  /** `getTextureDimensionsPot(n)`: potMajor = sqrt(NextPowerOfTwo(n)) and
      potMinor = NextPowerOfTwoOfSqrt(n); potMajor === potMinor holds exactly when
      potMinor * potMinor == NextPowerOfTwo(n). Equal candidates give a square,
      otherwise the texture is potMinor wide and half as high. */
  function TextureDimensionsPot(n: nat): (d: Vector2)
    requires n >= 1
    ensures IsPowerOfTwo(d.x) && IsPowerOfTwo(d.y)
    ensures d.x == d.y || d.x == 2 * d.y
    ensures d.x * d.y == NextPowerOfTwo(n)
    ensures n <= d.x * d.y < 2 * n
  {
    var potMinor := NextPowerOfTwoOfSqrt(n);
    CandidateBranches(n);
    if potMinor * potMinor == NextPowerOfTwo(n) then
      Vector2(potMinor, potMinor)
    else
      Vector2(potMinor, potMinor / 2)
  }

  /** The square branch is taken exactly when ceil(log2 n) is even; the result is
      (2^(k/2), 2^(k/2)) for even k and (2^((k+1)/2), 2^((k-1)/2)) for odd k. */
  lemma TextureDimensionsByParity(n: nat)
    requires n >= 1
    ensures var k := CeilLog2(n);
            var d := TextureDimensionsPot(n);
            (d.x == d.y <==> k % 2 == 0) &&
            d == (if k % 2 == 0 then Vector2(Pow2(k / 2), Pow2(k / 2))
                  else Vector2(Pow2((k + 1) / 2), Pow2((k - 1) / 2)))
  {
    var k := CeilLog2(n);
    CandidateExponents(n);
    if k % 2 == 1 {
      Pow2StrictlyMonotone((k - 1) / 2, (k + 1) / 2);
    }
  }

  /** "Smallest pot texture dimensions to fit": no power-of-two rectangle that holds n
      items has a smaller area, and among those of the same area with a >= b none is
      closer to square. */
  lemma TextureDimensionsMostNearlySquare(n: nat, a: nat, b: nat)
    requires n >= 1
    requires IsPowerOfTwo(a) && IsPowerOfTwo(b) && a * b >= n
    ensures var d := TextureDimensionsPot(n);
            a * b >= d.x * d.y &&
            (a * b == d.x * d.y && a >= b ==> a >= d.x)
  {
    var i, j := Log2(a), Log2(b);
    Pow2Add(i, j);
    if a >= b {
      Pow2MonotoneConverse(j, i);
    }
    NearlySquareExponents(n, i, j);
  }

  /** The exponent form of TextureDimensionsMostNearlySquare, for a = 2^i and b = 2^j. */
  lemma NearlySquareExponents(n: nat, i: nat, j: nat)
    requires n >= 1 && Pow2(i + j) >= n
    ensures var d := TextureDimensionsPot(n);
            Pow2(i + j) >= d.x * d.y &&
            (Pow2(i + j) == d.x * d.y && i >= j ==> Pow2(i) >= d.x)
  {
    var d := TextureDimensionsPot(n);
    var k := CeilLog2(n);
    assert d.x * d.y == Pow2(k);
    CeilLog2Least(n, i + j);
    Pow2Monotone(k, i + j);
    if Pow2(i + j) == d.x * d.y && i >= j {
      Pow2Injective(i + j, k);
      TextureDimensionsByParity(n);
      Pow2Monotone((k + 1) / 2, i);
    }
  }

  lemma Pow2MonotoneConverse(i: nat, j: nat)
    requires Pow2(i) <= Pow2(j)
    ensures i <= j
  {
    if j < i {
      Pow2StrictlyMonotone(j, i);
    }
  }

  lemma Pow2Injective(i: nat, j: nat)
    requires Pow2(i) == Pow2(j)
    ensures i == j
  {
    if i < j {
      Pow2StrictlyMonotone(i, j);
    } else if j < i {
      Pow2StrictlyMonotone(j, i);
    }
  }

  lemma CeilLog2Exact(v: nat, k: nat)
    requires v >= 1 && Pow2(k) >= v && (k == 0 || Pow2(k - 1) < v)
    ensures CeilLog2(v) == k
  {
    CeilLog2Least(v, k);
    var c := CeilLog2(v);
    if c < k {
      Pow2Monotone(c, k - 1);
    }
  }

  /** The concrete sizes the code produces for 1, 5, 16 and 8192 items. */
  lemma TextureDimensionsExamples(n: nat)
    requires n == 1 || n == 5 || n == 16 || n == 8192
    ensures NextPowerOfTwo(1) == 1
    ensures TextureDimensionsPot(n) ==
      if n == 1 then Vector2(1, 1)
      else if n == 5 then Vector2(4, 2)
      else if n == 16 then Vector2(4, 4)
      else Vector2(128, 64)
  {
    if n == 5 {
      assert Pow2(2) == 4 && Pow2(3) == 8;
      CeilLog2Exact(5, 3);
      TextureDimensionsByParity(5);
    } else if n == 16 {
      assert Pow2(2) == 4 && Pow2(3) == 8 && Pow2(4) == 16;
      CeilLog2Exact(16, 4);
      TextureDimensionsByParity(16);
    } else if n == 8192 {
      assert Pow2(6) == 64 && Pow2(7) == 128;
      assert Pow2(12) == 4096 && Pow2(13) == 8192;
      CeilLog2Exact(8192, 13);
      TextureDimensionsByParity(8192);
    }
  }
}
