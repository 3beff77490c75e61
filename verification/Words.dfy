/** Unsigned machine words as naturals: the bitwise operators that a network
    mask needs, defined bit by bit, and the arithmetic they amount to. Scaling
    by a power of two is repeated doubling and halving, so that no proof needs
    products or quotients of two variables. */
module Words {
  function Pow2(n: nat): (p: nat)
    ensures p > 0
  {
    if n == 0 then 1 else 2 * Pow2(n - 1)
  }

  /** x times 2^k. */
  function Times(x: nat, k: nat): nat {
    if k == 0 then x else 2 * Times(x, k - 1)
  }

  /** The k low bits of `x`: x modulo 2^k. */
  function Low(x: nat, k: nat): nat {
    if k == 0 then 0 else 2 * Low(x / 2, k - 1) + x % 2
  }

  /** `x >> k`: x divided by 2^k. */
  function Shr(x: nat, k: nat): nat {
    if k == 0 then x else Shr(x / 2, k - 1)
  }

  /** `x << k` in a word of `width` bits: the bits shifted out are lost. */
  function Shl(x: nat, k: nat, width: nat): nat {
    Low(Times(x, k), width)
  }

  /** `x & y`. */
  function And(x: nat, y: nat): nat {
    if x == 0 || y == 0 then 0
    else 2 * And(x / 2, y / 2) + (if x % 2 == 1 && y % 2 == 1 then 1 else 0)
  }

  lemma {:induction false} TimesIsProduct(x: nat, k: nat)
    ensures Times(x, k) == x * Pow2(k)
  {
    if k > 0 {
      TimesIsProduct(x, k - 1);
    }
  }

  lemma {:induction false} LowBound(x: nat, k: nat)
    ensures Low(x, k) < Pow2(k)
  {
    if k > 0 {
      LowBound(x / 2, k - 1);
    }
  }

  lemma {:induction false} TimesTimes(x: nat, a: nat, b: nat)
    ensures Times(Times(x, a), b) == Times(x, a + b)
  {
    if b > 0 {
      TimesTimes(x, a, b - 1);
    }
  }

  lemma {:induction false} TimesOne(k: nat)
    ensures Times(1, k) == Pow2(k)
  {
    if k > 0 {
      TimesOne(k - 1);
    }
  }

  lemma {:induction false} Pow2Monotone(m: nat, n: nat)
    requires m <= n
    ensures Pow2(m) <= Pow2(n)
    decreases n
  {
    if m < n {
      Pow2Monotone(m, n - 1);
    }
  }

  /** Every number is its high bits and its k low bits. */
  lemma {:induction false} Split(x: nat, k: nat)
    ensures x == Times(Shr(x, k), k) + Low(x, k)
  {
    if k > 0 {
      Split(x / 2, k - 1);
    }
  }

  /** ... in exactly one way. */
  lemma {:induction false} SplitUnique(high: nat, low: nat, k: nat)
    requires low < Pow2(k)
    ensures Shr(Times(high, k) + low, k) == high && Low(Times(high, k) + low, k) == low
  {
    if k > 0 {
      SplitUnique(high, low / 2, k - 1);
      assert (Times(high, k) + low) / 2 == Times(high, k - 1) + low / 2;
    }
  }

  lemma {:induction false} LowSmall(x: nat, k: nat)
    requires x < Pow2(k)
    ensures Low(x, k) == x && Shr(x, k) == 0
  {
    if k > 0 {
      LowSmall(x / 2, k - 1);
    }
  }

  /** Masking with k ones keeps the k low bits. */
  lemma {:induction false} AndLowMask(x: nat, k: nat)
    ensures And(x, Pow2(k) - 1) == Low(x, k)
  {
    if k > 0 {
      AndLowMask(x / 2, k - 1);
      if x == 0 { LowSmall(0, k); }
    }
  }

  /** Masking with w-k ones followed by k zeros clears the k low bits. */
  lemma {:induction false} AndHighMask(x: nat, w: nat, k: nat)
    requires k <= w && x < Pow2(w)
    ensures Pow2(k) <= Pow2(w) && And(x, Pow2(w) - Pow2(k)) == x - Low(x, k)
  {
    Pow2Monotone(k, w);
    if k == 0 {
      AndLowMask(x, w);
      LowSmall(x, w);
    } else if x == 0 {
      LowSmall(0, k);
    } else {
      AndHighMask(x / 2, w - 1, k - 1);
      assert (Pow2(w) - Pow2(k)) / 2 == Pow2(w - 1) - Pow2(k - 1);
    }
  }

  lemma TimesPow2(a: nat, k: nat)
    ensures Times(Pow2(a), k) == Pow2(a + k)
  {
    TimesOne(a);
    TimesTimes(1, a, k);
    TimesOne(a + k);
  }

  lemma {:induction false} TimesSubtract(x: nat, y: nat, k: nat)
    requires y <= x
    ensures Times(y, k) <= Times(x, k) && Times(x - y, k) == Times(x, k) - Times(y, k)
  {
    if k > 0 {
      TimesSubtract(x, y, k - 1);
    }
  }

  /** A word of ones shifted left: w-k ones, then k zeros. */
  lemma ShiftedOnes(w: nat, k: nat)
    requires k <= w
    ensures Pow2(k) <= Pow2(w) && Shl(Pow2(w) - 1, k, w) == Pow2(w) - Pow2(k)
  {
    Pow2Monotone(k, w);
    TimesSubtract(Pow2(w), 1, k);
    TimesPow2(w, k);
    TimesOne(k);
    TimesSubtract(Pow2(k), 1, w);
    TimesPow2(k, w);
    TimesOne(w);
    SplitUnique(Pow2(k) - 1, Pow2(w) - Pow2(k), w);
  }

  /** Clearing the k low bits of two words gives the same word exactly when one
      lies in the block of 2^k words that starts where the other is cleared. */
  lemma SameBlock(x: nat, y: nat, k: nat)
    ensures Low(x, k) <= x && Low(y, k) <= y
    ensures x - Low(x, k) == y - Low(y, k) <==> y - Low(y, k) <= x < y - Low(y, k) + Pow2(k)
  {
    Split(x, k);
    Split(y, k);
    LowBound(x, k);
    var base := y - Low(y, k);
    if base <= x < base + Pow2(k) {
      SplitUnique(Shr(y, k), x - base, k);
    }
  }
}
