/** Powers of two and the binary digits of a natural number. */
module Binary {

  function Pow2(n: nat): (p: nat)
    ensures p >= 1
  {
    if n == 0 then 1 else 2 * Pow2(n - 1)
  }

  /** `n >> i`. */
  function Shift(n: nat, i: nat): nat
    decreases i
  {
    if i == 0 then n else Shift(n / 2, i - 1)
  }

  /** `(n >> i) & 1`. */
  function Bit(n: nat, i: nat): nat {
    Shift(n, i) % 2
  }

  /** The number formed by the low i digits. */
  function Low(n: nat, i: nat): (r: nat)
    ensures r < Pow2(i) && r <= n
    decreases i
  {
    if i == 0 then 0 else n % 2 + 2 * Low(n / 2, i - 1)
  }

  lemma {:induction false} LowStep(n: nat, i: nat)
    ensures Low(n, i + 1) == Low(n, i) + if Bit(n, i) == 1 then Pow2(i) else 0
    decreases i
  {
    if i > 0 {
      LowStep(n / 2, i - 1);
    }
  }

  lemma {:induction false} SmallNumber(n: nat, i: nat)
    requires n < Pow2(i)
    ensures Low(n, i) == n && Bit(n, i) == 0
    decreases i
  {
    if i > 0 {
      SmallNumber(n / 2, i - 1);
    }
  }

  /** Adding one without a carry out of the low i digits leaves the digits above alone. */
  lemma {:induction false} IncrementAbove(n: nat, i: nat)
    requires Low(n, i) + 1 < Pow2(i)
    ensures Low(n + 1, i) == Low(n, i) + 1 && Shift(n + 1, i) == Shift(n, i)
    decreases i
  {
    if i > 0 && n % 2 == 1 {
      IncrementAbove(n / 2, i - 1);
    }
  }

  /** Adding one to a number whose low i digits are all ones clears them and carries. */
  lemma {:induction false} IncrementCarry(n: nat, i: nat)
    requires Low(n, i) + 1 == Pow2(i)
    ensures Low(n + 1, i) == 0 && Shift(n + 1, i) == Shift(n, i) + 1
    decreases i
  {
    if i > 0 {
      IncrementCarry(n / 2, i - 1);
    }
  }

  /** Low digits of a number whose digits below `level` are all zero. */
  lemma {:induction false} TrailingZeros(n: nat, level: nat, i: nat)
    requires Low(n, level) == 0 && i <= level
    ensures Low(n, i) == 0
    ensures i < level ==> Bit(n, i) == 0
    decreases level - i
  {
    if i < level {
      TrailingZeros(n, level, i + 1);
      LowStep(n, i);
    }
  }

  /** A zero digit at `level` leaves room for one more below every higher place. */
  lemma {:induction false} RoomBelow(n: nat, level: nat, i: nat)
    requires Bit(n, level) == 0 && i > level
    ensures Low(n, i) + 1 < Pow2(i)
  {
    LowStep(n, i - 1);
    if i > level + 1 {
      RoomBelow(n, level, i - 1);
    }
  }

  /**
   Incrementing a number whose lowest zero digit is at `level`: the digits below
   clear, that digit is set, and everything above stays.
   */
  lemma IncrementDigits(n: nat, level: nat, i: nat)
    requires Low(n, level) + 1 == Pow2(level) && Bit(n, level) == 0
    ensures Bit(n + 1, i) == if i < level then 0 else if i == level then 1 else Bit(n, i)
    ensures Low(n + 1, i) == if i <= level then 0 else Low(n, i) + 1
  {
    if i <= level {
      IncrementCarry(n, level);
      TrailingZeros(n + 1, level, i);
    } else {
      RoomBelow(n, level, i);
      IncrementAbove(n, i);
    }
  }
}
