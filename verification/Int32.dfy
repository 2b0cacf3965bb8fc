/** JavaScript's 32-bit integer operators on mathematical integers: ToInt32 and ToUint32 are sections 7.1.6
    and 7.1.7 of ECMA-262; `<<`, `>>>`, `&`, `|` and `~` convert their operands and results with them. */
module Int32 {

  const WORD := 0x1_0000_0000

  function ToUint32(x: int): (r: nat)
    ensures r < WORD
  {
    x % WORD
  }

  function ToInt32(x: int): int {
    var u := ToUint32(x);
    if u >= 0x8000_0000 then u - WORD else u
  }

  lemma ToUint32OfToInt32(x: int)
    ensures ToUint32(ToInt32(x)) == ToUint32(x)
  {
    assert (ToUint32(x) - WORD) % WORD == ToUint32(x);
  }

  function Pow2(k: nat): (r: nat)
    ensures r >= 1
  {
    if k == 0 then 1 else 2 * Pow2(k - 1)
  }

  /** The number `a` with `k` zero bits appended. */
  function Append(a: int, k: nat): int {
    if k == 0 then a else 2 * Append(a, k - 1)
  }

  /** The number `a` without its last `k` bits, and those `k` bits. */
  function High(a: nat, k: nat): (r: nat)
    ensures r <= a
  {
    if k == 0 then a else High(a / 2, k - 1)
  }

  function Low(a: nat, k: nat): (r: nat)
    ensures r < Pow2(k)
    ensures r <= a
  {
    if k == 0 then 0 else a % 2 + 2 * Low(a / 2, k - 1)
  }

  /** Bitwise and, or, of two unsigned numbers. */
  function AndBits(a: nat, b: nat): nat
    decreases a, b
  {
    if a == 0 || b == 0 then 0
    else (if a % 2 == 1 && b % 2 == 1 then 1 else 0) + 2 * AndBits(a / 2, b / 2)
  }

  function OrBits(a: nat, b: nat): nat
    decreases a, b
  {
    if a == 0 then b
    else if b == 0 then a
    else (if a % 2 == 1 || b % 2 == 1 then 1 else 0) + 2 * OrBits(a / 2, b / 2)
  }

  function And(a: int, b: int): int { ToInt32(AndBits(ToUint32(a), ToUint32(b))) }

  function Or(a: int, b: int): int { ToInt32(OrBits(ToUint32(a), ToUint32(b))) }

  function Not(a: int): int { -ToInt32(a) - 1 }

  /** `a << k` and `a >>> k`. Only the low five bits of a shift count matter; every count here is below 32. */
  function Shl(a: int, k: nat): int
    requires k < 32
  {
    ToInt32(Append(ToInt32(a), k))
  }

  function Shr(a: int, k: nat): (r: nat)
    requires k < 32
    ensures r <= ToUint32(a)
  {
    High(ToUint32(a), k)
  }

  // ------------------------------------------------------ what the operators compute

  lemma Powers()
    ensures Pow2(0) == 1 && Pow2(1) == 2 && Pow2(2) == 4 && Pow2(8) == 0x100 && Pow2(16) == 0x1_0000
    ensures Pow2(24) == 0x100_0000 && Pow2(31) == 0x8000_0000 && Pow2(32) == WORD
  {
  }

  lemma Pow2Double(k: nat)
    requires k > 0
    ensures Pow2(k) == 2 * Pow2(k - 1)
  {
  }

  lemma {:induction false} Pow2Monotone(a: nat, b: nat)
    requires a <= b
    ensures Pow2(a) <= Pow2(b)
  {
    if a < b {
      Pow2Monotone(a, b - 1);
    }
  }

  lemma {:induction false} AppendPow(a: int, k: nat)
    ensures Append(a, k) == a * Pow2(k)
  {
    if k > 0 {
      AppendPow(a, k - 1);
      assert a * Pow2(k) == 2 * (a * Pow2(k - 1));
    }
  }

  lemma {:induction false} AppendMinusOne(k: nat)
    ensures Append(-1, k) == -(Pow2(k) as int)
  {
    if k > 0 {
      AppendMinusOne(k - 1);
    }
  }

  /** The two parts of a number make up the number. */
  lemma {:induction false} HighLow(a: nat, k: nat)
    ensures a == Append(High(a, k), k) + Low(a, k)
  {
    if k > 0 {
      HighLow(a / 2, k - 1);
    }
  }

  lemma DivModUnique(a: int, m: nat, q: int, r: int)
    requires m >= 1 && a == q * m + r && 0 <= r < m
    ensures a / m == q && a % m == r
  {
    var d := a / m - q;
    assert d * m == r - a % m by {
      assert a == (a / m) * m + a % m;
      assert (a / m) * m - q * m == d * m;
    }
    MulOutside(d, m);
  }

  lemma MulOutside(d: int, m: int)
    requires m >= 1
    ensures d >= 1 ==> d * m >= m
    ensures d <= -1 ==> d * m <= -m
  {
  }

  /** In the usual terms, the parts are the quotient and the remainder. */
  lemma HighLowDivMod(a: nat, k: nat, m: nat)
    requires m == Pow2(k)
    ensures High(a, k) == a / m && Low(a, k) == a % m
  {
    HighLow(a, k);
    AppendPow(High(a, k), k);
    DivModUnique(a, m, High(a, k), Low(a, k));
  }

  /** Appending bits and then taking the number apart again. */
  lemma {:induction false} HighLowOfAppend(h: nat, k: nat, l: nat)
    requires l < Pow2(k)
    ensures Append(h, k) >= 0
    ensures High(Append(h, k) + l, k) == h && Low(Append(h, k) + l, k) == l
  {
    if k > 0 {
      HighLowOfAppend(h, k - 1, l / 2);
      var a := Append(h, k) + l;
      assert a / 2 == Append(h, k - 1) + l / 2 && a % 2 == l % 2;
    }
  }

  /** Anding with a low mask keeps the low bits. */
  lemma {:induction false} AndLowMask(a: nat, k: nat)
    ensures AndBits(a, Pow2(k) - 1) == Low(a, k)
  {
    if k > 0 {
      AndOdd(a, Pow2(k - 1) - 1);
      AndLowMask(a / 2, k - 1);
      hide AndBits;
    }
  }

  lemma AndOdd(a: nat, b: nat)
    ensures AndBits(a, 2 * b + 1) == a % 2 + 2 * AndBits(a / 2, b)
  {
    assert (2 * b + 1) / 2 == b && (2 * b + 1) % 2 == 1;
  }

  /** Anding with a high mask of a `w`-bit word clears the low bits. */
  lemma {:induction false} AndHighMask(w: nat, a: nat, k: nat, mask: nat)
    requires k <= w && a < Pow2(w) && mask == Pow2(w) - Pow2(k)
    ensures AndBits(a, mask) == a - Low(a, k)
  {
    if k == 0 {
      hide AndBits;
      AndLowMask(a, w);
      LowAll(a, w);
    } else if k == w {
      hide Low;
      LowAll(a, k);
    } else {
      hide AndBits;
      Pow2Monotone(k - 1, w - 1);
      var half := Pow2(w - 1) - Pow2(k - 1);
      AndHighMask(w - 1, a / 2, k - 1, half);
      AndHighMaskStep(a, k, mask, half);
    }
  }

  lemma AndHighMaskStep(a: nat, k: nat, mask: nat, half: nat)
    requires k > 0 && mask == 2 * half && AndBits(a / 2, half) == a / 2 - Low(a / 2, k - 1)
    ensures AndBits(a, mask) == a - Low(a, k)
  {
    AndEven(a, half);
  }

  lemma {:induction false} LowAll(a: nat, k: nat)
    requires a < Pow2(k)
    ensures Low(a, k) == a && High(a, k) == 0
  {
    if k > 0 {
      LowAll(a / 2, k - 1);
    }
  }

  lemma AndEven(a: nat, b: nat)
    ensures AndBits(a, 2 * b) == 2 * AndBits(a / 2, b)
  {
    assert (2 * b) / 2 == b && (2 * b) % 2 == 0;
  }

  /** Oring numbers without common bits adds them. */
  lemma {:induction false} OrDisjoint(a: nat, k: nat, b: nat)
    requires Low(a, k) == 0 && b < Pow2(k)
    ensures OrBits(a, b) == a + b
  {
    if k > 0 {
      OrDisjoint(a / 2, k - 1, b / 2);
    }
  }
}
