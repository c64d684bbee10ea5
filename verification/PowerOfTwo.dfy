/**
 CeilToPowerOfTwo of pkg/ring/ring_buffer.go:75-93, which smears the top bit of n - 1 to the right. Five shifts
 reach 31 places, so on 64-bit integers the result is a power of two only under a condition, stated exactly here.
 */
module PowerOfTwo {

  function Pow2(k: nat): (p: nat)
    ensures p > 0
  {
    if k == 0 then 1 else 2 * Pow2(k - 1)
  }

  predicate Bit(n: nat, k: nat) {
    if k == 0 then n % 2 == 1 else Bit(n / 2, k - 1)
  }

  /** n >> k */
  function Shr(n: nat, k: nat): nat {
    if k == 0 then n else Shr(n / 2, k - 1)
  }

  /** a | b */
  function Or(a: nat, b: nat): nat {
    if a == 0 && b == 0 then 0 else 2 * Or(a / 2, b / 2) + (if a % 2 == 1 || b % 2 == 1 then 1 else 0)
  }

  const MAX_INT_HEAD_BIT: nat := 0x4000_0000_0000_0000

  /** n is int in the source; it panics above 2^62. */
  method CeilToPowerOfTwo(n: int) returns (r: nat)
    requires n <= MAX_INT_HEAD_BIT
    ensures r == CeilSpec(n)
  {
    if n <= 2 {
      return 2;
    }
    r := n - 1;
    r := Or(r, Shr(r, 1));
    r := Or(r, Shr(r, 2));
    r := Or(r, Shr(r, 4));
    r := Or(r, Shr(r, 8));
    r := Or(r, Shr(r, 16));
    r := r + 1;
  }

  function Widened(n: nat, s: nat): nat { Or(n, Shr(n, s)) }

  function Smeared(n: nat): nat { Widened(Widened(Widened(Widened(Widened(n, 1), 2), 4), 8), 16) }

  function CeilSpec(n: int): nat {
    if n <= 2 then 2 else Smeared(n - 1) + 1
  }

  // ---------------------------------------------------------------- bits

  lemma {:induction false} BitOfZero(k: nat)
    ensures !Bit(0, k)
  {
    if k > 0 { BitOfZero(k - 1); }
  }

  lemma OrStep(a: nat, b: nat)
    requires a != 0 || b != 0
    ensures Or(a, b) / 2 == Or(a / 2, b / 2) && (Or(a, b) % 2 == 1 <==> a % 2 == 1 || b % 2 == 1)
  {
  }

  lemma {:induction false} BitOfOr(a: nat, b: nat, k: nat)
    ensures Bit(Or(a, b), k) <==> Bit(a, k) || Bit(b, k)
  {
    if a == 0 && b == 0 {
      BitOfZero(k);
    } else {
      OrStep(a, b);
      if k > 0 { BitOfOr(a / 2, b / 2, k - 1); }
    }
  }

  lemma {:induction false} BitOfShr(n: nat, s: nat, k: nat)
    ensures Bit(Shr(n, s), k) <==> Bit(n, s + k)
  {
    if s > 0 { BitOfShr(n / 2, s - 1, k); }
  }

  /** Some bit of `n` among the `width` from `k` up is set. */
  ghost predicate Any(n: nat, k: nat, width: nat) {
    exists j: nat :: k <= j < k + width && Bit(n, j)
  }

  lemma BitOfWidened(n: nat, m: nat, width: nat, s: nat)
    requires s <= width && forall k: nat :: Bit(m, k) <==> Any(n, k, width)
    ensures forall k: nat :: Bit(Widened(m, s), k) <==> Any(n, k, width + s)
  {
    forall k: nat ensures Bit(Widened(m, s), k) <==> Any(n, k, width + s) {
      BitOfOr(m, Shr(m, s), k);
      BitOfShr(m, s, k);
      assert Any(n, k, width + s) <==> Any(n, k, width) || Any(n, s + k, width);
    }
  }

  /** Smearing sets bit k exactly if one of the 32 bits from k up was set. */
  lemma BitOfSmeared(n: nat, k: nat)
    ensures Bit(Smeared(n), k) <==> Any(n, k, 32)
  {
    forall i: nat ensures Bit(n, i) <==> Any(n, i, 1) { assert Bit(n, i) ==> i <= i < i + 1; }
    var a := Widened(n, 1);
    BitOfWidened(n, n, 1, 1);
    var b := Widened(a, 2);
    BitOfWidened(n, a, 2, 2);
    var c := Widened(b, 4);
    BitOfWidened(n, b, 4, 4);
    var d := Widened(c, 8);
    BitOfWidened(n, c, 8, 8);
    BitOfWidened(n, d, 16, 16);
  }

  // ---------------------------------------------------------------- top bits and powers

  /** The position of the highest set bit. */
  function Top(n: nat): nat
    requires n > 0
  {
    if n == 1 then 0 else 1 + Top(n / 2)
  }

  lemma {:induction false} TopBounds(n: nat)
    requires n > 0
    ensures Pow2(Top(n)) <= n < Pow2(Top(n) + 1)
    ensures Bit(n, Top(n)) && forall k: nat :: k > Top(n) ==> !Bit(n, k)
  {
    if n == 1 {
      forall k: nat | k > 0 ensures !Bit(n, k) { BitOfZero(k - 1); }
    } else {
      TopBounds(n / 2);
      forall k: nat | k > Top(n) ensures !Bit(n, k) { assert Bit(n, k) == Bit(n / 2, k - 1); }
    }
  }

  ghost predicate Ones(n: nat, t: nat) {
    forall k: nat :: k <= t ==> Bit(n, k)
  }

  /** A number below 2^(t+1) is 2^(t+1) - 1 exactly if its bits up to t are all set. */
  lemma {:induction false} AllOnes(n: nat, t: nat)
    requires n < Pow2(t + 1)
    ensures n == Pow2(t + 1) - 1 <==> Ones(n, t)
  {
    if t == 0 {
      assert Bit(n, 0) <==> n == 1;
    } else {
      AllOnes(n / 2, t - 1);
      if Ones(n / 2, t - 1) && Bit(n, 0) {
        forall k: nat | k <= t ensures Bit(n, k) { if k > 0 { assert Bit(n / 2, k - 1); } }
      }
      if Ones(n, t) {
        assert Bit(n, 0);
        forall k: nat | k <= t - 1 ensures Bit(n / 2, k) { assert Bit(n, k + 1); }
      }
    }
  }

  lemma {:induction false} Pow2Grows(a: nat, b: nat)
    requires a <= b
    ensures Pow2(a) <= Pow2(b) && (a < b ==> Pow2(a) < Pow2(b))
  {
    if a < b { Pow2Grows(a, b - 1); }
  }

  lemma {:induction false} OrIsAbove(a: nat, b: nat)
    ensures a <= Or(a, b)
  {
    if a != 0 || b != 0 { OrIsAbove(a / 2, b / 2); }
  }

  lemma SmearedIsAbove(n: nat)
    ensures n <= Smeared(n)
  {
    var a := Widened(n, 1);
    var b := Widened(a, 2);
    var c := Widened(b, 4);
    var d := Widened(c, 8);
    OrIsAbove(n, Shr(n, 1));
    OrIsAbove(a, Shr(a, 2));
    OrIsAbove(b, Shr(b, 4));
    OrIsAbove(c, Shr(c, 8));
    OrIsAbove(d, Shr(d, 16));
  }

  /** Smearing sets no bit above the top one. */
  lemma TopOfSmeared(n: nat)
    requires n > 0
    ensures Smeared(n) > 0 && Top(Smeared(n)) == Top(n)
  {
    TopBounds(n);
    SmearedIsAbove(n);
    TopBounds(Smeared(n));
    BitOfSmeared(n, Top(n));
    BitOfSmeared(n, Top(Smeared(n)));
    assert Any(n, Top(n), 32);
  }

  // ---------------------------------------------------------------- when the result is a power of two

  /** Below the top bit there is no run of 32 zero bits. */
  ghost predicate NoWideGap(n: nat)
    requires n > 0
  {
    forall k: nat :: k <= Top(n) ==> Any(n, k, 32)
  }

  ghost predicate IsPowerOfTwo(n: nat) {
    exists k: nat :: n == Pow2(k)
  }

  lemma AllOnesIffNoGap(m: nat, s: nat)
    requires m > 0 && s > 0 && Top(s) == Top(m) && forall k: nat :: Bit(s, k) <==> Any(m, k, 32)
    ensures s < Pow2(Top(m) + 1)
    ensures s == Pow2(Top(m) + 1) - 1 <==> NoWideGap(m)
  {
    TopBounds(s);
    AllOnes(s, Top(m));
    if NoWideGap(m) { forall k: nat | k <= Top(m) ensures Bit(s, k) { assert Any(m, k, 32); } }
    if Ones(s, Top(m)) { forall k: nat | k <= Top(m) ensures Any(m, k, 32) { assert Bit(s, k); } }
  }

  lemma OnlyPowerBetween(s: nat, t: nat)
    requires Pow2(t) <= s < Pow2(t + 1) && IsPowerOfTwo(s + 1)
    ensures s + 1 == Pow2(t + 1)
  {
    var p: nat :| s + 1 == Pow2(p);
    if p <= t { Pow2Grows(p, t); }
    if p > t + 1 { Pow2Grows(t + 1, p); }
  }

  /** The result always lies in [n, 2n); it is a power of two exactly if n - 1 has no wide gap. */
  lemma CeilIsPowerOfTwoIff(n: int)
    requires n >= 3
    ensures n <= CeilSpec(n) < 2 * n
    ensures IsPowerOfTwo(CeilSpec(n)) <==> NoWideGap(n - 1)
  {
    var m := n - 1;
    SmearedIsAbove(m);
    TopBounds(m);
    TopOfSmeared(m);
    forall k: nat ensures Bit(Smeared(m), k) <==> Any(m, k, 32) { BitOfSmeared(m, k); }
    AllOnesIffNoGap(m, Smeared(m));
    if IsPowerOfTwo(Smeared(m) + 1) { OnlyPowerBetween(Smeared(m), Top(m)); }
  }

  /** What CeilToPowerOfTwo is documented to return: n or, if that is none, the next power of two above it. */
  ghost predicate IsNextPower(p: nat, n: int) {
    IsPowerOfTwo(p) && p >= n && forall k: nat :: Pow2(k) >= n ==> Pow2(k) >= p
  }

  /** What the comment in the source promises holds exactly for 2 and for the larger numbers without a wide gap below. */
  lemma CeilIsNextPowerIff(n: int)
    ensures IsNextPower(CeilSpec(n), n) <==> n == 2 || (n >= 3 && NoWideGap(n - 1))
  {
    assert Pow2(0) == 1 && Pow2(1) == 2;
    if n == 2 {
      forall k: nat | Pow2(k) >= 2 ensures Pow2(k) >= CeilSpec(2) { }
      assert IsPowerOfTwo(2);
    }
    if n >= 3 {
      CeilIsPowerOfTwoIff(n);
      if IsPowerOfTwo(CeilSpec(n)) { PowerBelowTwice(CeilSpec(n), n); }
    }
  }

  lemma PowerBelowTwice(p: nat, n: int)
    requires n >= 1 && IsPowerOfTwo(p) && n <= p < 2 * n
    ensures IsNextPower(p, n)
  {
    var t: nat :| p == Pow2(t);
    forall k: nat | Pow2(k) >= n ensures Pow2(k) >= p {
      if k < t { Pow2Grows(k, t - 1); } else { Pow2Grows(t, k); }
    }
  }

  /** The smallest argument that a size can have is already rounded wrongly: 1 is a power of two, the result is 2. */
  lemma CeilFailsForOne()
    ensures IsPowerOfTwo(1) && CeilSpec(1) == 2 && !IsNextPower(CeilSpec(1), 1)
  {
    assert Pow2(0) == 1;
    CeilIsNextPowerIff(1);
  }

  lemma Pow2Of32()
    ensures Pow2(32) == 0x1_0000_0000
  {
    assert Pow2(8) == 256;
    assert Pow2(16) == 65536;
    assert Pow2(24) == 16777216;
  }

  /** On everything else that a 32-bit size can be, and on 2^32 itself, it does what its comment says. */
  lemma CeilWorksUpTo32Bits(n: int)
    requires 2 <= n <= 0x1_0000_0000
    ensures IsNextPower(CeilSpec(n), n) && n <= CeilSpec(n) < 2 * n
  {
    CeilIsNextPowerIff(n);
    if n == 2 { return; }
    CeilIsPowerOfTwoIff(n);
    var m := n - 1;
    TopBounds(m);
    Pow2Of32();
    if Top(m) >= 32 { Pow2Grows(32, Top(m)); }
    forall k: nat | k <= Top(m) ensures Any(m, k, 32) { assert Bit(m, Top(m)); }
  }

  lemma {:induction false} BitOfPow2(t: nat, k: nat)
    ensures Bit(Pow2(t), k) <==> k == t
  {
    if t == 0 && k > 0 { BitOfZero(k - 1); }
    if t > 0 && k > 0 { BitOfPow2(t - 1, k - 1); }
  }

  /** Above that it is not the next power of two: 2^t + 1 is rounded to something else for every t >= 32. */
  lemma CeilFailsAboveEveryLargePower(t: nat)
    requires t >= 32
    ensures !IsPowerOfTwo(CeilSpec(Pow2(t) + 1))
  {
    var m := Pow2(t);
    Pow2Grows(1, t);
    CeilIsPowerOfTwoIff(m + 1);
    TopBounds(m);
    BitOfPow2(t, Top(m));
    forall j: nat | 0 <= j < 32 ensures !Bit(m, j) { BitOfPow2(t, j); }
    assert !Any(m, 0, 32);
  }
}
