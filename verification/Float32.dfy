/** The four bytes in which the reports carry a whole number: single precision of IEEE Std 754, section 3.4. */
module Float32 {
  import opened Records

  function Pow2(k: nat): (p: nat)
    ensures p > 0
  {
    if k == 0 then 1 else 2 * Pow2(k - 1)
  }

  // The exponent of n: 2^e <= n < 2^(e+1).
  function Log2(n: nat): nat
    requires n > 0
  {
    if n == 1 then 0 else 1 + Log2(n / 2)
  }

  lemma {:induction false} Log2Bounds(n: nat)
    requires n > 0
    ensures Pow2(Log2(n)) <= n < 2 * Pow2(Log2(n))
  {
    if n == 1 {
    } else {
      Log2Bounds(n / 2);
    }
  }

  lemma {:induction false} Pow2Adds(a: nat, b: nat)
    ensures Pow2(a) * Pow2(b) == Pow2(a + b)
  {
    if a == 0 {
    } else {
      Pow2Adds(a - 1, b);
      assert Pow2(a) * Pow2(b) == 2 * (Pow2(a - 1) * Pow2(b));
    }
  }

  lemma {:induction false} Log2Monotone(n: nat, k: nat)
    requires 0 < n < Pow2(k)
    ensures Log2(n) < k
  {
    if n == 1 {
    } else {
      Log2Monotone(n / 2, k - 1);
    }
  }

  const FRACTION := 0x80_0000

  lemma FractionIsPow2()
    ensures Pow2(23) == FRACTION
  {
    assert Pow2(4) == 16;
    Pow2Adds(4, 4);
    Pow2Adds(8, 8);
    Pow2Adds(16, 4);
    assert Pow2(3) == 8;
    Pow2Adds(20, 3);
  }

  // A whole number below 2^24 has an exact encoding: biased exponent, then the fraction.
  function Bits(n: nat): int
    requires n < 0x100_0000
  {
    if n == 0 then 0
    else
      var e := Log2(n);
      (127 + e) * FRACTION + (if e <= 23 && n >= Pow2(e) then (n - Pow2(e)) * Pow2(23 - e) else 0)
  }

  // The value of an encoding with an exponent from 0 to 23.
  function Value(bits: nat): int {
    var e := bits / FRACTION - 127;
    if 0 <= e <= 23 then (FRACTION + bits % FRACTION) / Pow2(23 - e) else 0
  }

  // The encoding denotes exactly n: significand times 2^(e - 23) is n, with no fraction cut off.
  predicate Denotes(bits: nat, n: nat) {
    if n == 0 then bits == 0
    else var e := bits / FRACTION - 127; 0 <= e <= 23 && FRACTION + bits % FRACTION == n * Pow2(23 - e)
  }

  lemma BitsDenote(n: nat)
    requires n < 0x100_0000
    ensures 0 <= Bits(n) < 0x1_0000_0000 && Denotes(Bits(n), n)
  {
    if n > 0 {
      var e := Log2(n);
      FractionIsPow2();
      assert Pow2(24) == 0x100_0000;
      Log2Bounds(n);
      Log2Monotone(n, 24);
      Pow2Adds(e, 23 - e);
      var p, q := Pow2(e), Pow2(23 - e);
      Scaled(n, p, q);
      var m := (n - p) * q;
      assert Bits(n) == (127 + e) * FRACTION + m;
      Split(127 + e, m);
    }
  }

  lemma ValueOfBits(n: nat)
    requires n < 0x100_0000
    ensures 0 <= Bits(n) < 0x1_0000_0000 && Denotes(Bits(n), n) && Value(Bits(n)) == n
  {
    BitsDenote(n);
    if n > 0 {
      Quotient(n, Pow2(23 - (Bits(n) / FRACTION - 127)));
    }
  }

  lemma Scaled(n: nat, p: nat, q: nat)
    requires p <= n < 2 * p && p * q == FRACTION
    ensures 0 <= (n - p) * q < FRACTION && FRACTION + (n - p) * q == n * q
  {
    assert (n - p) * q == n * q - p * q;
    assert n * q < 2 * (p * q) by {
      assert q > 0;
      assert (2 * p - n) * q > 0;
      assert (2 * p - n) * q == 2 * (p * q) - n * q;
    }
  }

  lemma Split(a: nat, m: nat)
    requires m < FRACTION
    ensures (a * FRACTION + m) / FRACTION == a && (a * FRACTION + m) % FRACTION == m
  {
  }

  lemma Quotient(n: nat, q: nat)
    requires q > 0
    ensures n * q / q == n
  {
    var d := n * q / q;
    var r := n * q % q;
    assert n * q == d * q + r && 0 <= r < q;
    assert (n - d) * q == r;
    Zero(n - d, q);
  }

  lemma Zero(k: int, q: nat)
    requires 0 <= k * q < q
    ensures k == 0
  {
    assert (k - 1) * q == k * q - q;
    assert (k - 1) * q < 0;
  }

  function Float(n: nat): (b: seq<byte>)
    requires n < 0x100_0000
    ensures |b| == 4
  {
    if 0 <= Bits(n) < 0x1_0000_0000 then Int32(Bits(n)) else Zeros(4)
  }

  function FromFloat(b: seq<byte>): int
    requires |b| == 4
  {
    Value(FromInt32(b))
  }

  lemma FloatRoundTrip(n: nat)
    requires n < 0x100_0000
    ensures FromFloat(Float(n)) == n
  {
    ValueOfBits(n);
    Int32RoundTrip(Bits(n));
  }
}
