/** The capacity arithmetic of arrays: 32-bit lengths rounded up to powers of two. */
module Growth {

  function Pow2(n: nat): (r: nat)
    ensures r >= 1
  {
    if n == 0 then 1 else 2 * Pow2(n - 1)
  }

  lemma {:induction false} Pow2Monotone(a: nat, b: nat)
    requires a <= b
    ensures Pow2(a) <= Pow2(b)
    ensures a < b ==> 2 * Pow2(a) <= Pow2(b)
    decreases b
  {
    if a < b {
      Pow2Monotone(a, b - 1);
    }
  }

  lemma Pow2At31()
    ensures Pow2(31) == 0x8000_0000
  {
    assert Pow2(8) == 256;
    assert Pow2(16) == 0x1_0000;
    assert Pow2(24) == 0x100_0000;
  }

  const BITS: nat := 32

  /** The number of zeros above the highest set bit of a number of `width` bits. */
  function CountLeadingZeros(x: nat, width: nat): (z: nat)
    ensures z <= width
  {
    if width == 0 || x >= Pow2(width - 1) then 0 else 1 + CountLeadingZeros(x, width - 1)
  }

  lemma {:induction false} LeadingZerosMean(x: nat, width: nat)
    requires x < Pow2(width)
    ensures x < Pow2(width - CountLeadingZeros(x, width))
    ensures x == 0 ==> CountLeadingZeros(x, width) == width
    ensures x > 0 ==> CountLeadingZeros(x, width) < width && Pow2(width - CountLeadingZeros(x, width) - 1) <= x
  {
    if width > 0 && x < Pow2(width - 1) {
      LeadingZerosMean(x, width - 1);
    }
  }

  /** A 32-bit shift of 1; shifting out of the word leaves nothing. */
  function ShiftOne(k: nat): nat {
    if k < BITS then Pow2(k) else 0
  }

  /** Subtract one, count leading zeros, shift: the least power of two that is
      not below `n`, without leaving 32 bits. */
  function CeilToPow2(n: nat): (r: nat)
    requires 1 <= n < 0x8000_0000
    ensures n <= r < 2 * n
    ensures exists k: nat :: r == Pow2(k)
    ensures forall k: nat :: n <= Pow2(k) ==> r <= Pow2(k)
    ensures r < 0x1_0000_0000
  {
    var log2 := BITS - CountLeadingZeros(n - 1, BITS);
    CeilIsLeast(n, log2);
    ShiftOne(log2)
  }

  lemma Pow2Below(a: nat, b: nat)
    ensures Pow2(a) < Pow2(b) ==> a < b
  {
    if b <= a {
      Pow2Monotone(b, a);
    }
  }

  lemma CeilIsLeast(n: nat, log2: nat)
    requires 1 <= n < 0x8000_0000 && log2 == BITS - CountLeadingZeros(n - 1, BITS)
    ensures log2 < BITS && ShiftOne(log2) == Pow2(log2)
    ensures n <= Pow2(log2) < 2 * n
    ensures forall k: nat :: n <= Pow2(k) ==> Pow2(log2) <= Pow2(k)
    ensures Pow2(log2) < 0x1_0000_0000
  {
    Pow2At31();
    assert Pow2(32) == 2 * Pow2(31);
    LeadingZerosMean(n - 1, BITS);
    if n > 1 {
      Pow2Below(log2 - 1, 31);
    }
    forall k: nat | n <= Pow2(k) ensures Pow2(log2) <= Pow2(k) {
      if k < log2 {
        Pow2Monotone(k, log2 - 1);
      } else {
        Pow2Monotone(log2, k);
      }
    }
  }

  /** The capacity after one more element, and how many elements that relocates. */
  function PushCap(len: nat, cap: nat): nat
    requires len + 1 < 0x8000_0000
  {
    if len == cap then CeilToPow2(len + 1) else cap
  }

  /** The capacity and the relocations so far after `n` pushes onto a new array. */
  function AfterPushes(n: nat): (r: (nat, nat))
    requires n < 0x8000_0000
  {
    if n == 0 then (0, 0)
    else
      var (cap, moved) := AfterPushes(n - 1);
      (PushCap(n - 1, cap), if n - 1 == cap then moved + (n - 1) else moved)
  }

  /** Growth is amortised constant: n pushes leave a capacity below 2n that is a
      power of two, and relocate exactly one element less than that capacity. */
  lemma {:induction false} GrowthIsAmortised(n: nat)
    requires 1 <= n < 0x8000_0000
    ensures exists k: nat :: AfterPushes(n).0 == Pow2(k)
    ensures n <= AfterPushes(n).0 < 2 * n
    ensures AfterPushes(n).1 == AfterPushes(n).0 - 1
  {
    if n == 1 {
      assert AfterPushes(0) == (0, 0);
      assert CeilToPow2(1) == 1;
    } else {
      GrowthIsAmortised(n - 1);
      var (cap, moved) := AfterPushes(n - 1);
      if n - 1 == cap {
        var k: nat :| cap == Pow2(k);
        assert Pow2(k + 1) == 2 * cap;
        assert CeilToPow2(n) == 2 * cap by {
          var j: nat :| CeilToPow2(n) == Pow2(j);
          if j <= k {
            Pow2Monotone(j, k);
          } else {
            Pow2Monotone(k, j);
          }
        }
      }
    }
  }
}
