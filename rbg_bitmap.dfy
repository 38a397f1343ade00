/**
 * The 32-bit RBG bitmap of a downlink DCI (resource allocation type 0,
 * section 7.1.6.1 of 3GPP TS 36.213): bit `j` is set when resource block
 * group `j` is allocated. The scheduler builds a bitmap by adding
 * `1 << j` for each of a UE's RBGs and reads one back by testing each of
 * the 32 bits with a mask that it doubles at every step. The bitmap is
 * modelled as a natural number, bit `j` being the parity of `m / 2^j`.
 */
module RbgBitmap {

  /** Bits in a DCI bitmap. */
  const BITMAP_BITS := 32

  function Pow2(k: nat): (p: nat)
    ensures p >= 1
  {
    if k == 0 then 1 else 2 * Pow2(k - 1)
  }

  /** Bit `j` of `m`. */
  predicate Bit(m: nat, j: nat)
  {
    if j == 0 then m % 2 == 1 else Bit(m / 2, j - 1)
  }

  predicate Increasing(s: seq<nat>)
  {
    forall i, j :: 0 <= i < j < |s| ==> s[i] < s[j]
  }

  predicate Distinct(s: seq<nat>)
  {
    forall i, j :: 0 <= i < j < |s| ==> s[i] != s[j]
  }

  predicate AllBelow(s: seq<nat>, n: nat)
  {
    forall i :: 0 <= i < |s| ==> s[i] < n
  }

  /** Setting a clear bit `k` sets bit `k` and leaves every other bit alone. */
  lemma {:induction false} AddBit(m: nat, k: nat, j: nat)
    requires !Bit(m, k)
    ensures Bit(m + Pow2(k), j) <==> Bit(m, j) || j == k
    decreases k
  {
    if k == 0 {
      assert m % 2 == 0;
      if j > 0 {
        assert (m + 1) / 2 == m / 2;
      }
    } else {
      assert Pow2(k) == 2 * Pow2(k - 1);
      assert (m + Pow2(k)) % 2 == m % 2;
      assert (m + Pow2(k)) / 2 == m / 2 + Pow2(k - 1);
      if j > 0 {
        AddBit(m / 2, k - 1, j - 1);
      }
    }
  }

  lemma {:induction false} ZeroBits(j: nat)
    ensures !Bit(0, j)
  {
    if j > 0 {
      ZeroBits(j - 1);
    }
  }

  /** A number below `2^n` has no bit at `n` or above. */
  lemma {:induction false} BitBelow(m: nat, n: nat, j: nat)
    requires m < Pow2(n) && j >= n
    ensures !Bit(m, j)
    decreases n
  {
    if n == 0 {
      assert m == 0;
      ZeroBits(j);
    } else if j > 0 {
      BitBelow(m / 2, n - 1, j - 1);
    }
  }

  /** Setting a clear bit below `n` keeps a number below `2^n`. */
  lemma {:induction false} AddBitBound(m: nat, k: nat, n: nat)
    requires m < Pow2(n) && k < n && !Bit(m, k)
    ensures m + Pow2(k) < Pow2(n)
    decreases n
  {
    var half := Pow2(n - 1);
    assert Pow2(n) == 2 * half;
    if k == 0 {
      assert m % 2 == 0;
    } else {
      var h := m / 2;
      assert m == 2 * h + m % 2;
      assert h < half;
      assert !Bit(h, k - 1);
      AddBitBound(h, k - 1, n - 1);
      assert Pow2(k) == 2 * Pow2(k - 1);
    }
  }

  /** The bitmap built from a list of RBGs: the sum of `1 << rbg`. */
  function Mask(rbgs: seq<nat>): nat
  {
    if rbgs == [] then 0 else Mask(rbgs[..|rbgs| - 1]) + Pow2(rbgs[|rbgs| - 1])
  }

  /**
   * For distinct RBGs below `n`, the bitmap has exactly the bits of the
   * RBGs, so no carry spills into a neighbouring bit, and it stays below
   * `2^n`.
   */
  lemma {:induction false} MaskBits(rbgs: seq<nat>, n: nat)
    requires Distinct(rbgs) && AllBelow(rbgs, n)
    ensures Mask(rbgs) < Pow2(n)
    ensures forall j :: Bit(Mask(rbgs), j) <==> j in rbgs
  {
    if rbgs == [] {
      forall j
        ensures !Bit(0, j)
      {
        ZeroBits(j);
      }
    } else {
      var init := rbgs[..|rbgs| - 1];
      var k := rbgs[|rbgs| - 1];
      assert rbgs == init + [k];
      MaskBits(init, n);
      assert k !in init by {
        forall i | 0 <= i < |init|
          ensures init[i] != k
        {
          assert init[i] == rbgs[i];
        }
      }
      AddBitBound(Mask(init), k, n);
      forall j
        ensures Bit(Mask(rbgs), j) <==> j in rbgs
      {
        AddBit(Mask(init), k, j);
      }
    }
  }

  /** The set bits of `m` below `n`, in ascending order. */
  function RbgsBelow(m: nat, n: nat): seq<nat>
  {
    if n == 0 then [] else RbgsBelow(m, n - 1) + (if Bit(m, n - 1) then [n - 1] else [])
  }

  /** `RbgsBelow` lists exactly the set bits below `n`, each once, in ascending order. */
  lemma {:induction false} RbgsBelowSpec(m: nat, n: nat)
    ensures Increasing(RbgsBelow(m, n)) && AllBelow(RbgsBelow(m, n), n)
    ensures forall j: nat :: j in RbgsBelow(m, n) <==> j < n && Bit(m, j)
  {
    if n > 0 {
      RbgsBelowSpec(m, n - 1);
    }
  }

  lemma HeadIn(s: seq<nat>)
    requires s != []
    ensures s[0] in s
  {
  }

  /** Two ascending lists with the same elements are the same list. */
  lemma {:induction false} IncreasingUnique(a: seq<nat>, b: seq<nat>)
    requires Increasing(a) && Increasing(b)
    requires forall x :: x in a <==> x in b
    ensures a == b
    decreases |a| + |b|
  {
    if a != [] && b != [] {
      assert a[0] in b;
      assert b[0] in a;
      assert a[0] == b[0] by {
        var i :| 0 <= i < |b| && b[i] == a[0];
        assert b[0] <= b[i];
        var k :| 0 <= k < |a| && a[k] == b[0];
        assert a[0] <= a[k];
      }
      forall x
        ensures x in a[1..] <==> x in b[1..]
      {
        if x in a[1..] {
          var i :| 1 <= i < |a| && a[i] == x;
          assert x > a[0];
          assert x in b;
          var k :| 0 <= k < |b| && b[k] == x;
          assert k > 0;
        }
        if x in b[1..] {
          var i :| 1 <= i < |b| && b[i] == x;
          assert x > b[0];
          assert x in a;
          var k :| 0 <= k < |a| && a[k] == x;
          assert k > 0;
        }
      }
      IncreasingUnique(a[1..], b[1..]);
      assert a == [a[0]] + a[1..];
      assert b == [b[0]] + b[1..];
    } else if a != [] {
      HeadIn(a);
      assert false;
    } else if b != [] {
      HeadIn(b);
      assert false;
    }
  }

  /**
   * Decoding the bitmap built from an ascending list of RBGs below 32
   * gives back the list: the encoding of a DCI and the decoding done when
   * it is retransmitted are inverse.
   */
  lemma MaskRoundTrip(rbgs: seq<nat>)
    requires Increasing(rbgs) && AllBelow(rbgs, BITMAP_BITS)
    ensures RbgsBelow(Mask(rbgs), BITMAP_BITS) == rbgs
  {
    MaskBits(rbgs, BITMAP_BITS);
    RbgsBelowSpec(Mask(rbgs), BITMAP_BITS);
    IncreasingUnique(RbgsBelow(Mask(rbgs), BITMAP_BITS), rbgs);
  }

  /**
   * The decoding loop of the retransmission check: the RBGs of a DCI
   * bitmap, lowest first. The source tests bit `j` as
   * `(bitmap & mask) >> j == 1` with a mask it doubles at every step.
   */
  method DciRbgs(bitmap: nat) returns (rbgs: seq<nat>)
    ensures rbgs == RbgsBelow(bitmap, BITMAP_BITS)
    ensures Increasing(rbgs) && AllBelow(rbgs, BITMAP_BITS)
    ensures forall j: nat :: j in rbgs <==> j < BITMAP_BITS && Bit(bitmap, j)
  {
    rbgs := [];
    for j := 0 to BITMAP_BITS
      invariant rbgs == RbgsBelow(bitmap, j)
    {
      if Bit(bitmap, j) {
        rbgs := rbgs + [j];
      }
    }
    RbgsBelowSpec(bitmap, BITMAP_BITS);
  }

  /**
   * The encoding loop of the DCI stage and of a moved retransmission:
   * `rbgMask = rbgMask + (1 << rbg)` for each RBG in turn.
   */
  method BuildMask(rbgs: seq<nat>) returns (mask: nat)
    requires Distinct(rbgs) && AllBelow(rbgs, BITMAP_BITS)
    ensures mask == Mask(rbgs)
    ensures mask < Pow2(BITMAP_BITS)
    ensures forall j :: Bit(mask, j) <==> j in rbgs
  {
    mask := 0;
    for k := 0 to |rbgs|
      invariant mask == Mask(rbgs[..k])
    {
      assert rbgs[..k + 1][..k] == rbgs[..k];
      mask := mask + Pow2(rbgs[k]);
    }
    assert rbgs[..|rbgs|] == rbgs;
    MaskBits(rbgs, BITMAP_BITS);
  }
}
