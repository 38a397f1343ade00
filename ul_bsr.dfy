/**
 * The uplink buffer-status store of `pw-ff-mac-scheduler.cc`
 * (`m_ceBsrRxed`, RNTI to bytes, `map<uint16_t, uint32_t>`): after each
 * uplink grant `UpdateUlRlcBufferInfo` charges the granted transport
 * block, less the two-byte minimum RLC overhead, against the UE's
 * reported buffer, and `DoCschedUeReleaseReq` erases the UE.
 */
module UlBsr {
  const UINT16 := 0x1_0000
  const UINT32 := 0x1_0000_0000

  /** The minimum RLC overhead removed from a grant. */
  const RLC_OVERHEAD := 2

  /** `size - 2` stored back into the `uint16_t` parameter: it wraps for a size below two. */
  function Overhead(size: int): (s: int)
    requires 0 <= size < UINT16
    ensures 0 <= s < UINT16
    ensures size >= RLC_OVERHEAD ==> s == size - RLC_OVERHEAD
    ensures size < RLC_OVERHEAD ==> s == UINT16 - RLC_OVERHEAD + size
  {
    (size - RLC_OVERHEAD) % UINT16
  }

  /** A buffer of `b` bytes after `s` of them were granted: never negative. */
  function Charged(b: int, s: int): (r: int)
    requires 0 <= s
    ensures 0 <= r && (0 <= b ==> r <= b)
    ensures r == if b >= s then b - s else 0
    ensures r == 0 <==> b <= s
  {
    if b >= s then b - s else 0
  }

  function Sum(ss: seq<int>): int
  {
    if |ss| == 0 then 0 else Sum(ss[..|ss| - 1]) + ss[|ss| - 1]
  }

  /** Grants of sizes `ss` charged one after the other. */
  function ChargedAll(b: int, ss: seq<int>): int
    requires forall i :: 0 <= i < |ss| ==> 0 <= ss[i]
  {
    if |ss| == 0 then b else Charged(ChargedAll(b, ss[..|ss| - 1]), ss[|ss| - 1])
  }

  /**
   * Charging grants one by one leaves what charging their total at once
   * would: the reported buffer less everything granted, floored at zero.
   */
  lemma {:induction false} ChargedAllIsTotal(b: int, ss: seq<int>)
    requires 0 <= b
    requires forall i :: 0 <= i < |ss| ==> 0 <= ss[i]
    ensures ChargedAll(b, ss) == if b >= Sum(ss) then b - Sum(ss) else 0
  {
    if |ss| > 0 {
      ChargedAllIsTotal(b, ss[..|ss| - 1]);
    }
  }

  /** A grant of zero or one byte wraps to at least 65534 and so clears any buffer report up to that size. */
  lemma TinyGrantClears(b: int, size: int)
    requires 0 <= size < RLC_OVERHEAD && 0 <= b <= UINT16 - RLC_OVERHEAD
    ensures Charged(b, Overhead(size)) == 0
  {
  }

  /** The buffer-status reports received from the UEs. */
  class UlBsrReports {
    var ceBsrRxed: map<int, int>

    /** Keys are RNTIs and values fit `uint32_t`. */
    predicate Valid()
      reads this
    {
      forall r :: r in ceBsrRxed ==> 0 <= r < UINT16 && 0 <= ceBsrRxed[r] < UINT32
    }

    constructor ()
      ensures Valid() && ceBsrRxed == map[]
    {
      ceBsrRxed := map[];
    }

    /**
     * `UpdateUlRlcBufferInfo`: a known UE's report loses the granted size
     * less the overhead, floored at zero; an unknown UE changes nothing;
     * every other UE keeps its report.
     */
    method UpdateUlRlcBufferInfo(rnti: int, size: int)
      requires Valid() && 0 <= rnti < UINT16 && 0 <= size < UINT16
      modifies this
      ensures Valid()
      ensures rnti !in old(ceBsrRxed) ==> ceBsrRxed == old(ceBsrRxed)
      ensures rnti in old(ceBsrRxed) ==>
        ceBsrRxed == old(ceBsrRxed)[rnti := Charged(old(ceBsrRxed)[rnti], Overhead(size))]
      ensures ceBsrRxed.Keys == old(ceBsrRxed).Keys
      ensures forall r :: r in ceBsrRxed && r != rnti ==> ceBsrRxed[r] == old(ceBsrRxed)[r]
    {
      var s := (size - RLC_OVERHEAD) % UINT16;
      if rnti in ceBsrRxed {
        var b := ceBsrRxed[rnti];
        if b >= s {
          b := b - s;
        } else {
          b := 0;
        }
        ceBsrRxed := ceBsrRxed[rnti := b];
      }
    }

    /** The erase in `DoCschedUeReleaseReq`. */
    method ReleaseUe(rnti: int)
      requires Valid()
      modifies this
      ensures Valid() && ceBsrRxed == old(ceBsrRxed) - {rnti}
    {
      ceBsrRxed := ceBsrRxed - {rnti};
    }
  }
}
