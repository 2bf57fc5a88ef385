/**
 * Model-specific-register (MSR) addresses of the Icelake-server CHA boxes
 * (the caching/home agents of the uncore).  Each box owns a block of
 * BoxStride consecutive registers; the address of a register is its base
 * constant plus BoxStride times the box index plus the slot index.
 */
module ChaRegisters {

  /** Unit control register of box 0; the start of box 0's block. */
  const PmonBase: int := 0xE00
  /** Counter control register 0 of box 0 (control registers 0..3 follow). */
  const CtlBase: int := 0xE01
  /** Filter register 0 of box 0. */
  const Filter0Base: int := 0xE05
  /** Status register of box 0. */
  const StatusBase: int := 0xE07
  /** Counter register 0 of box 0 (counters 0..3 follow). */
  const CtrBase: int := 0xE08
  /** Distance between the blocks of consecutive boxes. */
  const BoxStride: int := 0xE
  /** Boxes the monitor programs; beyond box 17 the offsets change. */
  const NumBoxes: int := 18
  /** Counters per box. */
  const NumCounters: int := 4

  /** Offsets of the named registers inside a box's block. */
  const CtlOffset: int := CtlBase - PmonBase
  const Filter0Offset: int := Filter0Base - PmonBase
  const CtrOffset: int := CtrBase - PmonBase

  /** First register of box `cha`'s block. */
  function BoxStart(cha: int): int { PmonBase + BoxStride * cha }

  /** Counter register `ctr` of box `cha`. */
  function CtrAddr(cha: int, ctr: int): int { CtrBase + BoxStride * cha + ctr }

  /** Counter control register `ctl` of box `cha`. */
  function CtlAddr(cha: int, ctl: int): int { CtlBase + BoxStride * cha + ctl }

  /** Filter register 0 of box `cha`. */
  function Filter0Addr(cha: int): int { Filter0Base + BoxStride * cha }

  /** The box whose block holds `addr` (decoding an address). */
  function BoxOf(addr: int): int { (addr - PmonBase) / BoxStride }

  /** The position of `addr` inside its box's block. */
  function OffsetOf(addr: int): int { (addr - PmonBase) % BoxStride }

  /** An address inside a block decodes to that block's box and position. */
  lemma DecodeBlockAddr(cha: int, off: int)
    requires 0 <= off < BoxStride
    ensures BoxOf(BoxStart(cha) + off) == cha
    ensures OffsetOf(BoxStart(cha) + off) == off
  {
    var a := BoxStart(cha) + off;
    assert a - PmonBase == BoxStride * cha + off;
  }

  /** BoxOf(addr) == cha says exactly that addr lies in box cha's block. */
  lemma BoxOfIsBlock(addr: int, cha: int)
    ensures BoxOf(addr) == cha <==> BoxStart(cha) <= addr < BoxStart(cha) + BoxStride
  {
    var off := addr - BoxStart(cha);
    if BoxStart(cha) <= addr < BoxStart(cha) + BoxStride {
      DecodeBlockAddr(cha, off);
    }
    if BoxOf(addr) == cha {
      DecodeBlockAddr(cha, OffsetOf(addr));
      assert addr == BoxStart(cha) + OffsetOf(addr) by {
        assert addr - PmonBase == BoxStride * BoxOf(addr) + OffsetOf(addr);
      }
    }
  }

  /** A counter address decodes back to its box and to the counter's slot. */
  lemma CtrAddrDecode(cha: int, ctr: int)
    requires 0 <= ctr < NumCounters
    ensures BoxOf(CtrAddr(cha, ctr)) == cha
    ensures OffsetOf(CtrAddr(cha, ctr)) == CtrOffset + ctr
  {
    DecodeBlockAddr(cha, CtrOffset + ctr);
  }

  /** A control-register address decodes back to its box and slot. */
  lemma CtlAddrDecode(cha: int, ctl: int)
    requires 0 <= ctl < NumCounters
    ensures BoxOf(CtlAddr(cha, ctl)) == cha
    ensures OffsetOf(CtlAddr(cha, ctl)) == CtlOffset + ctl
  {
    DecodeBlockAddr(cha, CtlOffset + ctl);
  }

  /** The filter address decodes back to its box. */
  lemma Filter0AddrDecode(cha: int)
    ensures BoxOf(Filter0Addr(cha)) == cha
    ensures OffsetOf(Filter0Addr(cha)) == Filter0Offset
  {
    DecodeBlockAddr(cha, Filter0Offset);
  }

  /**
   * Counter register (cha, ctr) lies inside box cha's 14-register block
   * [0xE00 + 0xE*cha, 0xE0D + 0xE*cha].
   */
  lemma CtrAddrInBlock(cha: int, ctr: int)
    requires 0 <= cha < NumBoxes && 0 <= ctr < NumCounters
    ensures BoxStart(cha) <= CtrAddr(cha, ctr) <= BoxStart(cha) + BoxStride - 1
    ensures BoxOf(CtrAddr(cha, ctr)) == cha
  {
    CtrAddrDecode(cha, ctr);
    BoxOfIsBlock(CtrAddr(cha, ctr), cha);
  }

  /** Distinct (box, counter) pairs have distinct counter addresses. */
  lemma CtrAddrsDistinct(c1: int, k1: int, c2: int, k2: int)
    requires 0 <= c1 < NumBoxes && 0 <= k1 < NumCounters
    requires 0 <= c2 < NumBoxes && 0 <= k2 < NumCounters
    ensures CtrAddr(c1, k1) == CtrAddr(c2, k2) <==> c1 == c2 && k1 == k2
  {
    CtrAddrDecode(c1, k1);
    CtrAddrDecode(c2, k2);
  }
}
