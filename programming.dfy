/**
 * The counter-programming pass as a function on register maps.  The pass
 * issues four writes per box, for boxes 0 .. NumBoxes-1 in order: filter 0,
 * then control registers 0, 1 and 2.  Write number w (in issue order) goes
 * to box w / 4.  Each write either transfers all eight bytes and replaces
 * the register, or fails, is reported, and leaves the register as it was;
 * a failure never stops the pass.
 */
module ChaProgramming {
  import opened ChaRegisters
  import opened ChaControl

  /** Writes issued per box. */
  const WritesPerBox: int := 4
  /** Writes issued by one programming pass. */
  const TotalWrites: int := NumBoxes * WritesPerBox
  /** Bytes a complete MSR transfer moves. */
  const TransferWidth: int := 8

  /** Registers as the model sees them: address to 64-bit content. */
  type RegisterMap = map<int, bv64>

  /** A line on the diagnostic stream. */
  datatype Diagnostic =
    | Filter0WriteFailed(cha: int)
    | CounterWriteFailed(ctl: int)
    | MsrReadFailed

  /** Register targeted by write number w. */
  function WriteAddr(w: int): int {
    var cha, k := w / WritesPerBox, w % WritesPerBox;
    if k == 0 then Filter0Addr(cha) else CtlAddr(cha, k - 1)
  }

  /** Value written by write number w. */
  function WriteValue(w: int): bv64 {
    var cha, k := w / WritesPerBox, w % WritesPerBox;
    if k == 0 then NoFilter
    else if k == 1 then OccupancyWord(cha)
    else if k == 2 then InsertWord(cha)
    else ClockTicks
  }

  /** The report printed when write number w fails. */
  function FailureReport(w: int): Diagnostic {
    var cha, k := w / WritesPerBox, w % WritesPerBox;
    if k == 0 then Filter0WriteFailed(cha) else CounterWriteFailed(k - 1)
  }

  /** Write number w decodes to its box and to the slot it programs. */
  lemma WriteAddrDecode(w: int)
    ensures BoxOf(WriteAddr(w)) == w / WritesPerBox
    ensures OffsetOf(WriteAddr(w)) ==
              if w % WritesPerBox == 0 then Filter0Offset
              else CtlOffset + w % WritesPerBox - 1
  {
    var cha, k := w / WritesPerBox, w % WritesPerBox;
    if k == 0 {
      Filter0AddrDecode(cha);
    } else {
      CtlAddrDecode(cha, k - 1);
    }
  }

  /** Different writes of a pass target different registers. */
  lemma WriteAddrsDistinct(w1: int, w2: int)
    ensures WriteAddr(w1) == WriteAddr(w2) <==> w1 == w2
  {
    WriteAddrDecode(w1);
    WriteAddrDecode(w2);
    if WriteAddr(w1) == WriteAddr(w2) {
      assert w1 / WritesPerBox == w2 / WritesPerBox;
      assert w1 % WritesPerBox == w2 % WritesPerBox;
    }
  }

  /** The registers a programming pass writes. */
  ghost predicate IsTarget(addr: int) {
    exists w :: 0 <= w < TotalWrites && WriteAddr(w) == addr
  }

  /**
   * The targets are exactly filter 0 and control registers 0..2 of boxes
   * 0..17; status, counters and control register 3 are never written.
   */
  lemma TargetsAreBoxRegisters(addr: int)
    ensures IsTarget(addr) <==>
              0 <= BoxOf(addr) < NumBoxes &&
              (OffsetOf(addr) == Filter0Offset || CtlOffset <= OffsetOf(addr) < CtlOffset + 3)
  {
    if IsTarget(addr) {
      var w :| 0 <= w < TotalWrites && WriteAddr(w) == addr;
      WriteAddrDecode(w);
    }
    var cha, off := BoxOf(addr), OffsetOf(addr);
    if 0 <= cha < NumBoxes && (off == Filter0Offset || CtlOffset <= off < CtlOffset + 3) {
      var w := WritesPerBox * cha + (if off == Filter0Offset then 0 else off - CtlOffset + 1);
      WriteAddrDecode(w);
      assert BoxOf(WriteAddr(w)) == cha && OffsetOf(WriteAddr(w)) == off;
      assert addr == BoxStart(cha) + off by {
        assert addr - PmonBase == BoxStride * BoxOf(addr) + OffsetOf(addr);
      }
      assert WriteAddr(w) == BoxStart(cha) + off by {
        assert WriteAddr(w) - PmonBase == BoxStride * cha + off;
      }
    }
  }

  /** The status register of a box is never written by the pass. */
  lemma StatusNeverWritten(cha: int)
    ensures !IsTarget(StatusBase + BoxStride * cha)
  {
    var addr := StatusBase + BoxStride * cha;
    DecodeBlockAddr(cha, StatusBase - PmonBase);
    TargetsAreBoxRegisters(addr);
  }

  /** One write: replaces the register when all eight bytes went through. */
  function ApplyWrite(m: RegisterMap, w: int, ret: int): RegisterMap {
    if ret == TransferWidth then m[WriteAddr(w) := WriteValue(w)] else m
  }

  /** The register map after the first n writes, whose byte counts are rets. */
  function Programmed(m: RegisterMap, rets: seq<int>, n: nat): RegisterMap
    requires n <= |rets|
  {
    if n == 0 then m else ApplyWrite(Programmed(m, rets, n - 1), n - 1, rets[n - 1])
  }

  /** The report `d` if a write transferred `ret` bytes instead of eight. */
  function ReportIfFailed(ret: int, d: Diagnostic): seq<Diagnostic> {
    if ret == TransferWidth then [] else [d]
  }

  /** The reports printed during the first n writes. */
  function WriteDiagnostics(rets: seq<int>, n: nat): seq<Diagnostic>
    requires n <= |rets|
  {
    if n == 0 then []
    else WriteDiagnostics(rets, n - 1) + ReportIfFailed(rets[n - 1], FailureReport(n - 1))
  }

  /** The four writes of box cha, in issue order, and their failure reports. */
  lemma WriteTargetsOfBox(cha: int)
    ensures var w := WritesPerBox * cha;
            && WriteAddr(w) == Filter0Addr(cha) && WriteValue(w) == NoFilter
            && FailureReport(w) == Filter0WriteFailed(cha)
            && WriteAddr(w + 1) == CtlAddr(cha, 0) && WriteValue(w + 1) == OccupancyWord(cha)
            && FailureReport(w + 1) == CounterWriteFailed(0)
            && WriteAddr(w + 2) == CtlAddr(cha, 1) && WriteValue(w + 2) == InsertWord(cha)
            && FailureReport(w + 2) == CounterWriteFailed(1)
            && WriteAddr(w + 3) == CtlAddr(cha, 2) && WriteValue(w + 3) == ClockTicks
            && FailureReport(w + 3) == CounterWriteFailed(2)
  {
    var w := WritesPerBox * cha;
    assert w / WritesPerBox == cha && w % WritesPerBox == 0;
    assert (w + 1) / WritesPerBox == cha && (w + 1) % WritesPerBox == 1;
    assert (w + 2) / WritesPerBox == cha && (w + 2) % WritesPerBox == 2;
    assert (w + 3) / WritesPerBox == cha && (w + 3) % WritesPerBox == 3;
  }

  /** The register map after box cha's four writes, starting from m. */
  function BoxProgrammed(m: RegisterMap, rets: seq<int>, cha: int): RegisterMap
    requires 0 <= cha < NumBoxes && |rets| == TotalWrites
  {
    var w := WritesPerBox * cha;
    ApplyWrite(ApplyWrite(ApplyWrite(ApplyWrite(m, w, rets[w]), w + 1, rets[w + 1]),
                          w + 2, rets[w + 2]), w + 3, rets[w + 3])
  }

  /** The reports of box cha's four writes. */
  function BoxReports(rets: seq<int>, cha: int): seq<Diagnostic>
    requires 0 <= cha < NumBoxes && |rets| == TotalWrites
  {
    var w := WritesPerBox * cha;
    ReportIfFailed(rets[w], Filter0WriteFailed(cha)) + ReportIfFailed(rets[w + 1], CounterWriteFailed(0)) +
    ReportIfFailed(rets[w + 2], CounterWriteFailed(1)) + ReportIfFailed(rets[w + 3], CounterWriteFailed(2))
  }

  /** The pass proceeds box by box: four more writes program one more box. */
  lemma ProgrammedByBox(m: RegisterMap, rets: seq<int>, cha: int)
    requires 0 <= cha < NumBoxes && |rets| == TotalWrites
    ensures Programmed(m, rets, WritesPerBox * (cha + 1)) ==
            BoxProgrammed(Programmed(m, rets, WritesPerBox * cha), rets, cha)
    ensures WriteDiagnostics(rets, WritesPerBox * (cha + 1)) ==
            WriteDiagnostics(rets, WritesPerBox * cha) + BoxReports(rets, cha)
  {
    var w := WritesPerBox * cha;
    WriteTargetsOfBox(cha);
    assert WritesPerBox * (cha + 1) == w + 4;
    var p0 := Programmed(m, rets, w);
    assert Programmed(m, rets, w + 1) == ApplyWrite(p0, w, rets[w]);
    assert Programmed(m, rets, w + 2) == ApplyWrite(Programmed(m, rets, w + 1), w + 1, rets[w + 1]);
    assert Programmed(m, rets, w + 3) == ApplyWrite(Programmed(m, rets, w + 2), w + 2, rets[w + 2]);
    assert Programmed(m, rets, w + 4) == ApplyWrite(Programmed(m, rets, w + 3), w + 3, rets[w + 3]);
    var d0 := WriteDiagnostics(rets, w);
    var r0 := ReportIfFailed(rets[w], Filter0WriteFailed(cha));
    var r1 := ReportIfFailed(rets[w + 1], CounterWriteFailed(0));
    var r2 := ReportIfFailed(rets[w + 2], CounterWriteFailed(1));
    var r3 := ReportIfFailed(rets[w + 3], CounterWriteFailed(2));
    assert WriteDiagnostics(rets, w + 1) == d0 + r0;
    assert WriteDiagnostics(rets, w + 2) == d0 + r0 + r1;
    assert WriteDiagnostics(rets, w + 3) == d0 + r0 + r1 + r2;
    assert WriteDiagnostics(rets, w + 4) == d0 + r0 + r1 + r2 + r3;
  }

  /** Register `addr` of `r` is the same as in `m` (present or absent). */
  predicate Keeps(m: RegisterMap, r: RegisterMap, addr: int) {
    (addr in r <==> addr in m) && (addr in m ==> r[addr] == m[addr])
  }

  /** Register `addr` holds `v` if the write succeeded, else is kept from `m`. */
  predicate Outcome(m: RegisterMap, r: RegisterMap, ok: bool, addr: int, v: bv64) {
    if ok then addr in r && r[addr] == v else Keeps(m, r, addr)
  }

  /** A successful write is never undone by a later write of the pass. */
  lemma {:induction false} ProgrammedWritten(m: RegisterMap, rets: seq<int>, n: nat, w: int)
    requires 0 <= w < n <= |rets| && rets[w] == TransferWidth
    ensures WriteAddr(w) in Programmed(m, rets, n)
    ensures Programmed(m, rets, n)[WriteAddr(w)] == WriteValue(w)
  {
    if w < n - 1 {
      ProgrammedWritten(m, rets, n - 1, w);
      WriteAddrsDistinct(w, n - 1);
    }
  }

  /** A register no successful write targets keeps its content. */
  lemma {:induction false} ProgrammedUntouched(m: RegisterMap, rets: seq<int>, n: nat, addr: int)
    requires n <= |rets|
    requires forall w :: 0 <= w < n && rets[w] == TransferWidth ==> WriteAddr(w) != addr
    ensures Keeps(m, Programmed(m, rets, n), addr)
  {
    if n > 0 {
      ProgrammedUntouched(m, rets, n - 1, addr);
    }
  }

  /** Each write's register ends the pass according to that write's outcome. */
  lemma ProgrammedWrite(m: RegisterMap, rets: seq<int>, w: int)
    requires |rets| == TotalWrites && 0 <= w < TotalWrites
    ensures Outcome(m, Programmed(m, rets, TotalWrites), rets[w] == TransferWidth,
                    WriteAddr(w), WriteValue(w))
  {
    if rets[w] == TransferWidth {
      ProgrammedWritten(m, rets, TotalWrites, w);
    } else {
      forall v | 0 <= v < TotalWrites && rets[v] == TransferWidth
        ensures WriteAddr(v) != WriteAddr(w)
      {
        WriteAddrsDistinct(v, w);
      }
      ProgrammedUntouched(m, rets, TotalWrites, WriteAddr(w));
    }
  }

  /**
   * After a full pass, each of box cha's four registers holds its word if
   * its write succeeded and its previous content otherwise.
   */
  lemma ProgrammedBox(m: RegisterMap, rets: seq<int>, cha: int)
    requires |rets| == TotalWrites && 0 <= cha < NumBoxes
    ensures var r, w := Programmed(m, rets, TotalWrites), WritesPerBox * cha;
            && Outcome(m, r, rets[w] == TransferWidth, Filter0Addr(cha), NoFilter)
            && Outcome(m, r, rets[w + 1] == TransferWidth, CtlAddr(cha, 0), OccupancyWord(cha))
            && Outcome(m, r, rets[w + 2] == TransferWidth, CtlAddr(cha, 1), InsertWord(cha))
            && Outcome(m, r, rets[w + 3] == TransferWidth, CtlAddr(cha, 2), ClockTicks)
  {
    var w := WritesPerBox * cha;
    ProgrammedWrite(m, rets, w);
    ProgrammedWrite(m, rets, w + 1);
    ProgrammedWrite(m, rets, w + 2);
    ProgrammedWrite(m, rets, w + 3);
    assert WriteAddr(w) == Filter0Addr(cha);
    assert WriteAddr(w + 1) == CtlAddr(cha, 0) && WriteValue(w + 1) == OccupancyWord(cha);
    assert WriteAddr(w + 2) == CtlAddr(cha, 1) && WriteValue(w + 2) == InsertWord(cha);
    assert WriteAddr(w + 3) == CtlAddr(cha, 2);
  }

  /** A pass leaves every register outside its targets as it was. */
  lemma ProgrammedElsewhere(m: RegisterMap, rets: seq<int>, addr: int)
    requires |rets| == TotalWrites && !IsTarget(addr)
    ensures Keeps(m, Programmed(m, rets, TotalWrites), addr)
  {
    ProgrammedUntouched(m, rets, TotalWrites, addr);
  }

  /**
   * Programming is idempotent: a second pass with the same outcomes leaves
   * the same register map as one pass, because every write overwrites.
   */
  lemma ProgrammedIdempotent(m: RegisterMap, rets: seq<int>)
    requires |rets| == TotalWrites
    ensures Programmed(Programmed(m, rets, TotalWrites), rets, TotalWrites)
         == Programmed(m, rets, TotalWrites)
  {
    var once := Programmed(m, rets, TotalWrites);
    var twice := Programmed(once, rets, TotalWrites);
    forall addr
      ensures (addr in twice <==> addr in once) && (addr in once ==> twice[addr] == once[addr])
    {
      if w :| 0 <= w < TotalWrites && rets[w] == TransferWidth && WriteAddr(w) == addr {
        ProgrammedWritten(m, rets, TotalWrites, w);
        ProgrammedWritten(once, rets, TotalWrites, w);
      } else {
        ProgrammedUntouched(once, rets, TotalWrites, addr);
      }
    }
    assert twice.Keys == once.Keys;
  }

  /** A pass reports nothing exactly when every one of its writes succeeded. */
  lemma {:induction false} NoDiagnosticsIffAllWritten(rets: seq<int>, n: nat)
    requires n <= |rets|
    ensures WriteDiagnostics(rets, n) == [] <==> forall w :: 0 <= w < n ==> rets[w] == TransferWidth
  {
    if n > 0 {
      NoDiagnosticsIffAllWritten(rets, n - 1);
      var prefix := WriteDiagnostics(rets, n - 1);
      if rets[n - 1] == TransferWidth {
        assert WriteDiagnostics(rets, n) == prefix + [];
      } else {
        assert WriteDiagnostics(rets, n) == prefix + [FailureReport(n - 1)];
        assert |WriteDiagnostics(rets, n)| > 0;
      }
    }
  }

  /**
   * When a pass reports nothing, every box 0..17 is fully programmed with
   * the parity-selected occupancy and insert words, the clock-tick word and
   * no filtering.
   */
  lemma CleanPassProgramsEveryBox(m: RegisterMap, rets: seq<int>, cha: int)
    requires |rets| == TotalWrites && WriteDiagnostics(rets, TotalWrites) == []
    requires 0 <= cha < NumBoxes
    ensures var r := Programmed(m, rets, TotalWrites);
            && Filter0Addr(cha) in r && r[Filter0Addr(cha)] == NoFilter
            && CtlAddr(cha, 0) in r && r[CtlAddr(cha, 0)] == OccupancyWord(cha)
            && CtlAddr(cha, 1) in r && r[CtlAddr(cha, 1)] == InsertWord(cha)
            && CtlAddr(cha, 2) in r && r[CtlAddr(cha, 2)] == ClockTicks
  {
    NoDiagnosticsIffAllWritten(rets, TotalWrites);
    ProgrammedBox(m, rets, cha);
  }
}
