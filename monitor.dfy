/**
 * The sampling engine: the MSR channel as a register map, the stored
 * current/previous counter readings of every (box, counter) slot, the
 * programming pass, the sampler, start-up and one iteration of the pacing
 * loop.  Reads, writes and time-stamp reads are external: their outcomes
 * (value, byte count, cycle count) are parameters of the methods.
 */
module ChaLatency {
  import opened ChaRegisters
  import opened ChaControl
  import opened ChaProgramming
  import opened Counters
  import opened Pacing

  datatype Option<T> = None | Some(value: T)

  /**
   * One counter read: the value the read delivered (whatever it produced
   * when it failed), the byte count it reported, and the time-stamp count
   * read right after it.
   */
  datatype Reading = Reading(value: u64, ret: int, tsc: u64)

  /** A slot's stored state: the last two readings and their time stamps. */
  datatype Cell = Cell(cur: u64, prev: u64, curTsc: u64, prevTsc: u64)

  /** The events a slot counted between its two stored readings. */
  function Delta(c: Cell): u64 { Sub64(c.cur, c.prev) }

  /** Sampling a slot: current moves to previous, the new reading becomes current. */
  function Shift(c: Cell, r: Reading): Cell {
    Cell(r.value, c.cur, r.tsc, c.curTsc)
  }

  /**
   * After a sample, the slot's delta is the events counted since the
   * previous sample, across a wrap of the counter too.
   */
  lemma ShiftRecoversAdvance(c: Cell, r: Reading, d: nat)
    requires d < Modulus && r.value == Advance(c.cur, d)
    ensures Delta(Shift(c, r)) == d
    ensures Shift(c, r).prev == c.cur && Shift(c, r).prevTsc == c.curTsc
  {
    DeltaRecoversAdvance(c.cur, d);
  }

  /** The counters one sampling pass reads, in order: counters 0 and 1 of boxes 0 and 1. */
  function PassAddrs(): seq<int> {
    [CtrAddr(0, 0), CtrAddr(0, 1), CtrAddr(1, 0), CtrAddr(1, 1)]
  }

  /** The report a read leaves on the diagnostic stream. */
  function ReadReport(r: Reading): seq<Diagnostic> {
    if r.ret == TransferWidth then [] else [MsrReadFailed]
  }

  /** The reports of the four reads of one sampling pass. */
  function PassReports(rs: seq<Reading>): seq<Diagnostic>
    requires |rs| == 4
  {
    ReadReport(rs[0]) + ReadReport(rs[1]) + ReadReport(rs[2]) + ReadReport(rs[3])
  }

  /**
   * The counter differences of one pass: occupancy and inserts of box 0
   * (local memory) and of box 1 (remote memory).
   */
  datatype Emission = Emission(localOcc: u64, localIns: u64, remoteOcc: u64, remoteIns: u64)

  /** The two latency figures printed for an emission: local, then remote. */
  function Latencies(e: Emission): (Latency, Latency) {
    (EstimateLatency(e.localOcc, e.localIns), EstimateLatency(e.remoteOcc, e.remoteIns))
  }

  /**
   * The emission of a pass, built from the four slots after their samples,
   * yields the latencies of the events actually counted: if counters (0,0),
   * (0,1), (1,0) and (1,1) advanced by d0 .. d3 since their stored current
   * values, the figures are those of (d0, d1) and (d2, d3), across wraps too.
   */
  lemma PassLatencies(c: seq<Cell>, rs: seq<Reading>, d0: nat, d1: nat, d2: nat, d3: nat)
    requires |c| == 4 && |rs| == 4
    requires d0 < Modulus && rs[0].value == Advance(c[0].cur, d0)
    requires d1 < Modulus && rs[1].value == Advance(c[1].cur, d1)
    requires d2 < Modulus && rs[2].value == Advance(c[2].cur, d2)
    requires d3 < Modulus && rs[3].value == Advance(c[3].cur, d3)
    ensures var e := Emission(Delta(Shift(c[0], rs[0])), Delta(Shift(c[1], rs[1])),
                              Delta(Shift(c[2], rs[2])), Delta(Shift(c[3], rs[3])));
            Latencies(e) == (EstimateLatency(d0, d1), EstimateLatency(d2, d3))
  {
    ShiftRecoversAdvance(c[0], rs[0], d0);
    ShiftRecoversAdvance(c[1], rs[1], d1);
    ShiftRecoversAdvance(c[2], rs[2], d2);
    ShiftRecoversAdvance(c[3], rs[3], d3);
  }

  /** The per-core MSR channel, seen as the registers it reads and writes. */
  class MsrDevice {
    var regs: RegisterMap
    /** The addresses read so far, oldest first. */
    ghost var readLog: seq<int>

    constructor (initial: RegisterMap)
      ensures regs == initial && readLog == []
    {
      regs := initial;
      readLog := [];
    }

    /**
     * Reads register `addr`.  The hardware's answer is external: `delivered`
     * is the value the read produced (for a counter, whatever it had counted
     * to; after a failure, whatever was left in the buffer) and `ret` the
     * byte count the channel reports.
     */
    method Read(addr: int, delivered: u64, ret: int) returns (value: u64, ok: bool)
      modifies this`readLog
      ensures value == delivered && ok == (ret == TransferWidth)
      ensures readLog == old(readLog) + [addr]
    {
      readLog := readLog + [addr];
      value, ok := delivered, ret == TransferWidth;
    }

    /**
     * Reads register `addr` as a 64-bit word, for registers whose bit fields
     * the caller picks apart; `delivered` and `ret` are as for Read.
     */
    method ReadWord(addr: int, delivered: bv64, ret: int) returns (value: bv64, ok: bool)
      modifies this`readLog
      ensures value == delivered && ok == (ret == TransferWidth)
      ensures readLog == old(readLog) + [addr]
    {
      readLog := readLog + [addr];
      value, ok := delivered, ret == TransferWidth;
    }

    /**
     * Writes `value` to register `addr`; `ret` is the byte count the channel
     * reports.  Only a full eight-byte transfer changes the register.
     */
    method Write(addr: int, value: bv64, ret: int) returns (ok: bool)
      modifies this`regs
      ensures ok == (ret == TransferWidth)
      ensures regs == if ok then old(regs)[addr := value] else old(regs)
    {
      ok := ret == TransferWidth;
      if ok {
        regs := regs[addr := value];
      }
    }
  }

  /** The monitor's state: the channel, the sample arrays and the pacing mark. */
  class ChaMonitor {
    const dev: MsrDevice
    const curVal: array2<u64>
    const prevVal: array2<u64>
    const curTsc: array2<u64>
    const prevTsc: array2<u64>
    var tscRatio: int
    var prevRdtsc: u64
    var curRdtsc: u64
    var diagnostics: seq<Diagnostic>

    ghost predicate Valid()
      reads this
    {
      && curVal.Length0 == NumBoxes && curVal.Length1 == NumCounters
      && prevVal.Length0 == NumBoxes && prevVal.Length1 == NumCounters
      && curTsc.Length0 == NumBoxes && curTsc.Length1 == NumCounters
      && prevTsc.Length0 == NumBoxes && prevTsc.Length1 == NumCounters
      && curVal != prevVal && curVal != curTsc && curVal != prevTsc
      && prevVal != curTsc && prevVal != prevTsc && curTsc != prevTsc
      && 0 <= tscRatio <= 255
    }

    /** Slot (cha, ctr) exists in all four arrays. */
    predicate InArrays(cha: int, ctr: int) {
      && 0 <= cha < curVal.Length0 && 0 <= ctr < curVal.Length1
      && 0 <= cha < prevVal.Length0 && 0 <= ctr < prevVal.Length1
      && 0 <= cha < curTsc.Length0 && 0 <= ctr < curTsc.Length1
      && 0 <= cha < prevTsc.Length0 && 0 <= ctr < prevTsc.Length1
    }

    /** The stored state of slot (cha, ctr). */
    ghost function CellAt(cha: int, ctr: int): Cell
      reads curVal, prevVal, curTsc, prevTsc
      requires InArrays(cha, ctr)
    {
      Cell(curVal[cha, ctr], prevVal[cha, ctr], curTsc[cha, ctr], prevTsc[cha, ctr])
    }

    /** A monitor as the process starts: every stored value is zero. */
    constructor (dev: MsrDevice)
      ensures Valid() && this.dev == dev
      ensures fresh(curVal) && fresh(prevVal) && fresh(curTsc) && fresh(prevTsc)
      ensures forall i, j :: 0 <= i < NumBoxes && 0 <= j < NumCounters ==>
                CellAt(i, j) == Cell(0, 0, 0, 0)
      ensures tscRatio == 0 && prevRdtsc == 0 && curRdtsc == 0 && diagnostics == []
    {
      this.dev := dev;
      curVal := new u64[NumBoxes, NumCounters]((i, j) => 0);
      prevVal := new u64[NumBoxes, NumCounters]((i, j) => 0);
      curTsc := new u64[NumBoxes, NumCounters]((i, j) => 0);
      prevTsc := new u64[NumBoxes, NumCounters]((i, j) => 0);
      tscRatio, prevRdtsc, curRdtsc := 0, 0, 0;
      diagnostics := [];
    }

    /**
     * Samples counter ctr of box cha: the read of CtrAddr(cha, ctr) is
     * described by r.  A failed read is reported and still stored.
     */
    method Sample(cha: int, ctr: int, r: Reading)
      requires Valid() && 0 <= cha < NumBoxes && 0 <= ctr < NumCounters
      modifies this`diagnostics, dev`readLog, curVal, prevVal, curTsc, prevTsc
      ensures Valid()
      ensures dev.readLog == old(dev.readLog) + [CtrAddr(cha, ctr)]
      ensures CellAt(cha, ctr) == Shift(old(CellAt(cha, ctr)), r)
      ensures forall i, j :: 0 <= i < NumBoxes && 0 <= j < NumCounters && (i != cha || j != ctr) ==>
                CellAt(i, j) == old(CellAt(i, j))
      ensures diagnostics == old(diagnostics) + ReadReport(r)
    {
      var value, ok := dev.Read(CtrAddr(cha, ctr), r.value, r.ret);
      if !ok {
        diagnostics := diagnostics + [MsrReadFailed];
      }
      prevVal[cha, ctr] := curVal[cha, ctr];
      curVal[cha, ctr] := value;
      prevTsc[cha, ctr] := curTsc[cha, ctr];
      curTsc[cha, ctr] := r.tsc;
    }

    /**
     * One sampling pass: counters 0 and 1 of boxes 0 and 1, in that order,
     * with the reads rs[0] .. rs[3].
     */
    method SamplePass(rs: seq<Reading>)
      requires Valid() && |rs| == 4
      modifies this`diagnostics, dev`readLog, curVal, prevVal, curTsc, prevTsc
      ensures Valid()
      ensures dev.readLog == old(dev.readLog) + PassAddrs()
      ensures CellAt(0, 0) == Shift(old(CellAt(0, 0)), rs[0])
      ensures CellAt(0, 1) == Shift(old(CellAt(0, 1)), rs[1])
      ensures CellAt(1, 0) == Shift(old(CellAt(1, 0)), rs[2])
      ensures CellAt(1, 1) == Shift(old(CellAt(1, 1)), rs[3])
      ensures forall i, j :: 0 <= i < NumBoxes && 0 <= j < NumCounters && (i >= 2 || j >= 2) ==>
                CellAt(i, j) == old(CellAt(i, j))
      ensures diagnostics == old(diagnostics) + PassReports(rs)
    {
      Sample(0, 0, rs[0]);
      Sample(0, 1, rs[1]);
      Sample(1, 0, rs[2]);
      Sample(1, 1, rs[3]);
    }

    /**
     * The programming pass over boxes 0 .. NumBoxes-1; rets are the byte
     * counts the channel reports for the writes, in issue order.  A failed
     * write is reported and the pass goes on.
     */
    method ProgramBoxes(rets: seq<int>)
      requires Valid() && |rets| == TotalWrites
      modifies dev`regs, this`diagnostics
      ensures Valid()
      ensures dev.regs == Programmed(old(dev.regs), rets, TotalWrites)
      ensures diagnostics == old(diagnostics) + WriteDiagnostics(rets, TotalWrites)
    {
      for cha := 0 to NumBoxes
        invariant dev.regs == Programmed(old(dev.regs), rets, WritesPerBox * cha)
        invariant diagnostics == old(diagnostics) + WriteDiagnostics(rets, WritesPerBox * cha)
      {
        ghost var done := WriteDiagnostics(rets, WritesPerBox * cha);
        ProgramBox(cha, rets);
        ProgrammedByBox(old(dev.regs), rets, cha);
        assert diagnostics == old(diagnostics) + (done + BoxReports(rets, cha));
      }
    }

    /**
     * The four writes of box cha: no filtering, the parity-selected
     * occupancy and insert words, and the clock-tick word.
     */
    method ProgramBox(cha: int, rets: seq<int>)
      requires Valid() && 0 <= cha < NumBoxes && |rets| == TotalWrites
      modifies dev`regs, this`diagnostics
      ensures Valid()
      ensures dev.regs == BoxProgrammed(old(dev.regs), rets, cha)
      ensures diagnostics == old(diagnostics) + BoxReports(rets, cha)
    {
      var w := WritesPerBox * cha;
      WriteTargetsOfBox(cha);
      WriteOrReport(Filter0Addr(cha), NoFilter, rets[w], Filter0WriteFailed(cha));
      WriteOrReport(CtlAddr(cha, 0), OccupancyWord(cha), rets[w + 1], CounterWriteFailed(0));
      WriteOrReport(CtlAddr(cha, 1), InsertWord(cha), rets[w + 2], CounterWriteFailed(1));
      WriteOrReport(CtlAddr(cha, 2), ClockTicks, rets[w + 3], CounterWriteFailed(2));
    }

    /** One write of the pass; a short transfer is reported and nothing else happens. */
    method WriteOrReport(addr: int, value: bv64, ret: int, report: Diagnostic)
      requires Valid()
      modifies dev`regs, this`diagnostics
      ensures Valid()
      ensures dev.regs == if ret == TransferWidth then old(dev.regs)[addr := value] else old(dev.regs)
      ensures diagnostics == old(diagnostics) + ReportIfFailed(ret, report)
    {
      var ok := dev.Write(addr, value, ret);
      if !ok {
        diagnostics := diagnostics + [report];
      }
    }

    /**
     * Start-up: read the platform-info MSR (the read delivers ratioMsr and
     * reports ratioRet bytes, which is not checked) and take the TSC ratio
     * from it, program every box, set the pacing mark to t0 and take the
     * priming pass.
     */
    method Setup(ratioMsr: bv64, ratioRet: int, rets: seq<int>, t0: u64, priming: seq<Reading>)
      requires Valid() && |rets| == TotalWrites && |priming| == 4
      modifies dev`regs, dev`readLog, this`tscRatio, this`prevRdtsc, this`diagnostics, curVal, prevVal, curTsc, prevTsc
      ensures Valid()
      ensures tscRatio == TscRatio(ratioMsr)
      ensures dev.regs == Programmed(old(dev.regs), rets, TotalWrites)
      ensures dev.readLog == old(dev.readLog) + [PlatformInfoMsr] + PassAddrs()
      ensures prevRdtsc == t0
      ensures CellAt(0, 0) == Shift(old(CellAt(0, 0)), priming[0])
      ensures CellAt(0, 1) == Shift(old(CellAt(0, 1)), priming[1])
      ensures CellAt(1, 0) == Shift(old(CellAt(1, 0)), priming[2])
      ensures CellAt(1, 1) == Shift(old(CellAt(1, 1)), priming[3])
      ensures forall i, j :: 0 <= i < NumBoxes && 0 <= j < NumCounters && (i >= 2 || j >= 2) ==>
                CellAt(i, j) == old(CellAt(i, j))
      ensures diagnostics ==
                old(diagnostics) + WriteDiagnostics(rets, TotalWrites) + PassReports(priming)
    {
      var platformInfo, _ := dev.ReadWord(PlatformInfoMsr, ratioMsr, ratioRet);
      tscRatio := TscRatio(platformInfo);
      ProgramBoxes(rets);
      prevRdtsc := t0;
      SamplePass(priming);
    }

    /**
     * One iteration of the sampling loop at cycle count `now`.  It fires a
     * pass, with the reads rs, exactly when `now` exceeds the mark by more
     * than one interval's cycles; a pass emits the four counter differences
     * and moves the mark to `now`.  Otherwise only curRdtsc changes.
     */
    method Step(now: u64, rs: seq<Reading>) returns (out: Option<Emission>)
      requires Valid() && |rs| == 4
      modifies this`prevRdtsc, this`curRdtsc, this`diagnostics, dev`readLog
      modifies curVal, prevVal, curTsc, prevTsc
      ensures Valid()
      ensures curRdtsc == now
      ensures dev.regs == old(dev.regs)
      ensures dev.readLog == old(dev.readLog) + if out.Some? then PassAddrs() else []
      ensures out.Some? <==> Fires(old(prevRdtsc), now, Threshold(tscRatio))
      ensures prevRdtsc == if out.Some? then now else old(prevRdtsc)
      ensures out.None? ==> diagnostics == old(diagnostics)
      ensures out.None? ==> forall i, j :: 0 <= i < NumBoxes && 0 <= j < NumCounters ==>
                CellAt(i, j) == old(CellAt(i, j))
      ensures out.Some? ==>
                && CellAt(0, 0) == Shift(old(CellAt(0, 0)), rs[0])
                && CellAt(0, 1) == Shift(old(CellAt(0, 1)), rs[1])
                && CellAt(1, 0) == Shift(old(CellAt(1, 0)), rs[2])
                && CellAt(1, 1) == Shift(old(CellAt(1, 1)), rs[3])
                && diagnostics == old(diagnostics) + PassReports(rs)
      ensures out.Some? ==> forall i, j :: 0 <= i < NumBoxes && 0 <= j < NumCounters && (i >= 2 || j >= 2) ==>
                CellAt(i, j) == old(CellAt(i, j))
      ensures out.Some? ==> out.value == Emission(Delta(CellAt(0, 0)), Delta(CellAt(0, 1)),
                                                  Delta(CellAt(1, 0)), Delta(CellAt(1, 1)))
    {
      curRdtsc := now;
      if curRdtsc > prevRdtsc + Threshold(tscRatio) {
        SamplePass(rs);
        out := Some(Emission(Sub64(curVal[0, 0], prevVal[0, 0]), Sub64(curVal[0, 1], prevVal[0, 1]),
                             Sub64(curVal[1, 0], prevVal[1, 0]), Sub64(curVal[1, 1], prevVal[1, 1])));
        prevRdtsc := curRdtsc;
      } else {
        out := None;
      }
    }
  }
}
