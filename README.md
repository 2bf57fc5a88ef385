# cha-latency in Dafny

A model of the counter engine of `cha_latency.c`, a tool that estimates memory latency on an Icelake
server from the uncore CHA (caching/home agent) performance-monitoring boxes. The tool does the
following:

- It programs counter 0 of every box 0..17 to count TOR occupancy of demand data reads that miss.
  Even boxes count those homed in local memory and odd boxes those homed in remote memory.
- It programs counter 1 the same way to count TOR inserts, and counter 2 to count clock ticks.
- It samples counters 0 and 1 of boxes 0 and 1. The pacing uses the time-stamp counter (TSC): a pass
  fires once more than one interval of cycles has elapsed since the previous pass.
- From each pair of unsigned 64-bit counter differences it prints a Little's-law latency. Box 0 gives
  the local figure and box 1 the remote one.

The project has six modules:

- `ChaRegisters` (`registers.dfy`): MSR address arithmetic `base + 0xE*cha + slot`, the decoding of
  an address back to its box and slot, containment in a box's 14-register block, and disjointness.
- `ChaControl` (`control.dfy`): the four parity-selected TOR control words and the clock-tick word,
  and which bit fields separate them.
- `ChaProgramming` (`programming.dfy`): the programming pass as a fold of 72 writes over a register
  map. A write that does not transfer 8 bytes is reported and leaves its register unchanged. This
  module proves what every register holds after the pass, that the pass is idempotent, and that it
  reports nothing exactly when every write succeeded.
- `Counters` (`counters.dfy`): unsigned 64-bit subtraction written out as `% 2^64`, recovery of the
  events counted between two readings across a wrap, and the latency estimate over exact reals.
- `Pacing` (`pacing.dfy`): the TSC ratio taken from bits 8..15 of MSR 0xCE, the threshold in
  cycles, and the firing rule `now > mark + threshold` over traces of loop iterations.
- `ChaLatency` (`monitor.dfy`): the imperative part.
  - `MsrDevice` is the per-core MSR channel, a register map with `Read` and `Write`.
  - `ChaMonitor` holds the four 18×4 `array2` sample arrays of the C globals, the ratio, the pacing
    mark `prevRdtsc`, `curRdtsc`, and the diagnostic stream.
  - Its methods are the sampler, the programming loop, start-up and one pacing-loop iteration.

Inputs from hardware and the OS are method parameters:

- the value and byte count of every `pread`, including the read of MSR 0xCE, whose byte count the
  source ignores;
- the byte count of every `pwrite`;
- every `rdtscp` cycle count.

## Model

| member | source | states |
|---|---|---|
| ChaRegisters.BoxOfIsBlock | cha_latency.c:20-27 | an address decodes to box `cha` exactly when it lies in `[0xE00+0xE*cha, 0xE0D+0xE*cha]` |
| ChaRegisters.DecodeBlockAddr | cha_latency.c:20-27 | offset `off < 0xE` of box `cha`'s block decodes back to `(cha, off)` |
| ChaRegisters.CtrAddrDecode | cha_latency.c:76 | counter address `0xE08+0xE*cha+ctr` decodes back to box `cha` and slot `8+ctr` |
| ChaRegisters.CtlAddrDecode | cha_latency.c:128-142 | control address `0xE01+0xE*cha+k` decodes back to box `cha` and slot `1+k` |
| ChaRegisters.Filter0AddrDecode | cha_latency.c:120 | filter address `0xE05+0xE*cha` decodes back to box `cha` and slot 5 |
| ChaRegisters.CtrAddrInBlock | cha_latency.c:76 | for cha < 18 and ctr < 4, the counter address lies inside box cha's 14-register block |
| ChaRegisters.CtrAddrsDistinct | cha_latency.c:76 | counter addresses are equal iff their (box, counter) pairs are equal |
| ChaControl.ScopeFollowsParity | cha_latency.c:129-136 | occupancy and insert words set the local bit (39) iff the box is even and the remote bit (40) iff it is odd |
| ChaControl.NeighbourBoxesDifferInScopeOnly | cha_latency.c:129-136 | words of boxes cha and cha+1 for the same counter XOR to `0x0000018000000000` |
| ChaControl.OccupancyAndInsertDifferInEventOnly | cha_latency.c:129-136 | in one box, occupancy XOR insert is `0x3`; they agree outside bits 0..7, where they hold events 0x36 and 0x35 |
| ChaProgramming.WriteAddrDecode | cha_latency.c:118-148 | write number w targets box w/4: filter 0 first, then control registers 0, 1 and 2 |
| ChaProgramming.WriteAddrsDistinct | cha_latency.c:118-148 | two writes of a pass hit the same register iff they are the same write |
| ChaProgramming.TargetsAreBoxRegisters | cha_latency.c:118-148 | the registers written are exactly filter 0 and control 0..2 of boxes 0..17 |
| ChaProgramming.WriteTargetsOfBox | cha_latency.c:120-143 | box cha's four writes are (filter0, 0), (ctl0, occupancy word), (ctl1, insert word), (ctl2, `0x400000`) with their failure messages |
| ChaProgramming.StatusNeverWritten | cha_latency.c:24 | the status register `0xE07+0xE*cha` of a box is never a target of the pass |
| ChaProgramming.ProgrammedByBox | cha_latency.c:118-148 | the 72-write fold equals applying box 0, box 1, … in turn, for the registers and for the reports |
| ChaProgramming.ProgrammedWritten | cha_latency.c:118-148 | a successful write is never overwritten by a later write of the pass |
| ChaProgramming.ProgrammedUntouched | cha_latency.c:118-148 | a register that no successful write targets keeps its content |
| ChaProgramming.ProgrammedWrite | cha_latency.c:118-148 | after the pass, each write's register holds its value if the write transferred 8 bytes and its old content otherwise |
| ChaProgramming.ProgrammedBox | cha_latency.c:118-148 | after the pass, box cha's filter 0, ctl0, ctl1 and ctl2 each hold 0, the occupancy word, the insert word or `0x400000` if that write succeeded, and keep their content if it failed |
| ChaProgramming.ProgrammedElsewhere | cha_latency.c:118-148 | every register outside the targets is unchanged by the pass |
| ChaProgramming.ProgrammedIdempotent | cha_latency.c:118-148 | two passes with the same outcomes leave the same register map as one pass |
| ChaProgramming.NoDiagnosticsIffAllWritten | cha_latency.c:123-147 | the pass reports nothing iff every one of its writes transferred 8 bytes |
| ChaProgramming.CleanPassProgramsEveryBox | cha_latency.c:118-148 | after a pass without reports, every box 0..17 holds all four words |
| Counters.DeltaRecoversAdvance | cha_latency.c:168-169 | if the counter advanced by any d < 2^64, including across a wrap, the uint64 difference is d |
| Counters.AdvanceByDelta | cha_latency.c:174-175 | advancing the older reading by the uint64 difference gives the newer reading |
| Counters.DeltaWithoutWrap | cha_latency.c:168-169 | without a wrap the difference is the plain integer difference |
| Counters.EstimateLatency | cha_latency.c:168-176 | the estimate is non-finite iff the insert delta is 0; otherwise latency × inserts = occupancy × ns-per-cycle, and latency ≥ 0 |
| Counters.EstimateExample | cha_latency.c:168-176 | occupancy 100→260 and inserts 10→26 give 25/6 ns |
| Pacing.RatioField | cha_latency.c:114-115 | the ratio field is < 256 and is bits 8..15 of the MSR, shifted down |
| Pacing.TscRatio | cha_latency.c:115 | the TSC ratio is always in 0..255 |
| Pacing.Threshold | cha_latency.c:161 | the interval's cycle threshold is between 0 and 25.5e9, and at least 1e8 when the ratio is positive |
| Pacing.PassesStep | cha_latency.c:159-182 | one more iteration fires iff its count exceeds the current mark plus the threshold; a pass moves the mark to that count, otherwise the mark stays |
| Pacing.MarkIsLastPass | cha_latency.c:181 | the pacing mark is the count of the last pass, or the initial mark if none fired |
| Pacing.PassesSpaced | cha_latency.c:160-181 | the first pass is more than one threshold after the initial mark, and any two passes are more than one threshold apart |
| Pacing.PassesObserved | cha_latency.c:160 | every pass happens at a cycle count some iteration read |
| Pacing.PassesBounded | cha_latency.c:159-182 | with all counts ≤ hi, n passes satisfy mark + n·(threshold+1) ≤ hi: at most one pass per interval |
| ChaLatency.ShiftRecoversAdvance | cha_latency.c:81-84 | after a sample, the slot's previous value and time stamp are the old current ones, and its delta is the number of events counted, across a wrap too |
| ChaLatency.PassLatencies | cha_latency.c:162-176 | if counters (0,0), (0,1), (1,0), (1,1) advanced by d0..d3 < 2^64 since their stored values, the emission of the pass gives the local latency of (d0, d1) and the remote latency of (d2, d3), across wraps too |
| ChaLatency.MsrDevice.Read | cha_latency.c:77 | a read logs its address, returns what the hardware delivered, and succeeds iff 8 bytes came back |
| ChaLatency.MsrDevice.ReadWord | cha_latency.c:114 | a 64-bit register read logs its address, returns the delivered word, and succeeds iff 8 bytes came back |
| ChaLatency.MsrDevice.Write | cha_latency.c:122 | a write succeeds iff 8 bytes went through, and only then replaces the register |
| ChaLatency.ChaMonitor.constructor | cha_latency.c:31-38 | all sample arrays, the ratio, `prev_rdtsc` and `cur_rdtsc` start at zero |
| ChaLatency.ChaMonitor.Sample | cha_latency.c:71-85 | reads counter address `0xE08+0xE*cha+ctr`; the slot's current value and time stamp move to previous, and the new read and time stamp become current, even after a failed read, which is reported; every other slot of all four arrays is unchanged |
| ChaLatency.ChaMonitor.SamplePass | cha_latency.c:162-165 | samples (0,0), (0,1), (1,0), (1,1) in that order; all other slots are unchanged |
| ChaLatency.ChaMonitor.WriteOrReport | cha_latency.c:122-126 | one write of the pass; a short transfer adds its report and does nothing else |
| ChaLatency.ChaMonitor.ProgramBox | cha_latency.c:119-147 | box cha's four writes, in order, with their reports |
| ChaLatency.ChaMonitor.ProgramBoxes | cha_latency.c:118-148 | the register map becomes the 72-write fold over boxes 0..17, and the reports are those of the failed writes in order; no failure stops the loop |
| ChaLatency.ChaMonitor.Setup | cha_latency.c:113-155 | reads MSR 0xCE through the channel first (byte count not checked) and sets the ratio from bits 8..15 of that word; then the full programming pass, mark := t0, and the priming pass; the read log gains 0xCE followed by the four counter addresses |
| ChaLatency.ChaMonitor.Step | cha_latency.c:159-182 | `cur_rdtsc := now`; a pass fires iff `now > prev_rdtsc + threshold`; then it samples the four slots, emits their four uint64 differences and sets `prev_rdtsc := now`; otherwise nothing but `cur_rdtsc` changes |

## Left out

- Inline-assembly `rdtsc`, `rdtscp` and `get_core_number` (cha_latency.c:43-69) are not modelled.
  Cycle counts are parameters, and the core number only chooses the device file.
- `open` of `/dev/cpu/N/msr` and its failure exit (cha_latency.c:97-107) are left out. The channel is
  an existing `MsrDevice`.
- Signal handling and `exit` (cha_latency.c:87-95) are left out: they are process lifecycle.
- `printf`, `perror`, `fflush` and the header line are left out. Diagnostics are a sequence of
  `Diagnostic` values with one entry per report. The printed latencies are the `Emission` returned
  by `Step`.
- The infinite `while(1)` is left out. It is modelled as one `Step` plus lemmas over traces of steps;
  termination is not a property of the source.
- Counters.EstimateLatency: computes `(occ/ins) * ns_per_clk` over exact reals, not IEEE doubles.
  Rounding, and the difference between NaN (0/0) and infinity, are not modelled; both are `NonFinite`.
- ChaLatency.ChaMonitor.Step: compares over mathematical integers. The source compares doubles,
  which round `prev_rdtsc` and `cur_rdtsc` once they are above 2^53.
- ChaLatency.MsrDevice.Write: a failed write is assumed to leave the register unchanged. The source
  does not say what a short `pwrite` did to the MSR.
- Counter values and time stamps are unbounded integers restricted to `0 .. 2^64-1`. C's `uint64_t`
  subtraction is written out as `% 2^64`. Control words and the ratio register are `bv64`.
- The code programs all 18 boxes but samples only boxes 0 and 1. The model follows the code.
- The pacing test is strict: a pass fires when the count is greater than the mark plus the
  threshold, not greater or equal. The model follows the code.
- `cur_rdtsc` is assigned on every iteration, so an iteration that does not fire still changes it.
  Nothing else changes in that case.
