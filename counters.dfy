/**
 * Counter values, their unsigned 64-bit differences, and the latency figure
 * derived from an occupancy/insert pair of differences.
 */
module Counters {

  /** 2^64: counters and timestamps wrap to zero here. */
  const Modulus: int := 0x1_0000_0000_0000_0000

  /** An unsigned 64-bit value (a counter reading or a cycle count). */
  type u64 = x: int | 0 <= x < Modulus

  /** Unsigned 64-bit subtraction: the difference wraps modulo 2^64. */
  function Sub64(a: u64, b: u64): u64 {
    (a - b) % Modulus
  }

  /** A free-running 64-bit counter at `v` after `d` more events. */
  function Advance(v: u64, d: nat): u64 {
    (v + d) % Modulus
  }

  /**
   * The difference of two readings recovers the number of events counted
   * between them, even when the counter wrapped, as long as fewer than 2^64
   * events occurred.
   */
  lemma DeltaRecoversAdvance(prev: u64, d: nat)
    requires d < Modulus
    ensures Sub64(Advance(prev, d), prev) == d
  {
  }

  /** Conversely, advancing the older reading by the difference gives the newer one. */
  lemma AdvanceByDelta(prev: u64, cur: u64)
    ensures Advance(prev, Sub64(cur, prev)) == cur
  {
  }

  /** Without a wrap the difference is the plain integer difference. */
  lemma DeltaWithoutWrap(prev: u64, cur: u64)
    requires prev <= cur
    ensures Sub64(cur, prev) == cur - prev
  {
  }

  /** Frequency of the CHA clock in Hz. */
  const ChaFreq: int := 2400000000
  /** Nanoseconds per CHA clock cycle, 1e9 / ChaFreq (exactly 5/12). */
  const NsPerClk: real := 1000000000.0 / 2400000000.0

  /** A latency figure: finite, or the non-finite result of dividing by zero. */
  datatype Latency = Finite(ns: real) | NonFinite

  /**
   * Little's law: mean occupancy over mean arrival count is the mean time a
   * request spends in the table, scaled from cycles to nanoseconds.
   */
  function EstimateLatency(occ: u64, ins: u64): (l: Latency)
    ensures l.NonFinite? <==> ins == 0
    ensures l.Finite? ==> l.ns * (ins as real) == (occ as real) * NsPerClk
    ensures l.Finite? ==> l.ns >= 0.0
  {
    if ins == 0 then NonFinite else Finite((occ as real / ins as real) * NsPerClk)
  }

  /**
   * Occupancy 100 then 260 and inserts 10 then 26 give 160/16 cycles, that
   * is 25/6 (about 4.167) nanoseconds.
   */
  lemma EstimateExample()
    ensures EstimateLatency(Sub64(260, 100), Sub64(26, 10)) == Finite(25.0 / 6.0)
  {
  }
}
