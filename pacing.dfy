/**
 * Cycle-count pacing of the sampling loop.  The loop spins reading the
 * time-stamp counter; a sampling pass fires when the count exceeds the
 * count of the previous pass by more than a threshold of one sampling
 * interval's worth of cycles, and the pass then becomes the new mark.
 */
module Pacing {

  /** Seconds between sampling passes. */
  const SampleIntervalSecs: int := 1
  /** MSR holding the TSC ratio (MSR_PLATFORM_INFO). */
  const PlatformInfoMsr: int := 0xCE
  /** Bits 8..15 of the platform-info MSR. */
  const RatioMask: bv64 := 0xFF00

  /** The ratio field of the platform-info MSR, shifted down to bit 0. */
  function RatioField(msr: bv64): (r: bv64)
    ensures r < 256
    ensures r << 8 == msr & RatioMask
  {
    (msr & RatioMask) >> 8
  }

  /** The TSC ratio: TSC frequency in units of 100 MHz, always 0..255. */
  function TscRatio(msr: bv64): (r: int)
    ensures 0 <= r <= 255
  {
    RatioField(msr) as int
  }

  /** Cycles in one sampling interval: interval * ratio * 100 MHz. */
  function Threshold(ratio: int): (t: int)
    requires 0 <= ratio <= 255
    ensures 0 <= t <= SampleIntervalSecs * 255 * 100000000
    ensures ratio > 0 ==> t >= 100000000
  {
    SampleIntervalSecs * ratio * 100 * 1000000
  }

  /** An iteration at cycle count `now` fires a sampling pass. */
  predicate Fires(mark: int, now: int, threshold: int) {
    now > mark + threshold
  }

  /** The mark after iterations at the cycle counts `nows`. */
  function MarkAfter(mark: int, nows: seq<int>, threshold: int): int
    decreases |nows|
  {
    if nows == [] then mark
    else if Fires(mark, nows[0], threshold) then MarkAfter(nows[0], nows[1..], threshold)
    else MarkAfter(mark, nows[1..], threshold)
  }

  /** The cycle counts at which iterations at `nows` fire passes. */
  function Passes(mark: int, nows: seq<int>, threshold: int): seq<int>
    decreases |nows|
  {
    if nows == [] then []
    else if Fires(mark, nows[0], threshold) then [nows[0]] + Passes(nows[0], nows[1..], threshold)
    else Passes(mark, nows[1..], threshold)
  }

  /**
   * One more iteration: it fires exactly when its count exceeds the current
   * mark by more than the threshold, and then adds one pass.
   */
  lemma {:induction false} PassesStep(mark: int, nows: seq<int>, now: int, threshold: int)
    ensures Passes(mark, nows + [now], threshold) ==
            Passes(mark, nows, threshold) +
            (if Fires(MarkAfter(mark, nows, threshold), now, threshold) then [now] else [])
    ensures MarkAfter(mark, nows + [now], threshold) ==
            if Fires(MarkAfter(mark, nows, threshold), now, threshold) then now
            else MarkAfter(mark, nows, threshold)
    decreases |nows|
  {
    if nows == [] {
      assert nows + [now] == [now];
    } else {
      assert (nows + [now])[1..] == nows[1..] + [now];
      if Fires(mark, nows[0], threshold) {
        PassesStep(nows[0], nows[1..], now, threshold);
      } else {
        PassesStep(mark, nows[1..], now, threshold);
      }
    }
  }

  /** The mark is the count of the last pass, or unchanged if none fired. */
  lemma {:induction false} MarkIsLastPass(mark: int, nows: seq<int>, threshold: int)
    ensures var ps := Passes(mark, nows, threshold);
            MarkAfter(mark, nows, threshold) == if ps == [] then mark else ps[|ps| - 1]
    decreases |nows|
  {
    if nows != [] {
      if Fires(mark, nows[0], threshold) {
        MarkIsLastPass(nows[0], nows[1..], threshold);
      } else {
        MarkIsLastPass(mark, nows[1..], threshold);
      }
    }
  }

  /**
   * Passes are more than one threshold after the initial mark and more
   * than one threshold apart from each other: no two passes fall in the
   * same interval.
   */
  lemma {:induction false} PassesSpaced(mark: int, nows: seq<int>, threshold: int)
    requires threshold >= 0
    ensures var ps := Passes(mark, nows, threshold);
            && (ps != [] ==> ps[0] > mark + threshold)
            && forall i, j :: 0 <= i < j < |ps| ==> ps[j] > ps[i] + threshold
    decreases |nows|
  {
    if nows != [] {
      if Fires(mark, nows[0], threshold) {
        var rest := Passes(nows[0], nows[1..], threshold);
        PassesSpaced(nows[0], nows[1..], threshold);
        var ps := [nows[0]] + rest;
        forall i, j | 0 <= i < j < |ps| ensures ps[j] > ps[i] + threshold {
          if i == 0 {
            assert ps[j] == rest[j - 1];
            if j > 1 {
              assert rest[j - 1] > rest[0] + threshold;
            }
          } else {
            assert ps[i] == rest[i - 1] && ps[j] == rest[j - 1];
          }
        }
      } else {
        PassesSpaced(mark, nows[1..], threshold);
      }
    }
  }

  /** Every pass happens at a cycle count some iteration observed. */
  lemma {:induction false} PassesObserved(mark: int, nows: seq<int>, threshold: int)
    ensures forall t :: t in Passes(mark, nows, threshold) ==> t in nows
    decreases |nows|
  {
    if nows != [] {
      if Fires(mark, nows[0], threshold) {
        PassesObserved(nows[0], nows[1..], threshold);
      } else {
        PassesObserved(mark, nows[1..], threshold);
      }
    }
  }

  /**
   * If no iteration observes a count above `hi`, at most one pass fires per
   * threshold + 1 cycles between the initial mark and `hi`.
   */
  lemma {:induction false} PassesBounded(mark: int, nows: seq<int>, threshold: int, hi: int)
    requires threshold >= 0
    requires forall i :: 0 <= i < |nows| ==> nows[i] <= hi
    ensures var n := |Passes(mark, nows, threshold)|;
            n == 0 || mark + n * (threshold + 1) <= hi
    decreases |nows|
  {
    if nows != [] {
      if Fires(mark, nows[0], threshold) {
        PassesBounded(nows[0], nows[1..], threshold, hi);
        var n := |Passes(nows[0], nows[1..], threshold)|;
        assert (n + 1) * (threshold + 1) == n * (threshold + 1) + threshold + 1;
      } else {
        PassesBounded(mark, nows[1..], threshold, hi);
      }
    }
  }
}
