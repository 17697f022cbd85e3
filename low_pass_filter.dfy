/** The baseline estimator of the firmware (`lpfCalc`): a boxcar average of a
    burst of `lpfCount` consecutive ADC readings, computed as the burst's sum
    shifted right by `lpfDiv`.
 */
module LowPassFilter {
  import opened Bits

  /** One `analogRead` result: the 10-bit ADC range. */
  type Sample = x: int | 0 <= x <= AdcMax

  const AdcMax := 1023
  /** `lpfCount`: readings per calibration burst. */
  const LpfCount := 64
  /** `lpfDiv`: the right shift applied to the burst's sum. */
  const LpfDiv := 6
  /** The 32-bit range of the accumulator `lpf`. */
  const U32Limit := 0x1_0000_0000

  /** The sum the accumulator holds after reading the burst in order. */
  function Sum(s: seq<int>): (r: int)
    ensures (forall k :: 0 <= k < |s| ==> 0 <= s[k]) ==> 0 <= r
  {
    if s == [] then 0 else Sum(s[..|s| - 1]) + s[|s| - 1]
  }

  /** `lpf >> lpfDiv` for a full burst: the new baseline `ldrAvr[i]`. */
  function Baseline(burst: seq<Sample>): (avr: int)
    requires |burst| == LpfCount
    ensures 0 <= avr <= AdcMax
  {
    SumBounded(burst, 0, AdcMax);
    Sum(burst) / Pow2(LpfDiv)
  }

  /** A sum of values in [lo, hi] lies in [n * lo, n * hi]. */
  lemma {:induction false} SumBounded(s: seq<int>, lo: int, hi: int)
    requires forall k :: 0 <= k < |s| ==> lo <= s[k] <= hi
    ensures |s| * lo <= Sum(s) <= |s| * hi
  {
    if s != [] {
      var init := s[..|s| - 1];
      assert forall k :: 0 <= k < |init| ==> init[k] == s[k];
      SumBounded(init, lo, hi);
      MulSucc(|init|, lo);
      MulSucc(|init|, hi);
    }
  }

  lemma MulSucc(n: int, x: int)
    ensures (n + 1) * x == n * x + x
  {
  }

  /** The shift divides by the burst length: the baseline is the floor of the mean. */
  lemma BaselineIsMean(burst: seq<Sample>)
    requires |burst| == LpfCount
    ensures Pow2(LpfDiv) == LpfCount
    ensures Baseline(burst) * LpfCount <= Sum(burst) < (Baseline(burst) + 1) * LpfCount
  {
    assert Pow2(LpfDiv) == 64 by {
      assert Pow2(1) == 2 && Pow2(2) == 4 && Pow2(3) == 8;
    }
  }

  /** The baseline lies between the smallest and the largest reading of its burst. */
  lemma BaselineBetweenSamples(burst: seq<Sample>)
    requires |burst| == LpfCount
    ensures exists j :: 0 <= j < |burst| && burst[j] <= Baseline(burst)
    ensures exists k :: 0 <= k < |burst| && Baseline(burst) <= burst[k]
  {
    var avr := Baseline(burst);
    BaselineIsMean(burst);
    if forall j :: 0 <= j < |burst| ==> avr + 1 <= burst[j] {
      SumBounded(burst, avr + 1, AdcMax);
      assert false;
    }
    if forall k :: 0 <= k < |burst| ==> burst[k] <= avr - 1 {
      SumBounded(burst, 0, avr - 1);
      assert false;
    }
  }

  /** Every partial sum of a burst fits the 32-bit accumulator (and even 16 bits). */
  lemma AccumulatorFits(burst: seq<Sample>, k: nat)
    requires |burst| == LpfCount && k <= |burst|
    ensures 0 <= Sum(burst[..k]) <= k * AdcMax < 0x1_0000 < U32Limit
  {
    SumBounded(burst[..k], 0, AdcMax);
  }
}
