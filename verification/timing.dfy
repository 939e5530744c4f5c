/** The scan and conversion intervals `open_USB1901` programs into the card
    (USB1901-record-tool.c:30, 299-300, 361-363). Both are counts of cycles of
    the card's 80 MHz time base. */
module Timing {

  /** `U1902_TIMEBASE`: clock cycles per second. */
  const TimeBase: int := 80000000

  /** The smallest interval between two conversions the card accepts. */
  const MinSampleInterval: int := 320

  /** The interval used when several channels are scanned: 128 times the minimum. */
  const MultiChannelSampleInterval: int := 128 * 320

  /** `ScanIntrv`: cycles between two scans of the channel table, the time
      base divided by the requested rate and rounded down. */
  function ScanInterval(sampleRate: int): (cycles: nat)
    requires sampleRate >= 1
    ensures cycles * sampleRate <= TimeBase < (cycles + 1) * sampleRate
  {
    TimeBase / sampleRate
  }

  /** `SampIntrv`: cycles between two conversions within a scan; the minimum
      is used only when exactly one channel is configured. */
  function SampleInterval(channelCount: int): (cycles: int)
    ensures cycles == MinSampleInterval <==> channelCount == 1
    ensures channelCount != 1 ==> cycles == MultiChannelSampleInterval
    ensures cycles >= MinSampleInterval
  {
    if channelCount == 1 then MinSampleInterval else MultiChannelSampleInterval
  }

  /** Rounding the interval down never scans slower than asked: the rate the
      card actually runs at (the one the tool prints) is at least the requested
      one, and the interval is zero only for rates above the time base. */
  lemma ScanRateAtLeastRequested(sampleRate: int)
    requires sampleRate >= 1
    ensures ScanInterval(sampleRate) == 0 <==> sampleRate > TimeBase
    ensures ScanInterval(sampleRate) > 0 ==>
      (TimeBase as real) / (ScanInterval(sampleRate) as real) >= sampleRate as real
  {
    var n := ScanInterval(sampleRate);
    if n > 0 {
      assert (n as real) * (sampleRate as real) <= TimeBase as real;
    }
  }

  /** The default 200 Hz gives 400000 cycles per scan. */
  lemma DefaultRateInterval()
    ensures ScanInterval(200) == 400000
  {
  }
}
