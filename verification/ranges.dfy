/** Input ranges of the USB-1901 and the conversion of a raw reading to volts
    (USB1901-record-tool.c, the range switch of `process_arguments`,
    `ad_range_to_volt` and the scale factor in `process_samples`). */
module Ranges {
  import opened Wrappers

  /** A raw reading of the converter: a signed 16-bit integer. */
  type Sample = x: int | -32768 <= x <= 32767

  /** `1 << 15`: the code that corresponds to the full-scale voltage. */
  const FullScaleCode: int := 32768

  /** The four bipolar input ranges that can be selected per channel. */
  datatype AdRange = Bipolar200mV | Bipolar1V | Bipolar2V | Bipolar10V

  /** Range code as given on the command line (0..3) to input range; the
      source's switch has no default branch, codes outside 0..3 are rejected
      before it is reached. */
  function RangeOfCode(code: int): (r: Option<AdRange>)
    ensures r.Some? <==> 0 <= code <= 3
  {
    if code == 0 then Some(Bipolar200mV)
    else if code == 1 then Some(Bipolar1V)
    else if code == 2 then Some(Bipolar2V)
    else if code == 3 then Some(Bipolar10V)
    else None
  }

  /** The command-line code of a range. */
  function CodeOf(r: AdRange): (code: int)
    ensures 0 <= code <= 3
  {
    match r
    case Bipolar200mV => 0
    case Bipolar1V => 1
    case Bipolar2V => 2
    case Bipolar10V => 3
  }

  /** Range codes and ranges are in one-to-one correspondence. */
  lemma CodeRoundTrip(code: int, r: AdRange)
    ensures RangeOfCode(CodeOf(r)) == Some(r)
    ensures RangeOfCode(code) == Some(r) <==> CodeOf(r) == code
  {
  }

  /** Full-scale voltage of a range, in volts. Range code `k` selects the
      `k`-th of 0.2, 1, 2 and 10 V; no range reaches the zero of the
      unknown-range branch. */
  function FullScale(r: AdRange): (v: real)
    ensures v == [0.2, 1.0, 2.0, 10.0][CodeOf(r)]
    ensures 0.2 <= v <= 10.0
  {
    match r
    case Bipolar200mV => 0.2
    case Bipolar1V => 1.0
    case Bipolar2V => 2.0
    case Bipolar10V => 10.0
  }

  /** A larger range code selects a strictly wider range. */
  lemma FullScaleIncreasing(a: AdRange, b: AdRange)
    requires CodeOf(a) < CodeOf(b)
    ensures FullScale(a) < FullScale(b)
  {
  }

  /** Voltage of a raw reading on a channel with range `r`. */
  function ToVolts(s: Sample, r: AdRange): (v: real)
    ensures -FullScale(r) <= v < FullScale(r)
    ensures v * (FullScaleCode as real) == (s as real) * FullScale(r)
  {
    (s as real) * (FullScale(r) / FullScaleCode as real)
  }

  /** The conversion loses nothing: the reading is recovered from the voltage. */
  lemma ToVoltsInverse(s: Sample, r: AdRange)
    ensures ToVolts(s, r) * (FullScaleCode as real) / FullScale(r) == s as real
  {
    var v := ToVolts(s, r);
    assert v * (FullScaleCode as real) == (s as real) * FullScale(r);
  }

  /** The conversion is strictly monotonic, so it preserves the order of readings. */
  lemma ToVoltsMonotonic(s: Sample, t: Sample, r: AdRange)
    requires s < t
    ensures ToVolts(s, r) < ToVolts(t, r)
  {
    assert ToVolts(t, r) - ToVolts(s, r) == ((t - s) as real) * (FullScale(r) / FullScaleCode as real);
  }

  /** Worked values: half scale on the 1 V range, the most negative reading on
      the 200 mV range, the most positive one on the 10 V range. */
  lemma ToVoltsExamples()
    ensures ToVolts(16384, Bipolar1V) == 0.5
    ensures ToVolts(-16384, Bipolar2V) == -1.0
    ensures ToVolts(-32768, Bipolar200mV) == -0.2
    ensures ToVolts(32767, Bipolar10V) == 327670.0 / 32768.0
  {
  }
}
