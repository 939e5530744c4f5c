/** The sample demultiplexer and serialiser `process_samples`
    (USB1901-record-tool.c:235-264).

    A buffer holds interleaved readings; reading `i` of a call belongs to
    channel `(i + offset) % C`, where C is the number of configured channels.
    Every reading becomes one output field, followed by ",\t" or, after the
    last channel of the table, by "\n". The call also sums the voltages per
    channel, reports one average per channel and returns the alignment offset
    for the next buffer. All operands of `%` and `/` here are non-negative,
    so C's truncating operators agree with Dafny's. */
module Processor {
  import opened Wrappers
  import opened Ranges

  /** `MAX_CHANNELS`: the size of the channel table. */
  const MaxChannels: int := 8

  /** A configured channel: hardware channel id and its input range. */
  datatype Channel = Channel(id: int, range: AdRange)

  /** What is written after a field: ",\t" inside a row, "\n" at its end. */
  datatype Separator = FieldSep | RowEnd

  /** One written field: the voltage (rendered with "%e") and its separator. */
  datatype Field = Field(volts: real, sep: Separator)

  /** What one call produces: the fields in buffer order, the per-channel
      voltage sums of this call, and the offset for the next call. */
  datatype Processed = Processed(fields: seq<Field>, sums: seq<real>, next: int)

  /** One printed line "Channel <id> average <v> V."; `average` is None where
      the source divides by zero (fewer readings than channels). */
  datatype ChannelAverage = ChannelAverage(id: int, average: Option<real>)

  /** The table position owning reading `i` of a buffer aligned at `offset`. */
  function ChannelOf(i: int, offset: int, count: int): (c: int)
    requires i >= 0 && offset >= 0 && count >= 1
    ensures 0 <= c < count
  {
    (i + offset) % count
  }

  /** The separator after a field of table position `c`: a row ends exactly
      after the last channel of the table. */
  function SeparatorAfter(c: int, count: int): (sep: Separator)
    requires count >= 1
    ensures 0 <= c < count ==> (sep == RowEnd <==> c == count - 1)
  {
    if (c + 1) % count != 0 then FieldSep else RowEnd
  }

  /** The field written for reading `s` owned by table position `c`. */
  function FieldFor(channels: seq<Channel>, s: Sample, c: int): Field
    requires 0 <= c < |channels|
  {
    Field(ToVolts(s, channels[c].range), SeparatorAfter(c, |channels|))
  }

  /** Reference definition of a per-call sum: the total voltage of the readings
      of `buffer` owned by table position `c`, accumulated in buffer order. */
  function ChannelSum(channels: seq<Channel>, buffer: seq<Sample>, offset: nat, c: int): real
    requires |channels| >= 1
    decreases |buffer|
  {
    if |buffer| == 0 then 0.0
    else
      var last := |buffer| - 1;
      var k := ChannelOf(last, offset, |channels|);
      ChannelSum(channels, buffer[..last], offset, c)
        + (if k == c then ToVolts(buffer[last], channels[k].range) else 0.0)
  }

  /** Reference definition: how many of the first `n` readings of a buffer
      aligned at `offset` belong to table position `c`. */
  function ChannelCount(n: nat, offset: nat, count: int, c: int): nat
    requires count >= 1
  {
    if n == 0 then 0
    else ChannelCount(n - 1, offset, count, c) + (if ChannelOf(n - 1, offset, count) == c then 1 else 0)
  }

  /** `process_samples` as a function, one reading at a time: the first reading
      goes to channel `offset % C`, the rest of the buffer is processed as a
      buffer aligned one channel further on. */
  function Process(channels: seq<Channel>, buffer: seq<Sample>, offset: nat): (r: Processed)
    requires |channels| >= 1
    ensures |r.fields| == |buffer|
    ensures forall i :: 0 <= i < |buffer| ==>
      r.fields[i] == FieldFor(channels, buffer[i], ChannelOf(i, offset, |channels|))
    ensures |r.sums| == |channels|
    ensures r.next == (|buffer| + offset) % |channels|
    ensures 0 <= r.next < |channels|
    decreases |buffer|
  {
    if |buffer| == 0 then
      Processed([], seq(|channels|, _ => 0.0), offset % |channels|)
    else
      var c := ChannelOf(0, offset, |channels|);
      var f := FieldFor(channels, buffer[0], c);
      var rest := Process(channels, buffer[1..], offset + 1);
      Processed([f] + rest.fields, rest.sums[c := rest.sums[c] + f.volts], rest.next)
  }

  /** Prepending one reading to a buffer adds its voltage to its channel's sum. */
  lemma {:induction false} ChannelSumCons(channels: seq<Channel>, buffer: seq<Sample>, offset: nat, c: int)
    requires |channels| >= 1 && |buffer| >= 1
    ensures ChannelSum(channels, buffer, offset, c)
      == (if ChannelOf(0, offset, |channels|) == c then ToVolts(buffer[0], channels[c].range) else 0.0)
         + ChannelSum(channels, buffer[1..], offset + 1, c)
    decreases |buffer|
  {
    var last := |buffer| - 1;
    if last == 0 {
      assert buffer[1..] == [];
      assert buffer[..0] == [];
    } else {
      calc {
        ChannelSum(channels, buffer, offset, c);
        ChannelSum(channels, buffer[..last], offset, c)
          + (if ChannelOf(last, offset, |channels|) == c then ToVolts(buffer[last], channels[c].range) else 0.0);
        { ChannelSumCons(channels, buffer[..last], offset, c);
          assert buffer[..last][1..] == buffer[1..][..last - 1]; }
        (if ChannelOf(0, offset, |channels|) == c then ToVolts(buffer[0], channels[c].range) else 0.0)
          + ChannelSum(channels, buffer[1..][..last - 1], offset + 1, c)
          + (if ChannelOf(last - 1, offset + 1, |channels|) == c then ToVolts(buffer[1..][last - 1], channels[c].range) else 0.0);
      }
    }
  }

  /** The sums of a call are the per-channel totals of that call alone: each
      starts from zero and receives exactly the readings its channel owns. */
  lemma {:induction false} ProcessSums(channels: seq<Channel>, buffer: seq<Sample>, offset: nat)
    requires |channels| >= 1
    ensures forall c :: 0 <= c < |channels| ==>
      Process(channels, buffer, offset).sums[c] == ChannelSum(channels, buffer, offset, c)
    decreases |buffer|
  {
    if |buffer| > 0 {
      ProcessSums(channels, buffer[1..], offset + 1);
      forall c | 0 <= c < |channels|
        ensures Process(channels, buffer, offset).sums[c] == ChannelSum(channels, buffer, offset, c)
      {
        ChannelSumCons(channels, buffer, offset, c);
      }
    }
  }

  /** Extending a prefix of the buffer by one reading adds that reading to its
      channel's sum and leaves the other sums alone. */
  lemma ChannelSumSnoc(channels: seq<Channel>, buffer: seq<Sample>, offset: nat, i: nat)
    requires |channels| >= 1 && i < |buffer|
    ensures forall c ::
              ChannelSum(channels, buffer[..i + 1], offset, c)
              == ChannelSum(channels, buffer[..i], offset, c)
                 + (if ChannelOf(i, offset, |channels|) == c then ToVolts(buffer[i], channels[c].range) else 0.0)
  {
    assert buffer[..i + 1][..i] == buffer[..i];
  }

  /** The averages printed at the end of a call: every channel's sum divided by
      the same integer quotient `length / C`. */
  function Averages(channels: seq<Channel>, sums: seq<real>, length: nat): (r: seq<ChannelAverage>)
    requires |sums| == |channels| >= 1
    ensures |r| == |channels|
    ensures forall c :: 0 <= c < |r| ==> r[c].id == channels[c].id
    ensures forall c :: 0 <= c < |r| ==> (r[c].average.None? <==> length < |channels|)
    ensures forall c :: 0 <= c < |r| && length >= |channels| ==>
      r[c].average.value * ((length / |channels|) as real) == sums[c]
  {
    var rows := length / |channels|;
    seq(|channels|, c requires 0 <= c < |channels| =>
      ChannelAverage(channels[c].id, if rows == 0 then None else Some(sums[c] / rows as real)))
  }

  /** Reading `n` belongs to position `c` exactly when `n` falls on `c`'s
      residue, `(c - offset) mod C`. */
  lemma ChannelOfResidue(n: nat, offset: nat, count: int, c: int)
    requires count >= 1 && 0 <= c < count
    ensures ChannelOf(n, offset, count) == c <==> n % count == (c - offset) % count
  {
    var d, e := (c - offset) % count, (c - offset) / count;
    var q, r := n / count, n % count;
    assert ChannelOf(n, offset, count) == (n + offset) % count;
    assert c - offset == e * count + d;
    assert n == q * count + r;
    if r == d {
      assert n + offset == (q - e) * count + c;
      ModOfMultiplePlus(q - e, count, c);
    }
    if ChannelOf(n, offset, count) == c {
      var p := (n + offset) / count;
      assert n + offset == p * count + c;
      assert n == (p + e) * count + d;
      ModOfMultiplePlus(p + e, count, d);
    }
  }

  lemma MulAtLeast(a: int, m: int)
    requires a >= 1 && m >= 1
    ensures a * m >= m
  {
  }

  /** `(k * m + r) % m == r` for a remainder `r` in range. */
  lemma ModOfMultiplePlus(k: int, m: int, r: int)
    requires m >= 1 && 0 <= r < m
    ensures (k * m + r) % m == r
    ensures (k * m + r) / m == k
  {
    var x := k * m + r;
    var q, t := x / m, x % m;
    assert x == q * m + t;
    assert (q - k) * m == r - t;
    if q > k {
      MulAtLeast(q - k, m);
    } else if q < k {
      MulAtLeast(k - q, m);
    }
  }

  /** How quotient and remainder move when the dividend grows by one. */
  lemma DivModSucc(m: nat, n: nat, count: int)
    requires count >= 1 && n == m + 1
    ensures m % count < count - 1 ==> n / count == m / count && n % count == m % count + 1
    ensures m % count == count - 1 ==> n / count == m / count + 1 && n % count == 0
  {
    var q, r := m / count, m % count;
    assert m == q * count + r;
    if r < count - 1 {
      assert n == q * count + (r + 1);
      ModOfMultiplePlus(q, count, r + 1);
    } else {
      assert (q + 1) * count == q * count + count;
      assert n == (q + 1) * count + 0;
      ModOfMultiplePlus(q + 1, count, 0);
    }
  }

  /** Closed form of the per-channel count: every channel owns `n / C` readings
      of a buffer of `n`, and the `n % C` positions starting at the buffer's
      alignment own one more. */
  lemma {:induction false} ChannelCountClosedForm(n: nat, offset: nat, count: int, c: int)
    requires count >= 1 && 0 <= c < count
    ensures ChannelCount(n, offset, count, c)
      == n / count + (if (c - offset) % count < n % count then 1 else 0)
  {
    if n > 0 {
      var m := n - 1;
      var q, r, d := m / count, m % count, (c - offset) % count;
      ChannelCountClosedForm(m, offset, count, c);
      ChannelOfResidue(m, offset, count, c);
      DivModSucc(m, n, count);
      var hit := if ChannelOf(m, offset, count) == c then 1 else 0;
      assert ChannelCount(n, offset, count, c) == ChannelCount(m, offset, count, c) + hit;
      assert hit == (if r == d then 1 else 0);
      assert ChannelCount(m, offset, count, c) == q + (if d < r then 1 else 0);
      if r < count - 1 {
        assert n / count == q && n % count == r + 1;
      } else {
        assert n / count == q + 1 && n % count == 0;
        assert d <= r;
      }
    }
  }

  /** A buffer that holds whole rows gives every channel exactly `length / C`
      readings, so the average printed for a channel, times its number of
      readings, is the total voltage of exactly those readings: the true mean. */
  lemma WholeRowsAverageIsMean(channels: seq<Channel>, buffer: seq<Sample>, offset: nat, c: int)
    requires |channels| >= 1 && 0 <= c < |channels|
    requires |buffer| % |channels| == 0 && |buffer| >= |channels|
    ensures ChannelCount(|buffer|, offset, |channels|, c) == |buffer| / |channels|
    ensures Averages(channels, Process(channels, buffer, offset).sums, |buffer|)[c].average
      == Some(ChannelSum(channels, buffer, offset, c) / (ChannelCount(|buffer|, offset, |channels|, c) as real))
  {
    var n, count := |buffer|, |channels|;
    ChannelCountClosedForm(n, offset, count, c);
    assert ChannelCount(n, offset, count, c) == n / count;
    var sums := Process(channels, buffer, offset).sums;
    ProcessSums(channels, buffer, offset);
    assert sums[c] == ChannelSum(channels, buffer, offset, c);
    assert Averages(channels, sums, n)[c].average == Some(sums[c] / ((n / count) as real));
  }

  /** A ragged buffer gives a channel `length / C` or one more readings, while
      the printed average divides by `length / C` for all of them. */
  lemma RaggedCountsDifferByOne(n: nat, offset: nat, count: int, c: int)
    requires count >= 1 && 0 <= c < count
    ensures n / count <= ChannelCount(n, offset, count, c) <= n / count + 1
  {
    ChannelCountClosedForm(n, offset, count, c);
  }

  /** Output framing: a non-empty buffer ends with a row terminator exactly when
      its readings complete a row; otherwise the last row is left open. */
  lemma LastRowTermination(channels: seq<Channel>, buffer: seq<Sample>, offset: nat)
    requires |channels| >= 1 && |buffer| >= 1
    ensures Process(channels, buffer, offset).fields[|buffer| - 1].sep == RowEnd
      <==> (|buffer| + offset) % |channels| == 0
  {
    var count := |channels|;
    var x := |buffer| - 1 + offset;
    var r := ChannelOf(|buffer| - 1, offset, count);
    assert Process(channels, buffer, offset).fields[|buffer| - 1].sep == SeparatorAfter(r, count);
    assert x % count == r;
    DivModSucc(x, |buffer| + offset, count);
  }

  /** Worked call: channels 0 (1 V) and 1 (2 V), readings 16384 and -16384,
      offset 0 write "5.000000e-01,\t-1.000000e+00\n" and return offset 0. */
  lemma TwoChannelRow()
    ensures Process([Channel(0, Bipolar1V), Channel(1, Bipolar2V)], [16384, -16384], 0)
      == Processed([Field(0.5, FieldSep), Field(-1.0, RowEnd)], [0.5, -1.0], 0)
  {
    var channels := [Channel(0, Bipolar1V), Channel(1, Bipolar2V)];
    var buffer: seq<Sample> := [16384, -16384];
    assert buffer[1..] == [-16384];
    assert buffer[1..][1..] == [];
    ToVoltsExamples();
  }

  /** `process_samples` as the source writes it: one loop that zeroes the sums,
      one that converts, accumulates and writes every reading, and the returned
      alignment. It agrees with `Process`, and its sums are the reference sums. */
  method ProcessSamples(channels: seq<Channel>, buffer: seq<Sample>, offset: nat)
    returns (out: Processed, averages: seq<ChannelAverage>)
    requires 1 <= |channels|
    ensures out == Process(channels, buffer, offset)
    ensures forall c :: 0 <= c < |channels| ==> out.sums[c] == ChannelSum(channels, buffer, offset, c)
    ensures averages == Averages(channels, out.sums, |buffer|)
  {
    var count := |channels|;
    var sums: seq<real> := seq(count, _ => 0.0);
    var fields: seq<Field> := [];
    var i := 0;
    while i < |buffer|
      invariant 0 <= i <= |buffer|
      invariant |sums| == count
      invariant |fields| == i
      invariant forall j :: 0 <= j < i ==>
        fields[j] == FieldFor(channels, buffer[j], ChannelOf(j, offset, count))
      invariant forall c :: 0 <= c < count ==> sums[c] == ChannelSum(channels, buffer[..i], offset, c)
    {
      var c := (i + offset) % count;
      var volts := ToVolts(buffer[i], channels[c].range);
      ChannelSumSnoc(channels, buffer, offset, i);
      sums := sums[c := sums[c] + volts];
      fields := fields + [Field(volts, SeparatorAfter(c, count))];
      i := i + 1;
    }
    assert buffer[..i] == buffer;
    var expected := Process(channels, buffer, offset);
    ProcessSums(channels, buffer, offset);
    assert fields == expected.fields;
    assert sums == expected.sums;
    out := Processed(fields, sums, (|buffer| + offset) % count);
    averages := Averages(channels, sums, |buffer|);
  }
}
