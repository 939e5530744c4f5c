/** Back-to-back calls of `process_samples`, each fed the offset the previous
    call returned (USB1901-record-tool.c:103 and 140). The result proved here is
    that the way the reading stream is cut into buffers does not matter: the
    written fields and the final offset are those of one call on the whole
    stream, so global reading `k` always belongs to channel `k % C`. */
module Stream {
  import opened Ranges
  import opened Processor

  /** Fields written so far and the offset the next call will be given. */
  datatype Streamed = Streamed(fields: seq<Field>, next: nat)

  /** All readings of a run of buffers, in arrival order. */
  function Flatten(buffers: seq<seq<Sample>>): seq<Sample>
  {
    if |buffers| == 0 then [] else Flatten(buffers[..|buffers| - 1]) + buffers[|buffers| - 1]
  }

  /** Processes the buffers in order, threading the returned offset. */
  function RunBuffers(channels: seq<Channel>, buffers: seq<seq<Sample>>, offset: nat): (r: Streamed)
    requires |channels| >= 1
    ensures |buffers| > 0 ==> r.next < |channels|
    decreases |buffers|
  {
    if |buffers| == 0 then Streamed([], offset)
    else
      var previous := RunBuffers(channels, buffers[..|buffers| - 1], offset);
      var p := Process(channels, buffers[|buffers| - 1], previous.next);
      Streamed(previous.fields + p.fields, p.next)
  }

  /** One more buffer at the end of the stream is processed at the offset the
      earlier buffers left, and its readings follow theirs. */
  lemma RunBuffersSnoc(channels: seq<Channel>, buffers: seq<seq<Sample>>, buffer: seq<Sample>, offset: nat)
    requires |channels| >= 1
    ensures var previous := RunBuffers(channels, buffers, offset);
      var p := Process(channels, buffer, previous.next);
      RunBuffers(channels, buffers + [buffer], offset) == Streamed(previous.fields + p.fields, p.next)
    ensures Flatten(buffers + [buffer]) == Flatten(buffers) + buffer
  {
    var all := buffers + [buffer];
    assert all[..|all| - 1] == buffers;
    assert all[|all| - 1] == buffer;
  }

  /** Reducing one summand modulo `count` first does not change the remainder. */
  lemma ModAddMod(x: nat, y: nat, count: int)
    requires count >= 1
    ensures (x + y) % count == (x + y % count) % count
  {
    var q, r := y / count, y % count;
    assert y == q * count + r;
    var q2, r2 := (x + r) / count, (x + r) % count;
    assert x + r == q2 * count + r2;
    var k := q + q2;
    assert k * count == q * count + q2 * count;
    assert x + y == k * count + r2;
    ModOfMultiplePlus(k, count, r2);
    assert (x + y % count) % count == r2;
  }

  /** Reading `j` of the second part of a split buffer, reading `i` of the
      whole, belongs to the channel of the whole's reading `i`, given the
      offset `next` the first part leaves. */
  lemma ChannelShift(i: nat, j: nat, shift: nat, offset: nat, next: nat, count: int)
    requires count >= 1 && i == j + shift && next == (shift + offset) % count
    ensures ChannelOf(i, offset, count) == ChannelOf(j, next, count)
  {
    var y := shift + offset;
    assert i + offset == j + y;
    ModAddMod(j, y, count);
    assert ChannelOf(i, offset, count) == (j + y) % count;
    assert ChannelOf(j, next, count) == (j + y % count) % count;
  }

  /** Field `|a| + j` of a split buffer is the field of the second part's
      reading `j` for the channel that reading has when the second part is
      aligned where the first part ends. */
  lemma WholeFieldAt(channels: seq<Channel>, a: seq<Sample>, b: seq<Sample>, offset: nat, j: nat)
    requires |channels| >= 1 && j < |b|
    ensures Process(channels, a + b, offset).fields[|a| + j]
      == FieldFor(channels, b[j], ChannelOf(j, (|a| + offset) % |channels|, |channels|))
  {
    var i := |a| + j;
    assert (a + b)[i] == b[j];
    ChannelShift(i, j, |a|, offset, (|a| + offset) % |channels|, |channels|);
  }

  /** A field of the second part of a split buffer is the field a call on
      that part alone writes, given the offset the first part leaves. */
  lemma ConcatFieldAt(channels: seq<Channel>, a: seq<Sample>, b: seq<Sample>, offset: nat, j: nat)
    requires |channels| >= 1 && j < |b|
    ensures Process(channels, a + b, offset).fields[|a| + j]
      == Process(channels, b, Process(channels, a, offset).next).fields[j]
  {
    WholeFieldAt(channels, a, b, offset, j);
  }

  /** A field of the first part of a split buffer is the field a call on
      that part alone writes. */
  lemma ConcatPrefixFieldAt(channels: seq<Channel>, a: seq<Sample>, b: seq<Sample>, offset: nat, i: nat)
    requires |channels| >= 1 && i < |a|
    ensures Process(channels, a + b, offset).fields[i] == Process(channels, a, offset).fields[i]
  {
    assert (a + b)[i] == a[i];
    var c := ChannelOf(i, offset, |channels|);
    assert Process(channels, a + b, offset).fields[i] == FieldFor(channels, a[i], c);
  }

  /** Splitting a buffer in two and feeding the first call's offset to the
      second ends at the offset of one call on the whole buffer. */
  lemma ConcatNext(channels: seq<Channel>, a: seq<Sample>, b: seq<Sample>, offset: nat)
    requires |channels| >= 1
    ensures Process(channels, a + b, offset).next
      == Process(channels, b, Process(channels, a, offset).next).next
  {
    var next := Process(channels, a, offset).next;
    assert next == (|a| + offset) % |channels|;
    ChannelShift(|a + b|, |b|, |a|, offset, next, |channels|);
    assert Process(channels, a + b, offset).next == ChannelOf(|a + b|, offset, |channels|);
    assert Process(channels, b, next).next == ChannelOf(|b|, next, |channels|);
  }

  /** The fields a split buffer writes for its first part are those of a
      call on the first part alone. */
  lemma ConcatPrefix(channels: seq<Channel>, a: seq<Sample>, b: seq<Sample>, offset: nat)
    requires |channels| >= 1
    ensures Process(channels, a + b, offset).fields[..|a|] == Process(channels, a, offset).fields
  {
    var whole := Process(channels, a + b, offset).fields;
    forall i | 0 <= i < |a|
      ensures whole[..|a|][i] == Process(channels, a, offset).fields[i]
    {
      ConcatPrefixFieldAt(channels, a, b, offset, i);
    }
  }

  /** The fields a split buffer writes for its second part are those of a
      call on the second part alone, at the offset the first part leaves. */
  lemma ConcatSuffix(channels: seq<Channel>, a: seq<Sample>, b: seq<Sample>, offset: nat)
    requires |channels| >= 1
    ensures Process(channels, a + b, offset).fields[|a|..]
      == Process(channels, b, Process(channels, a, offset).next).fields
  {
    var whole := Process(channels, a + b, offset).fields;
    var right := Process(channels, b, Process(channels, a, offset).next).fields;
    assert |whole[|a|..]| == |right|;
    forall j | 0 <= j < |b|
      ensures whole[|a|..][j] == right[j]
    {
      assert whole[|a|..][j] == whole[|a| + j];
      ConcatFieldAt(channels, a, b, offset, j);
    }
  }

  /** Splitting a buffer in two and feeding the first call's offset to the
      second writes the same fields as one call on the whole buffer. */
  lemma ConcatFields(channels: seq<Channel>, a: seq<Sample>, b: seq<Sample>, offset: nat)
    requires |channels| >= 1
    ensures Process(channels, a + b, offset).fields
      == Process(channels, a, offset).fields + Process(channels, b, Process(channels, a, offset).next).fields
  {
    var whole := Process(channels, a + b, offset).fields;
    assert whole == whole[..|a|] + whole[|a|..];
    ConcatPrefix(channels, a, b, offset);
    ConcatSuffix(channels, a, b, offset);
  }

  /** Splitting a buffer in two and feeding the first call's offset to the
      second writes the same fields and ends at the same offset. */
  lemma ProcessConcat(channels: seq<Channel>, a: seq<Sample>, b: seq<Sample>, offset: nat)
    requires |channels| >= 1
    ensures Process(channels, a + b, offset).fields
      == Process(channels, a, offset).fields + Process(channels, b, Process(channels, a, offset).next).fields
    ensures Process(channels, a + b, offset).next
      == Process(channels, b, Process(channels, a, offset).next).next
  {
    ConcatFields(channels, a, b, offset);
    ConcatNext(channels, a, b, offset);
  }

  /** Chunking independence: a run of buffers started at a valid offset writes
      exactly what one call on all their readings would write, and leaves the
      same offset behind. */
  lemma {:induction false} ChunkingIndependence(channels: seq<Channel>, buffers: seq<seq<Sample>>, offset: nat)
    requires |channels| >= 1 && offset < |channels|
    ensures RunBuffers(channels, buffers, offset)
      == Streamed(Process(channels, Flatten(buffers), offset).fields,
                  Process(channels, Flatten(buffers), offset).next)
    decreases |buffers|
  {
    if |buffers| > 0 {
      var init := buffers[..|buffers| - 1];
      ChunkingIndependence(channels, init, offset);
      ProcessConcat(channels, Flatten(init), buffers[|buffers| - 1], offset);
    }
  }

  /** Global alignment: starting from offset 0 as the tool does, global reading
      `k` of the run is written as a field of channel `k % C`, and the offset
      left behind is the number of readings modulo `C`. */
  lemma GlobalAlignment(channels: seq<Channel>, buffers: seq<seq<Sample>>)
    requires |channels| >= 1
    ensures |RunBuffers(channels, buffers, 0).fields| == |Flatten(buffers)|
    ensures forall k :: 0 <= k < |Flatten(buffers)| ==>
      RunBuffers(channels, buffers, 0).fields[k]
        == FieldFor(channels, Flatten(buffers)[k], k % |channels|)
    ensures RunBuffers(channels, buffers, 0).next == |Flatten(buffers)| % |channels|
  {
    ChunkingIndependence(channels, buffers, 0);
  }
}
