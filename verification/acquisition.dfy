/** The acquisition loop of `main` (USB1901-record-tool.c:51-150) and the
    teardown `clean_exit` (lines 392-397), as a fold over the events the
    driver, the clock and the keyboard deliver.

    Every pass of the source's `for (;;)` is one `Tick`: the outcome of the
    half-buffer poll (with the outcome of the transfer when a half is ready),
    whether a key was hit, and the milliseconds elapsed since the start. After
    the loop, a `Drain` says how the final clear and transfer went. The model
    records what the run writes, what it counts and announces, and how it
    ends: with which exit status, after how many releases of the card and
    closes of the output file. */
module Acquisition {
  import opened Wrappers
  import opened Ranges
  import opened Processor
  import opened Stream
  import opened Options

  /** `AI_COUNT`: readings in the card's double buffer. */
  const BufferSize: int := 20480

  /** Readings handed over per ready half of the double buffer. */
  const HalfBuffer: int := BufferSize / 2

  /** Outcome of `UD_AI_AsyncDblBufferTransfer`. */
  datatype Transfer = TransferFailed(code: int) | Transferred(samples: seq<Sample>)

  /** Outcome of `UD_AI_AsyncDblBufferHalfReady`, and of the transfer that
      follows it when a half is ready. The driver's "stopped" flag is not
      consulted by the loop and is not modelled. */
  datatype Poll = PollFailed(code: int) | NotReady | HalfReady(transfer: Transfer)

  /** One pass of the loop: the poll, the keyboard and the clock. */
  datatype Tick = Tick(poll: Poll, keyHit: bool, elapsedMs: nat)

  /** Outcome of the final `UD_AI_AsyncClear` and transfer; `remainder` holds
      the `AccessCnt` readings still buffered. */
  datatype Drain = ClearFailed(code: int) | FinalTransferFailed(code: int) | Drained(remainder: seq<Sample>)

  datatype Phase = Streaming | StopRequested | Aborted

  /** The loop's variables: `offset` and `samples` as in the source, the fields
      written so far and the buffers handed to `process_samples`. */
  datatype LoopState = LoopState(
    phase: Phase, offset: nat, samples: nat, fields: seq<Field>, buffers: seq<seq<Sample>>)

  const Start: LoopState := LoopState(Streaming, 0, 0, [], [])

  /** How a run ended: still in the loop when the events ran out, or exited
      with a status after releasing the card and closing the file. */
  datatype Ending = StillStreaming | Exited(status: int, releases: nat, closes: nat)

  /** Everything a run leaves behind. `announcedTotal` is the total printed
      before the last buffer is written, on the normal path only. */
  datatype Report = Report(
    ending: Ending, fields: seq<Field>, buffers: seq<seq<Sample>>, samples: nat,
    announcedTotal: Option<nat>)

  /** The driver fills a whole half of the buffer on every successful transfer. */
  predicate WellFormed(t: Tick) {
    t.poll.HalfReady? && t.poll.transfer.Transferred? ==> |t.poll.transfer.samples| == HalfBuffer
  }

  /** The driver never reports more remaining readings than the buffer holds. */
  predicate DrainFits(d: Drain) {
    d.Drained? ==> |d.remainder| <= BufferSize
  }

  /** A driver call of this pass failed. */
  predicate Fails(t: Tick) {
    t.poll.PollFailed? || (t.poll.HalfReady? && t.poll.transfer.TransferFailed?)
  }

  /** The exit check at the end of a pass: a key press when no duration was
      configured, otherwise strictly more than the duration elapsed. */
  predicate StopNow(cfg: Config, t: Tick): (stop: bool)
    ensures cfg.duration < 1 ==> (stop <==> t.keyHit)
    ensures cfg.duration >= 1 && t.elapsedMs <= 1000 * cfg.duration ==> !stop
    ensures stop ==> t.keyHit || t.elapsedMs > 1000 * cfg.duration
  {
    if cfg.duration < 1 then t.keyHit else t.elapsedMs > 1000 * cfg.duration
  }

  /** This pass leaves the loop. */
  predicate Ends(cfg: Config, t: Tick) {
    Fails(t) || StopNow(cfg, t)
  }

  /** A transferred half: `samples` grows by `AI_COUNT/2` and the readings are
      processed at the current offset. A full half keeps the loop's
      bookkeeping consistent. */
  function Absorb(channels: seq<Channel>, s: LoopState, buffer: seq<Sample>): (s': LoopState)
    requires |channels| >= 1
    ensures s'.phase == s.phase
    ensures s'.buffers == s.buffers + [buffer]
    ensures Consistent(channels, s) && |buffer| == HalfBuffer ==> Consistent(channels, s')
  {
    var p := Process(channels, buffer, s.offset);
    var s' := s.(offset := p.next, samples := s.samples + HalfBuffer,
                 fields := s.fields + p.fields, buffers := s.buffers + [buffer]);
    if Consistent(channels, s) && |buffer| == HalfBuffer then
      AccountsExtend(channels, s, buffer, s');
      s'
    else s'
  }

  /** One more half adds `AI_COUNT/2` readings. */
  lemma HalvesSucc(k: nat)
    ensures (k + 1) * HalfBuffer == k * HalfBuffer + HalfBuffer
  {
  }

  /** The bookkeeping of a transferred half: counting `AI_COUNT/2` more
      readings, appending the call's fields and taking the offset it returns
      keeps the loop's state consistent with the buffers handed over. */
  lemma AccountsExtend(channels: seq<Channel>, s: LoopState, buffer: seq<Sample>, s': LoopState)
    requires |channels| >= 1 && Consistent(channels, s) && |buffer| == HalfBuffer
    requires s'.buffers == s.buffers + [buffer] && s'.samples == s.samples + HalfBuffer
    requires s'.fields == s.fields + Process(channels, buffer, s.offset).fields
    requires s'.offset == Process(channels, buffer, s.offset).next
    ensures Consistent(channels, s')
  {
    RunBuffersSnoc(channels, s.buffers, buffer, 0);
    HalvesSucc(|s.buffers|);
  }

  /** The buffer a pass delivers: one when a half was ready and its transfer
      succeeded, none otherwise. */
  function TickTransfer(t: Tick): seq<seq<Sample>>
  {
    if t.poll.HalfReady? && t.poll.transfer.Transferred? then [t.poll.transfer.samples] else []
  }

  /** One pass of the loop. */
  function Step(cfg: Config, s: LoopState, t: Tick): (s': LoopState)
    requires |cfg.channels| >= 1 && s.phase == Streaming
    ensures s'.phase == (if Fails(t) then Aborted else if StopNow(cfg, t) then StopRequested else Streaming)
    ensures s'.buffers == s.buffers + TickTransfer(t)
  {
    if Fails(t) then s.(phase := Aborted)
    else
      var s1 := if t.poll.HalfReady? then Absorb(cfg.channels, s, t.poll.transfer.samples) else s;
      if StopNow(cfg, t) then s1.(phase := StopRequested) else s1
  }

  /** The loop over a finite stretch of passes; once it has left, later
      events are not looked at. */
  function RunLoop(cfg: Config, s: LoopState, ticks: seq<Tick>): (r: LoopState)
    requires |cfg.channels| >= 1
    ensures s.phase != Streaming ==> r == s
    ensures |s.buffers| <= |r.buffers| <= |s.buffers| + |ticks|
    ensures r.buffers[..|s.buffers|] == s.buffers
    decreases |ticks|
  {
    if |ticks| == 0 || s.phase != Streaming then s
    else RunLoop(cfg, Step(cfg, s, ticks[0]), ticks[1..])
  }

  /** Reference definition: the index of the first pass that leaves the loop. */
  function FirstEnd(cfg: Config, ticks: seq<Tick>): (k: nat)
    ensures k <= |ticks|
    ensures forall i :: 0 <= i < k ==> !Ends(cfg, ticks[i])
    ensures k < |ticks| ==> Ends(cfg, ticks[k])
    decreases |ticks|
  {
    if |ticks| == 0 || Ends(cfg, ticks[0]) then 0 else 1 + FirstEnd(cfg, ticks[1..])
  }

  /** Reference definition: the buffers successfully transferred by the passes. */
  function TransfersOf(ticks: seq<Tick>): seq<seq<Sample>>
    decreases |ticks|
  {
    if |ticks| == 0 then [] else TickTransfer(ticks[0]) + TransfersOf(ticks[1..])
  }

  /** The passes the loop performs: up to and including the one that leaves. */
  function Performed(cfg: Config, ticks: seq<Tick>): (n: nat)
    ensures n <= |ticks|
  {
    if FirstEnd(cfg, ticks) < |ticks| then FirstEnd(cfg, ticks) + 1 else |ticks|
  }

  /** The transfers of a non-empty prefix are those of its first pass followed
      by those of the rest of the prefix. */
  lemma TransfersOfPrefix(ticks: seq<Tick>, n: nat)
    requires 1 <= n <= |ticks|
    ensures TransfersOf(ticks[..n]) == TickTransfer(ticks[0]) + TransfersOf(ticks[1..][..n - 1])
  {
    var done := ticks[..n];
    assert done[0] == ticks[0];
    assert done[1..] == ticks[1..][..n - 1];
  }

  /** The loop ends at the first pass whose driver call fails or whose exit
      check fires, and every buffer transferred up to then, that one included,
      is processed once, in arrival order; nothing after it is touched. */
  lemma LoopRunsToFirstEnd(cfg: Config, s: LoopState, ticks: seq<Tick>)
    requires |cfg.channels| >= 1 && s.phase == Streaming
    ensures RunLoop(cfg, s, ticks).buffers == s.buffers + TransfersOf(ticks[..Performed(cfg, ticks)])
    ensures RunLoop(cfg, s, ticks).phase ==
      (if FirstEnd(cfg, ticks) == |ticks| then Streaming
       else if Fails(ticks[FirstEnd(cfg, ticks)]) then Aborted
       else StopRequested)
  {
    LoopPhase(cfg, s, ticks);
    LoopBuffers(cfg, s, ticks);
  }

  /** The loop is left at the first ending pass, aborted iff its driver call
      failed, and is still running when no pass ends it. */
  lemma {:induction false} LoopPhase(cfg: Config, s: LoopState, ticks: seq<Tick>)
    requires |cfg.channels| >= 1 && s.phase == Streaming
    ensures RunLoop(cfg, s, ticks).phase ==
      (if FirstEnd(cfg, ticks) == |ticks| then Streaming
       else if Fails(ticks[FirstEnd(cfg, ticks)]) then Aborted
       else StopRequested)
    decreases |ticks|
  {
    if |ticks| > 0 && !Ends(cfg, ticks[0]) {
      var s1 := Step(cfg, s, ticks[0]);
      var k := FirstEnd(cfg, ticks[1..]);
      assert FirstEnd(cfg, ticks) == k + 1;
      LoopPhase(cfg, s1, ticks[1..]);
      assert RunLoop(cfg, s, ticks) == RunLoop(cfg, s1, ticks[1..]);
      if k < |ticks[1..]| {
        assert ticks[k + 1] == ticks[1..][k];
      }
    }
  }

  /** The buffers processed are those transferred by the passes performed. */
  lemma {:induction false} LoopBuffers(cfg: Config, s: LoopState, ticks: seq<Tick>)
    requires |cfg.channels| >= 1 && s.phase == Streaming
    ensures RunLoop(cfg, s, ticks).buffers == s.buffers + TransfersOf(ticks[..Performed(cfg, ticks)])
    decreases |ticks|
  {
    if |ticks| > 0 {
      var t := ticks[0];
      var n := Performed(cfg, ticks);
      TransfersOfPrefix(ticks, n);
      if Ends(cfg, t) {
        assert n == 1;
        assert TransfersOf(ticks[1..][..0]) == [];
      } else {
        var s1 := Step(cfg, s, t);
        assert n - 1 == Performed(cfg, ticks[1..]);
        LoopBuffers(cfg, s1, ticks[1..]);
        assert RunLoop(cfg, s, ticks) == RunLoop(cfg, s1, ticks[1..]);
      }
    }
  }

  /** The bookkeeping the loop keeps: `samples` counts `AI_COUNT/2` per
      processed buffer and equals the readings handed over, and the fields and
      offset are those of processing the buffers back to back from offset 0. */
  predicate Consistent(channels: seq<Channel>, s: LoopState)
    requires |channels| >= 1
  {
    && s.samples == |s.buffers| * HalfBuffer
    && s.samples == |Flatten(s.buffers)|
    && RunBuffers(channels, s.buffers, 0) == Streamed(s.fields, s.offset)
  }

  /** The loop keeps its bookkeeping consistent through every pass. */
  lemma {:induction false} LoopKeepsAccounts(cfg: Config, s: LoopState, ticks: seq<Tick>)
    requires |cfg.channels| >= 1 && Consistent(cfg.channels, s)
    requires forall i :: 0 <= i < |ticks| ==> WellFormed(ticks[i])
    ensures Consistent(cfg.channels, RunLoop(cfg, s, ticks))
    decreases |ticks|
  {
    if |ticks| > 0 && s.phase == Streaming {
      var t := ticks[0];
      var s1 := Step(cfg, s, t);
      assert Consistent(cfg.channels, s1);
      LoopKeepsAccounts(cfg, s1, ticks[1..]);
    }
  }

  /** The teardown after the loop (lines 119-150 and `clean_exit`): a loop
      that was aborted exits with status 1 at once; a stop request clears the
      acquisition and reads the remainder, exiting with status 1 if either
      call fails, and otherwise announces the total, processes the remainder
      at the loop's offset, releases the card and exits with status 0. The
      file is closed only if it was opened. */
  function Finish(cfg: Config, s: LoopState, fileOpened: bool, drain: Drain): (r: Report)
    requires |cfg.channels| >= 1
    ensures r.ending.Exited? <==> s.phase != Streaming
    ensures r.ending.Exited? ==> r.ending.closes == (if fileOpened then 1 else 0)
    ensures r.ending.Exited? && r.ending.status == 0
      <==> s.phase == StopRequested && drain.Drained?
    ensures r.ending.Exited? && r.ending.status != 0 ==> r.ending.status == 1 && r.ending.releases == 1
    ensures r.ending.Exited? && r.ending.status == 0 ==> r.ending.releases == 2
    ensures r.announcedTotal.Some? <==> r.ending.Exited? && r.ending.status == 0
    ensures r.samples == s.samples
    ensures !(s.phase == StopRequested && drain.Drained?) ==> r.fields == s.fields && r.buffers == s.buffers
    ensures s.phase == StopRequested && drain.Drained? ==>
      && r.buffers == s.buffers + [drain.remainder]
      && r.fields == s.fields + Process(cfg.channels, drain.remainder, s.offset).fields
      && r.announcedTotal == Some(s.samples + |drain.remainder|)
  {
    var closes := if fileOpened then 1 else 0;
    match s.phase
    case Streaming => Report(StillStreaming, s.fields, s.buffers, s.samples, None)
    case Aborted => Report(Exited(1, 1, closes), s.fields, s.buffers, s.samples, None)
    case StopRequested =>
      match drain
      case ClearFailed(_) => Report(Exited(1, 1, closes), s.fields, s.buffers, s.samples, None)
      case FinalTransferFailed(_) => Report(Exited(1, 1, closes), s.fields, s.buffers, s.samples, None)
      case Drained(rest) =>
        var p := Process(cfg.channels, rest, s.offset);
        Report(Exited(0, 2, closes), s.fields + p.fields, s.buffers + [rest], s.samples,
               Some(s.samples + |rest|))
  }

  /** The whole run: the loop from its start, then the teardown. Every failing
      driver call goes through `clean_exit` with status 1 (one release); the
      normal path releases the card at line 142 and once more inside
      `clean_exit`. A failed open does not stop the run. */
  function Record(cfg: Config, fileOpened: bool, ticks: seq<Tick>, drain: Drain): (r: Report)
    requires |cfg.channels| >= 1
    requires forall i :: 0 <= i < |ticks| ==> WellFormed(ticks[i])
    requires DrainFits(drain)
    ensures r.ending.Exited? <==> FirstEnd(cfg, ticks) < |ticks|
    ensures r.ending.Exited? ==> r.ending.closes == (if fileOpened then 1 else 0)
    ensures r.ending.Exited? && r.ending.status != 0 ==> r.ending.status == 1 && r.ending.releases == 1
    ensures r.ending.Exited? && r.ending.status == 0 ==> r.ending.releases == 2
    ensures r.announcedTotal.Some? <==> r.ending.Exited? && r.ending.status == 0
  {
    LoopRunsToFirstEnd(cfg, Start, ticks);
    Finish(cfg, RunLoop(cfg, Start, ticks), fileOpened, drain)
  }

  /** The teardown after a consistent loop that was asked to stop, with a
      successful drain: the remainder follows the loop's buffers, the total
      announced is the number of fields written, one per reading handed over,
      and global reading `k` is written as a field of channel `k % C`. */
  lemma FinishAligned(cfg: Config, s: LoopState, fileOpened: bool, drain: Drain)
    requires |cfg.channels| >= 1 && Consistent(cfg.channels, s)
    requires s.phase == StopRequested && drain.Drained?
    ensures var r := Finish(cfg, s, fileOpened, drain);
      && r.buffers == s.buffers + [drain.remainder]
      && r.samples == |s.buffers| * HalfBuffer
      && r.announcedTotal == Some(|r.fields|)
      && |r.fields| == |Flatten(r.buffers)|
      && forall k :: 0 <= k < |r.fields| ==>
           r.fields[k] == FieldFor(cfg.channels, Flatten(r.buffers)[k], k % |cfg.channels|)
  {
    var rest := drain.remainder;
    var p := Process(cfg.channels, rest, s.offset);
    RunBuffersSnoc(cfg.channels, s.buffers, rest, 0);
    assert RunBuffers(cfg.channels, s.buffers + [rest], 0) == Streamed(s.fields + p.fields, p.next);
    GlobalAlignment(cfg.channels, s.buffers + [rest]);
  }

  /** Normal completion: the buffers processed are exactly the halves the loop
      transferred followed by the drained remainder, each once and in arrival
      order; the total announced is the number of fields written; global
      reading `k` of the run is written as a field of channel `k % C`. */
  lemma {:induction false} CompletedRunWritesEveryReading(
    cfg: Config, fileOpened: bool, ticks: seq<Tick>, drain: Drain)
    requires |cfg.channels| >= 1
    requires forall i :: 0 <= i < |ticks| ==> WellFormed(ticks[i])
    requires DrainFits(drain)
    requires Record(cfg, fileOpened, ticks, drain).ending == Exited(0, 2, if fileOpened then 1 else 0)
    ensures drain.Drained?
    ensures var r := Record(cfg, fileOpened, ticks, drain);
      var transferred := TransfersOf(ticks[..Performed(cfg, ticks)]);
      && r.buffers == transferred + [drain.remainder]
      && r.samples == |transferred| * HalfBuffer
      && r.announcedTotal == Some(|r.fields|)
      && |r.fields| == |Flatten(r.buffers)|
      && forall k :: 0 <= k < |r.fields| ==>
           r.fields[k] == FieldFor(cfg.channels, Flatten(r.buffers)[k], k % |cfg.channels|)
  {
    var s := RunLoop(cfg, Start, ticks);
    assert Record(cfg, fileOpened, ticks, drain) == Finish(cfg, s, fileOpened, drain);
    LoopRunsToFirstEnd(cfg, Start, ticks);
    assert s.buffers == TransfersOf(ticks[..Performed(cfg, ticks)]);
    LoopKeepsAccounts(cfg, Start, ticks);
    FinishAligned(cfg, s, fileOpened, drain);
  }

  /** A failing driver call ends the run with status 1 after one release: the
      buffers processed are those transferred before the failure, and the
      remainder is never read. */
  lemma FailedRunStopsProcessing(cfg: Config, fileOpened: bool, ticks: seq<Tick>, drain: Drain)
    requires |cfg.channels| >= 1
    requires forall i :: 0 <= i < |ticks| ==> WellFormed(ticks[i])
    requires DrainFits(drain)
    requires FirstEnd(cfg, ticks) < |ticks|
    requires Fails(ticks[FirstEnd(cfg, ticks)]) || !drain.Drained?
    ensures Record(cfg, fileOpened, ticks, drain).ending == Exited(1, 1, if fileOpened then 1 else 0)
    ensures Record(cfg, fileOpened, ticks, drain).buffers == TransfersOf(ticks[..Performed(cfg, ticks)])
    ensures Record(cfg, fileOpened, ticks, drain).announcedTotal.None?
  {
    LoopRunsToFirstEnd(cfg, Start, ticks);
  }

  /** With a configured duration the loop leaves on time and not before: as
      long as no driver call fails, the run ends exactly when some pass sees
      strictly more than `1000 * duration` milliseconds elapsed, whatever
      keys are pressed. */
  lemma DurationStopsStrictly(cfg: Config, fileOpened: bool, ticks: seq<Tick>, drain: Drain)
    requires |cfg.channels| >= 1 && cfg.duration >= 1
    requires forall i :: 0 <= i < |ticks| ==> WellFormed(ticks[i]) && !Fails(ticks[i])
    requires DrainFits(drain)
    ensures Record(cfg, fileOpened, ticks, drain).ending.Exited?
      <==> exists i :: 0 <= i < |ticks| && ticks[i].elapsedMs > 1000 * cfg.duration
  {
    var k := FirstEnd(cfg, ticks);
    if k < |ticks| {
      assert ticks[k].elapsedMs > 1000 * cfg.duration;
    }
  }

  /** Without a duration the loop runs until a key is pressed: as long as no
      driver call fails, the run ends exactly when some pass sees a key. */
  lemma KeyStopsUnboundedRun(cfg: Config, fileOpened: bool, ticks: seq<Tick>, drain: Drain)
    requires |cfg.channels| >= 1 && cfg.duration < 1
    requires forall i :: 0 <= i < |ticks| ==> WellFormed(ticks[i]) && !Fails(ticks[i])
    requires DrainFits(drain)
    ensures Record(cfg, fileOpened, ticks, drain).ending.Exited?
      <==> exists i :: 0 <= i < |ticks| && ticks[i].keyHit
  {
    var k := FirstEnd(cfg, ticks);
    if k < |ticks| {
      assert ticks[k].keyHit;
    }
  }

  /** A failed `fopen` is reported and ignored: the run goes on as if the file
      were open, and only the final close is skipped. */
  lemma FailedOpenDoesNotStop(cfg: Config, ticks: seq<Tick>, drain: Drain)
    requires |cfg.channels| >= 1
    requires forall i :: 0 <= i < |ticks| ==> WellFormed(ticks[i])
    requires DrainFits(drain)
    ensures var withFile := Record(cfg, true, ticks, drain);
      var withoutFile := Record(cfg, false, ticks, drain);
      && withoutFile.fields == withFile.fields
      && withoutFile.buffers == withFile.buffers
      && withoutFile.ending.Exited? == withFile.ending.Exited?
      && (withoutFile.ending.Exited? ==>
            withoutFile.ending.status == withFile.ending.status && withoutFile.ending.closes == 0)
  {
  }

  /** The tool from its command line on: arguments are validated first, with
      at least one channel required, and only an accepted configuration is
      streamed. */
  function Launch(args: seq<Word>, fileOpened: bool, ticks: seq<Tick>, drain: Drain): (r: Result<Report, ArgError>)
    requires forall i :: 0 <= i < |ticks| ==> WellFormed(ticks[i])
    requires DrainFits(drain)
    ensures r.Failure? <==> Parse(args).Failure? || |Parse(args).value.channels| == 0
    ensures r.Failure? && Parse(args).Success? ==> r.error == NoChannels
    ensures r.Success? ==> r.value == Record(Parse(args).value, fileOpened, ticks, drain)
  {
    match ParseForAcquisition(args)
    case Failure(e) => Failure(e)
    case Success(cfg) => Success(Record(cfg, fileOpened, ticks, drain))
  }
}
