# USB-1901 record tool: a Dafny model

The record tool streams analog readings from an ADLINK USB-1901 card in
double-buffered mode and writes them as voltages to a CSV-like file, one row
per scan of the channel table. This project models the tool's core logic in
`USB1901-record-tool/USB1901-record-tool.c` and proves properties of it:

- `ranges.dfy` (module `Ranges`): the four input ranges, the range codes
  0..3 of the command line and the conversion of a signed 16-bit reading to
  volts, `s * R / 32768`, in exact reals.
- `processor.dfy` (module `Processor`): `process_samples`. A buffer of
  interleaved readings and an alignment offset go in. Out come one field per
  reading, each with its separator (`,\t` or `\n`), the per-channel sums of
  the call, the per-channel averages and the offset for the next buffer. It is
  modelled twice: as a recursive function `Process`, and as the source's loop
  `ProcessSamples`, proved to agree with it.
- `stream.dfy` (module `Stream`): buffers processed back to back, each call
  fed the offset the previous one returned. Cutting the stream differently
  never changes what is written.
- `options.dfy` (module `Options`): `process_arguments`. It validates `-o`,
  `-s`, `-c`, `-d` and `-h` and builds the configuration from the defaults.
- `timing.dfy` (module `Timing`): the scan and conversion intervals that
  `open_USB1901` computes from the 80 MHz time base.
- `acquisition.dfy` (module `Acquisition`): the loop of `main`, modelled as a
  fold over passes (`Tick`: poll outcome, key press, elapsed milliseconds). It
  is followed by the final clear and transfer (`Drain`) and by the teardown of
  `clean_exit`.
- `wrappers.dfy` (module `Wrappers`): `Option` and `Result`.

Inputs the source reads from the driver, the clock or the keyboard are
parameters of the model. These are the poll and transfer outcomes and the
buffers they deliver, the remainder and its count `AccessCnt`, the elapsed
milliseconds `t2 - t1`, whether a key was hit, and whether `fopen` succeeded.
Command-line words arrive already scanned: each carries the results of
`sscanf` with `"%d"` and `"%d:%d"`.

Notes on the source's behaviour, which the model keeps:
- Channel ids are not required to be distinct; the parser accepts repeats.
- The poll's "stopped" flag is ignored by the loop.
- A failed `fopen` is reported but the run goes on (`FailedOpenDoesNotStop`).
- On normal completion the card is released twice: at line 142 and again
  inside `clean_exit` (`Finish` counts `releases == 2`).
- `process_samples` needs only a non-negative offset and at least one
  channel, not `offset < C` or a non-empty buffer. The stream lemmas assume a
  starting offset below `C`, which the tool always meets because it starts at 0.
- The duration is measured from line 66, before `fopen`, not from the first poll.

## Model

| member | source | states |
|---|---|---|
| `Ranges.RangeOfCode` | USB1901-record-tool/USB1901-record-tool.c:194-213 | a range code yields a range exactly when it lies in 0..3 |
| `Ranges.CodeRoundTrip` | USB1901-record-tool/USB1901-record-tool.c:200-213 | codes 0..3 and the four ranges are in one-to-one correspondence, both ways |
| `Ranges.FullScale` | USB1901-record-tool/USB1901-record-tool.c:266-281 | range code k selects the k-th of 0.2, 1, 2 and 10 V, so no range the parser can produce reaches the 0.0 of the unknown-range branch |
| `Ranges.FullScaleIncreasing` | USB1901-record-tool/USB1901-record-tool.c:266-276 | a larger range code selects a strictly wider full-scale voltage (0.2, 1, 2, 10 V) |
| `Ranges.ToVolts` | USB1901-record-tool/USB1901-record-tool.c:244-248 | the voltage lies in [-R, R) and times 32768 equals the reading times R |
| `Ranges.ToVoltsInverse` | USB1901-record-tool/USB1901-record-tool.c:244-248 | the reading is recovered exactly from its voltage and range |
| `Ranges.ToVoltsMonotonic` | USB1901-record-tool/USB1901-record-tool.c:244-248 | a larger reading gives a strictly larger voltage |
| `Ranges.ToVoltsExamples` | USB1901-record-tool/USB1901-record-tool.c:266-276 | 16384 on 1 V is 0.5, -32768 on 200 mV is -0.2, 32767 on 10 V is 327670/32768 |
| `Processor.ChannelOf` | USB1901-record-tool/USB1901-record-tool.c:247 | the owning channel of a reading is a valid table position |
| `Processor.SeparatorAfter` | USB1901-record-tool/USB1901-record-tool.c:253-257 | for a table position, the separator is a row end exactly after the last channel of the table, and a field separator otherwise |
| `Processor.Process` | USB1901-record-tool/USB1901-record-tool.c:235-264 | one field per reading in buffer order; field i carries the voltage of reading i on channel (i+offset) % C and a row end iff that channel is last; one sum per channel; returns (length+offset) % C, within [0, C) |
| `Processor.ProcessSums` | USB1901-record-tool/USB1901-record-tool.c:240-250 | each sum starts from zero in every call and equals the total voltage of exactly the readings its channel owns in that call |
| `Processor.ChannelCountClosedForm` | USB1901-record-tool/USB1901-record-tool.c:246-247 | a channel owns length / C readings, plus one if its position is among the length % C positions from the buffer's alignment |
| `Processor.WholeRowsAverageIsMean` | USB1901-record-tool/USB1901-record-tool.c:239-261 | when length is a non-zero multiple of C, each channel owns exactly length / C readings and its printed average is the total voltage of exactly those readings divided by their number |
| `Processor.RaggedCountsDifferByOne` | USB1901-record-tool/USB1901-record-tool.c:239-261 | on a ragged buffer a channel owns length / C or one more readings, while the average divides by length / C for all |
| `Processor.LastRowTermination` | USB1901-record-tool/USB1901-record-tool.c:246-257 | a non-empty buffer ends with a row end iff (length+offset) % C == 0; otherwise the last row stays open, unpadded |
| `Processor.Averages` | USB1901-record-tool/USB1901-record-tool.c:259-261 | one line per channel in table order with its id; every average times length / C is that channel's sum; no value when length < C |
| `Processor.TwoChannelRow` | USB1901-record-tool/USB1901-record-tool.c:246-263 | channels (0, 1 V), (1, 2 V) with readings 16384, -16384 at offset 0 write 0.5 then -1.0 with a row end, and return offset 0 |
| `Processor.ProcessSamples` | USB1901-record-tool/USB1901-record-tool.c:235-264 | the source's loop agrees with `Process`; its sums are the reference per-channel sums and its averages those of `Averages` |
| `Stream.RunBuffers` | USB1901-record-tool/USB1901-record-tool.c:103 | after at least one call the offset threaded to the next call lies in [0, C) |
| `Stream.ProcessConcat` | USB1901-record-tool/USB1901-record-tool.c:247-263 | processing a + b equals processing a, then b at the offset a returned: same fields, same final offset |
| `Stream.ChunkingIndependence` | USB1901-record-tool/USB1901-record-tool.c:102-103 | buffers processed back to back write exactly the fields of one call on all their readings and end at the same offset, however the stream is cut |
| `Stream.GlobalAlignment` | USB1901-record-tool/USB1901-record-tool.c:57-103 | from offset 0, global reading k is written as a field of channel k % C, and the offset left is the reading count mod C |
| `Options.ExitStatus` | USB1901-record-tool/USB1901-record-tool.c:171-232 | the parser exits with 0 only for -h, and with -1 for every usage error |
| `Options.NextConfig` | USB1901-record-tool/USB1901-record-tool.c:175-226 | -o sets the file name, -s the rate and -d the duration from an acceptable value, -c appends its channel; no option changes another option's field |
| `Options.PositiveArg` | USB1901-record-tool/USB1901-record-tool.c:182-189 | a value for -s or -d is accepted iff it scans as an integer of at least 1 |
| `Options.ChannelArg` | USB1901-record-tool/USB1901-record-tool.c:194-213 | a -c value is accepted iff it scans as id:range with id in 0..15 and range in 0..3; the channel keeps that id and the range of that code |
| `Options.ParseFrom` | USB1901-record-tool/USB1901-record-tool.c:166-233 | every accepted configuration keeps rate >= 1, duration -1 or >= 1, at most 8 channels with ids in 0..15; channels are only appended |
| `Options.Parse` | USB1901-record-tool/USB1901-record-tool.c:42-48 | starting from the defaults, every accepted command line yields a valid configuration |
| `Options.ParseAppend` | USB1901-record-tool/USB1901-record-tool.c:171-232 | after a fully accepted prefix, the rest is parsed from the configuration the prefix built |
| `Options.UnsetFieldsKeepDefaults` | USB1901-record-tool/USB1901-record-tool.c:42-48 | a field whose option never appears keeps its starting value (data.csv, 200 Hz, no channels, duration -1) |
| `Options.AcceptsChannelInOrder` | USB1901-record-tool/USB1901-record-tool.c:190-214 | an accepted -c appends its channel at the end of the list, keeping command-line order |
| `Options.RejectsBadChannel` | USB1901-record-tool/USB1901-record-tool.c:194-198 | a -c value that does not scan, or has id outside 0..15 or range outside 0..3, is rejected |
| `Options.RejectsNinthChannel` | USB1901-record-tool/USB1901-record-tool.c:190-218 | a ninth -c is rejected whatever follows it |
| `Options.RejectsBadNumber` | USB1901-record-tool/USB1901-record-tool.c:182-226 | a -s or -d value that is not an integer >= 1 is rejected with the matching error |
| `Options.RejectsMissingValue` | USB1901-record-tool/USB1901-record-tool.c:175-226 | -o, -s, -c or -d as the last word is rejected with the matching error |
| `Options.RejectsUnknownArgument` | USB1901-record-tool/USB1901-record-tool.c:171-230 | any other word in option position is rejected; -h stops the parse with status 0 |
| `Options.ParseAcceptsNoChannels` | USB1901-record-tool/USB1901-record-tool.c:166-233 | a command line without -c that is accepted has an empty channel table |
| `Options.NoChannelCommandLine` | USB1901-record-tool/USB1901-record-tool.c:219-226 | the command line `-d 5` is accepted with duration 5 and an empty channel table, and rejected by the corrected validator |
| `Options.ParseForAcquisition` | USB1901-record-tool/USB1901-record-tool.c:239 | the source's checks plus at least one channel; agrees with `Parse` except that an empty table is an error |
| `Timing.ScanInterval` | USB1901-record-tool/USB1901-record-tool.c:299 | ScanIntrv is 80000000 / rate rounded down: interval * rate <= 80000000 < (interval + 1) * rate |
| `Timing.SampleInterval` | USB1901-record-tool/USB1901-record-tool.c:361-363 | SampIntrv is 320 iff exactly one channel is configured, else 128 * 320; never below 320 |
| `Timing.ScanRateAtLeastRequested` | USB1901-record-tool/USB1901-record-tool.c:315 | the rate the card runs at is at least the requested one; the interval is 0 only for rates above 80 MHz |
| `Acquisition.Absorb` | USB1901-record-tool/USB1901-record-tool.c:102-103 | a transferred half is appended to the processed buffers and leaves the loop phase alone; a full half keeps the bookkeeping consistent: samples counts 10240 per processed half and equals the readings handed over, and fields and offset are those of back-to-back processing from offset 0 |
| `Acquisition.AccountsExtend` | USB1901-record-tool/USB1901-record-tool.c:102-103 | adding 10240 to samples, appending the call's fields and taking the offset it returns keeps a consistent state consistent after one more full half |
| `Acquisition.StopNow` | USB1901-record-tool/USB1901-record-tool.c:106-117 | without a duration the check fires iff a key was hit; with one, never while at most 1000 * duration ms have elapsed; it fires only on a key or on strictly more than the duration |
| `Acquisition.Step` | USB1901-record-tool/USB1901-record-tool.c:78-118 | a pass aborts on a failed poll or transfer, otherwise stops iff the exit check fires, otherwise continues |
| `Acquisition.RunLoop` | USB1901-record-tool/USB1901-record-tool.c:78-118 | a loop that has been left is not re-entered and later passes change nothing; each pass hands over at most one buffer, and buffers are only appended |
| `Acquisition.FirstEnd` | USB1901-record-tool/USB1901-record-tool.c:78-118 | the first pass that fails or whose exit check fires; no earlier pass does |
| `Acquisition.LoopRunsToFirstEnd` | USB1901-record-tool/USB1901-record-tool.c:78-118 | the loop ends at the first ending pass, aborted iff it failed; exactly the buffers transferred up to it are processed, once, in order |
| `Acquisition.LoopPhase` | USB1901-record-tool/USB1901-record-tool.c:78-118 | the loop is left at the first ending pass, aborted iff that pass's driver call failed, and still runs when no pass ends it |
| `Acquisition.LoopBuffers` | USB1901-record-tool/USB1901-record-tool.c:90-104 | the buffers processed are exactly those transferred by the passes performed, in order |
| `Acquisition.LoopKeepsAccounts` | USB1901-record-tool/USB1901-record-tool.c:102-103 | samples == processed halves * 10240 == readings handed over, and fields and offset are those of back-to-back processing from offset 0 |
| `Acquisition.Finish` | USB1901-record-tool/USB1901-record-tool.c:119-150 | after the loop: a running loop reports no exit; an abort, a failed clear or a failed final transfer exits with status 1 after one release and reads no remainder; only a stop request whose drain succeeds exits with status 0 after two releases, announcing loop total plus remainder and writing the remainder after the loop's fields at the loop's offset; the file is closed iff it was opened |
| `Acquisition.FinishAligned` | USB1901-record-tool/USB1901-record-tool.c:120-140 | after a consistent loop and a successful drain, the remainder follows the loop's buffers, the announced total equals the fields written, one per reading, and global reading k is written for channel k % C |
| `Acquisition.Record` | USB1901-record-tool/USB1901-record-tool.c:51-150 | the run exits iff some pass ends the loop; errors exit with status 1 after one release; normal completion exits 0 after two releases; the file is closed iff it was opened |
| `Acquisition.CompletedRunWritesEveryReading` | USB1901-record-tool/USB1901-record-tool.c:120-140 | on normal completion the transferred halves plus the remainder are each processed once, in order; the announced total samples + AccessCnt equals the fields written; reading k goes to channel k % C |
| `Acquisition.FailedRunStopsProcessing` | USB1901-record-tool/USB1901-record-tool.c:83-133 | a failed driver call exits with status 1 after one release; nothing after it is processed and no total is announced |
| `Acquisition.DurationStopsStrictly` | USB1901-record-tool/USB1901-record-tool.c:112-117 | with a duration and no driver failure, the run ends iff some pass sees strictly more than 1000 * duration ms, whatever keys are hit |
| `Acquisition.KeyStopsUnboundedRun` | USB1901-record-tool/USB1901-record-tool.c:107-111 | without a duration and with no driver failure, the run ends iff some pass sees a key press |
| `Acquisition.FailedOpenDoesNotStop` | USB1901-record-tool/USB1901-record-tool.c:68-72 | a failed fopen changes nothing of the run but the final close |
| `Acquisition.Launch` | USB1901-record-tool/USB1901-record-tool.c:63-64 | the corrected entry point: the command line is validated with `ParseForAcquisition`, and `Record` runs exactly when it is accepted with at least one channel; otherwise the parser's error, or `NoChannels`, is returned |

## Left out

- The `UD_AI_AsyncClear` that the loop's error branches issue before `clean_exit` (lines 86 and 99) is not modelled; only the status and release count of those exits are.
- The `UD_*` driver calls, device scan, registration and configuration in `open_USB1901` are left out; only the interval arithmetic is modelled. `UsbDask.h` is not part of this model. Their exit statuses 1, 2 and 3 are not modelled. Neither is the fact that a failure at lines 347-368 exits without releasing the registered card.
- `Sleep`, `GetTickCount`, `kbhit` and `getch` are not modelled; elapsed time and key presses are inputs. The 32-bit wrap-around of `t2 - t1` is not modelled, and neither is the final "press any key to exit" wait.
- `printf`/`fprintf` rendering with `%e` is not modelled: output is a sequence of (voltage, separator) fields. Writes to a NULL `file` after a failed `fopen` are undefined in C and are not modelled beyond the run going on.
- IEEE doubles are not modelled: voltages, sums and averages are exact reals. The C average divides by 0.0 when a buffer holds fewer readings than channels; the model reports no value there.
- `sscanf` lexing is not modelled (it accepts trailing characters after a number, for example); words arrive with their scan results.
- The `print_usage` text is not modelled.
- `exit` does not terminate a process here: it becomes an `ArgError` or an `Ending` with a status. The status -1 is not truncated to 8 bits.
- Integers are unbounded. `samples` (a C `int`) could overflow after 2^31 readings, and `1000*duration` overflows for durations above 2147483 s; neither is modelled.
- `Acquisition.Launch`: the source does not check for an empty channel table. After `-d 5` it opens the card and runs the loop with `no_channels == 0`, dividing by zero in `process_samples` (see Findings). That run is not modelled; `Launch` uses the corrected validator `ParseForAcquisition`, and `Record` requires at least one channel.
- `Acquisition.Record`: the drained remainder is assumed to fit the buffer (`AccessCnt <= AI_COUNT`), and each successful transfer to deliver a full half of 10240 readings. The source relies on the driver for both.

## Findings

| source | as written | input that shows it | evidently intended | confidence | as-written member | corrected member |
|---|---|---|---|---|---|---|
| USB1901-record-tool/USB1901-record-tool.c:239 | `process_arguments` never requires a `-c`. Then `no_channels` is 0, and `process_samples` computes `length/no_channels` and `% no_channels` (lines 239, 247, 263) | the command line `-d 5`, if the driver accepts starting a scan of zero channels | at least one channel is configured before acquisition starts | medium (depends on the driver's reaction to zero channels), not executed | `Options.ParseAcceptsNoChannels` | `Options.ParseForAcquisition` |
