/** The option validator `process_arguments` (USB1901-record-tool.c:166-233)
    and the defaults of the global configuration (lines 42-48).

    The words of the command line arrive already scanned: each carries its
    text, the result of `sscanf(word, "%d")` and that of `sscanf(word,
    "%d:%d")`, so the lexing itself is not part of this model. Where the
    source calls `exit`, the model returns an `ArgError`. */
module Options {
  import opened Wrappers
  import opened Ranges
  import opened Processor

  /** A command-line word: its text, its value when "%d" scans one integer,
      and its pair when "%d:%d" scans two. */
  datatype Word = Word(text: string, asInt: Option<int>, asPair: Option<(int, int)>)

  /** The run's configuration, the source's global variables. */
  datatype Config = Config(fileName: string, sampleRate: int, channels: seq<Channel>, duration: int)

  const DefaultFileName: string := "data.csv"
  const DefaultSampleRate: int := 200
  /** Duration meaning "until a key is pressed". */
  const NoDuration: int := -1
  /** Highest hardware channel id accepted by `-c`. */
  const MaxChannelId: int := 15

  const DefaultConfig: Config := Config(DefaultFileName, DefaultSampleRate, [], NoDuration)

  /** Why the tool stops before acquiring: `-h`, or one of the usage errors.
      `NoChannels` is raised only by `ParseForAcquisition`. */
  datatype ArgError =
    | HelpRequested
    | MissingFileName
    | BadSampleRate
    | BadChannel
    | TooManyChannels
    | BadDuration
    | UnknownArgument(text: string)
    | NoChannels

  /** The status passed to `exit`: 0 after `-h`, -1 for a usage error. */
  function ExitStatus(e: ArgError): (status: int)
    ensures status == 0 <==> e == HelpRequested
    ensures e != HelpRequested ==> status == -1
  {
    if e == HelpRequested then 0 else -1
  }

  /** What the parser guarantees of every configuration it builds. */
  predicate Valid(cfg: Config) {
    && cfg.sampleRate >= 1
    && (cfg.duration == NoDuration || cfg.duration >= 1)
    && |cfg.channels| <= MaxChannels
    && forall k :: 0 <= k < |cfg.channels| ==> 0 <= cfg.channels[k].id <= MaxChannelId
  }

  /** The value of `-s` or `-d`: an integer of at least 1. */
  function PositiveArg(w: Word): (r: Option<int>)
    ensures r.Some? <==> w.asInt.Some? && w.asInt.value >= 1
    ensures r.Some? ==> r.value == w.asInt.value
  {
    if w.asInt.Some? && w.asInt.value >= 1 then w.asInt else None
  }

  /** The value of `-c`: "<id>:<range>" with id in 0..15 and range code in 0..3. */
  function ChannelArg(w: Word): (r: Option<Channel>)
    ensures r.Some? <==>
      w.asPair.Some? && 0 <= w.asPair.value.0 <= MaxChannelId && 0 <= w.asPair.value.1 <= 3
    ensures r.Some? ==>
      r.value.id == w.asPair.value.0 && RangeOfCode(w.asPair.value.1) == Some(r.value.range)
  {
    match w.asPair
    case None => None
    case Some((id, code)) =>
      if 0 <= id <= MaxChannelId && RangeOfCode(code).Some? then Some(Channel(id, RangeOfCode(code).value))
      else None
  }

  /** The configuration after an accepted option `flag` with value `w`: each
      option sets its own field from an acceptable value, a `-c` appends to
      the table, and nothing else changes. */
  function NextConfig(flag: Word, w: Word, cfg: Config): (r: Config)
    ensures flag.text == "-o" ==> r.fileName == w.text
    ensures flag.text == "-s" && PositiveArg(w).Some? ==> r.sampleRate == w.asInt.value
    ensures flag.text == "-d" && PositiveArg(w).Some? ==> r.duration == w.asInt.value
    ensures flag.text == "-c" && ChannelArg(w).Some? ==> r.channels == cfg.channels + [ChannelArg(w).value]
    ensures r.fileName != cfg.fileName ==> flag.text == "-o"
    ensures r.sampleRate != cfg.sampleRate ==> flag.text == "-s" && PositiveArg(w).Some?
    ensures r.duration != cfg.duration ==> flag.text == "-d" && PositiveArg(w).Some?
    ensures r.channels != cfg.channels ==> flag.text == "-c" && ChannelArg(w).Some?
  {
    if flag.text == "-o" then cfg.(fileName := w.text)
    else if flag.text == "-s" then cfg.(sampleRate := PositiveArg(w).GetOr(cfg.sampleRate))
    else if flag.text == "-c" then
      (if ChannelArg(w).Some? then cfg.(channels := cfg.channels + [ChannelArg(w).value]) else cfg)
    else if flag.text == "-d" then cfg.(duration := PositiveArg(w).GetOr(cfg.duration))
    else cfg
  }

  /** The option loop from the current word on, with the configuration built so
      far; an option that takes a value consumes the next word whatever it is. */
  function ParseFrom(args: seq<Word>, cfg: Config): (r: Result<Config, ArgError>)
    ensures r.Success? && Valid(cfg) ==> Valid(r.value)
    ensures r.Success? ==>
      |cfg.channels| <= |r.value.channels| && r.value.channels[..|cfg.channels|] == cfg.channels
    decreases |args|
  {
    if |args| == 0 then Success(cfg)
    else
      var flag := args[0].text;
      if flag == "-h" then Failure(HelpRequested)
      else if flag == "-o" then
        if |args| < 2 then Failure(MissingFileName)
        else ParseFrom(args[2..], NextConfig(args[0], args[1], cfg))
      else if flag == "-s" then
        if |args| < 2 || PositiveArg(args[1]).None? then Failure(BadSampleRate)
        else ParseFrom(args[2..], NextConfig(args[0], args[1], cfg))
      else if flag == "-c" then
        if |cfg.channels| >= MaxChannels then Failure(TooManyChannels)
        else if |args| < 2 || ChannelArg(args[1]).None? then Failure(BadChannel)
        else ParseFrom(args[2..], NextConfig(args[0], args[1], cfg))
      else if flag == "-d" then
        if |args| < 2 || PositiveArg(args[1]).None? then Failure(BadDuration)
        else ParseFrom(args[2..], NextConfig(args[0], args[1], cfg))
      else Failure(UnknownArgument(flag))
  }

  /** `process_arguments` on the words after the program name. */
  function Parse(args: seq<Word>): (r: Result<Config, ArgError>)
    ensures r.Success? ==> Valid(r.value)
  {
    ParseFrom(args, DefaultConfig)
  }

  /** A fully accepted prefix leaves the parser between options: what follows
      is parsed from the configuration the prefix built. */
  lemma {:induction false} ParseAppend(a: seq<Word>, b: seq<Word>, cfg: Config)
    requires ParseFrom(a, cfg).Success?
    ensures ParseFrom(a + b, cfg) == ParseFrom(b, ParseFrom(a, cfg).value)
    decreases |a|
  {
    if |a| == 0 {
      assert a + b == b;
    } else {
      assert (a + b)[0] == a[0];
      assert |a| >= 2;
      assert (a + b)[1] == a[1];
      assert (a + b)[2..] == a[2..] + b;
      var next := NextConfig(a[0], a[1], cfg);
      assert ParseFrom(a, cfg) == ParseFrom(a[2..], next);
      assert ParseFrom(a + b, cfg) == ParseFrom(a[2..] + b, next);
      ParseAppend(a[2..], b, next);
    }
  }

  /** Options that never appear leave their fields at the starting values:
      with no word "-o", "-s", "-c" or "-d", the file name, sample rate,
      channel list or duration is the one the parse started from. */
  lemma {:induction false} UnsetFieldsKeepDefaults(args: seq<Word>, cfg: Config)
    requires ParseFrom(args, cfg).Success?
    ensures (forall i :: 0 <= i < |args| ==> args[i].text != "-o") ==>
      ParseFrom(args, cfg).value.fileName == cfg.fileName
    ensures (forall i :: 0 <= i < |args| ==> args[i].text != "-s") ==>
      ParseFrom(args, cfg).value.sampleRate == cfg.sampleRate
    ensures (forall i :: 0 <= i < |args| ==> args[i].text != "-c") ==>
      ParseFrom(args, cfg).value.channels == cfg.channels
    ensures (forall i :: 0 <= i < |args| ==> args[i].text != "-d") ==>
      ParseFrom(args, cfg).value.duration == cfg.duration
    decreases |args|
  {
    if |args| > 0 {
      var rest := args[2..];
      assert forall i :: 0 <= i < |rest| ==> rest[i] == args[i + 2];
      UnsetFieldsKeepDefaults(rest, NextConfig(args[0], args[1], cfg));
    }
  }

  /** An accepted `-c` appends its channel at the end of the list, so channels
      are kept in command-line order, and nothing else changes. */
  lemma AcceptsChannelInOrder(a: seq<Word>, flag: Word, w: Word, rest: seq<Word>)
    requires Parse(a).Success? && |Parse(a).value.channels| < MaxChannels
    requires flag.text == "-c" && ChannelArg(w).Some?
    ensures Parse(a + [flag, w] + rest)
      == ParseFrom(rest, Parse(a).value.(channels := Parse(a).value.channels + [ChannelArg(w).value]))
  {
    assert a + [flag, w] + rest == a + ([flag, w] + rest);
    ParseAppend(a, [flag, w] + rest, DefaultConfig);
    assert ([flag, w] + rest)[2..] == rest;
  }

  /** A `-c` whose value does not scan as "<id>:<range>", or whose id is
      outside 0..15 or range outside 0..3, is rejected. */
  lemma RejectsBadChannel(a: seq<Word>, flag: Word, w: Word, rest: seq<Word>)
    requires Parse(a).Success? && |Parse(a).value.channels| < MaxChannels
    requires flag.text == "-c" && ChannelArg(w).None?
    ensures Parse(a + [flag, w] + rest) == Failure(BadChannel)
  {
    assert a + [flag, w] + rest == a + ([flag, w] + rest);
    ParseAppend(a, [flag, w] + rest, DefaultConfig);
  }

  /** A ninth `-c` is rejected whatever follows it. */
  lemma RejectsNinthChannel(a: seq<Word>, flag: Word, rest: seq<Word>)
    requires Parse(a).Success? && |Parse(a).value.channels| == MaxChannels
    requires flag.text == "-c"
    ensures Parse(a + [flag] + rest) == Failure(TooManyChannels)
  {
    assert a + [flag] + rest == a + ([flag] + rest);
    ParseAppend(a, [flag] + rest, DefaultConfig);
  }

  /** A `-s` or `-d` whose value is not an integer of at least 1 is rejected. */
  lemma RejectsBadNumber(a: seq<Word>, flag: Word, w: Word, rest: seq<Word>)
    requires Parse(a).Success?
    requires flag.text == "-s" || flag.text == "-d"
    requires w.asInt.None? || w.asInt.value < 1
    ensures Parse(a + [flag, w] + rest)
      == Failure(if flag.text == "-s" then BadSampleRate else BadDuration)
  {
    assert a + [flag, w] + rest == a + ([flag, w] + rest);
    ParseAppend(a, [flag, w] + rest, DefaultConfig);
  }

  /** An option that takes a value but ends the command line is rejected. */
  lemma RejectsMissingValue(a: seq<Word>, flag: Word)
    requires Parse(a).Success?
    requires flag.text in {"-o", "-s", "-d"} || (flag.text == "-c" && |Parse(a).value.channels| < MaxChannels)
    ensures Parse(a + [flag]) == Failure(
      if flag.text == "-o" then MissingFileName
      else if flag.text == "-s" then BadSampleRate
      else if flag.text == "-c" then BadChannel
      else BadDuration)
  {
    ParseAppend(a, [flag], DefaultConfig);
  }

  /** Any other word in option position is rejected; `-h` stops the parse with
      exit status 0. */
  lemma RejectsUnknownArgument(a: seq<Word>, w: Word, rest: seq<Word>)
    requires Parse(a).Success?
    requires w.text !in {"-o", "-s", "-c", "-d"}
    ensures Parse(a + [w] + rest)
      == Failure(if w.text == "-h" then HelpRequested else UnknownArgument(w.text))
    ensures ExitStatus(Parse(a + [w] + rest).error) == 0 <==> w.text == "-h"
  {
    assert a + [w] + rest == a + ([w] + rest);
    ParseAppend(a, [w] + rest, DefaultConfig);
  }

  /** As written, the parser never asks for a `-c`: a command line without one
      is accepted with an empty channel table, which `process_samples` then
      divides by. */
  lemma ParseAcceptsNoChannels(args: seq<Word>)
    requires forall i :: 0 <= i < |args| ==> args[i].text != "-c"
    requires Parse(args).Success?
    ensures |Parse(args).value.channels| == 0
  {
    UnsetFieldsKeepDefaults(args, DefaultConfig);
  }

  /** The command line "-d 5" is accepted with no channel at all; the
      validator the acquisition needs rejects it. */
  lemma NoChannelCommandLine()
    ensures Parse([Word("-d", None, None), Word("5", Some(5), None)])
      == Success(DefaultConfig.(duration := 5))
    ensures ParseForAcquisition([Word("-d", None, None), Word("5", Some(5), None)]) == Failure(NoChannels)
  {
    var args := [Word("-d", None, None), Word("5", Some(5), None)];
    assert args[2..] == [];
  }

  /** The validator the acquisition needs: the source's checks plus at least
      one channel, so that every accepted configuration can be streamed. */
  function ParseForAcquisition(args: seq<Word>): (r: Result<Config, ArgError>)
    ensures r.Success? ==> Valid(r.value) && 1 <= |r.value.channels|
    ensures r.Success? <==> Parse(args).Success? && |Parse(args).value.channels| >= 1
    ensures r.Success? ==> r == Parse(args)
    ensures Parse(args).Failure? ==> r == Parse(args)
    ensures Parse(args).Success? && |Parse(args).value.channels| == 0 ==> r == Failure(NoChannels)
  {
    var r := Parse(args);
    if r.Success? && |r.value.channels| == 0 then Failure(NoChannels) else r
  }
}
