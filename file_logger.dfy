/**
 * The alignment logger of the speech server: for every synthesized utterance it
 * builds a record of the per-character timing data delivered with the audio
 * (start time and duration of each character, in milliseconds) and the total
 * duration of the utterance, and hands that record to the file writer.
 *
 * The timestamp that names the files is a clock read in the server; here it is
 * a parameter. The files themselves are not modelled: the record that
 * `SaveAlignment` returns is the value the server serialises.
 */
module FileLogger {
  import opened Wrappers

  /** A filesystem path as the list of its components: `Path(b) / "x"` is `[b] + ["x"]`. */
  type Path = seq<string>

  /** One element of the record's `characters` list. */
  datatype CharEntry = CharEntry(
    index: nat,
    ch: string,
    startMs: Option<int>,
    durationMs: Option<int>)

  /** The structure written to `alignment_<timestamp>.json` and `alignment.txt`. */
  datatype AlignmentRecord = AlignmentRecord(
    timestamp: string,
    text: string,
    textLength: nat,
    totalDurationMs: int,
    charCount: nat,
    characters: seq<CharEntry>)

  /** Python truthiness of an optional list: `None` and `[]` are both false. */
  predicate Truthy(durations: Option<seq<int>>)
  {
    match durations
    case None => false
    case Some(d) => |d| > 0
  }

  /**
   * The entry for the character `ch` at position `i` of `chars`; its `ensures`
   * spell the entry out field by field for the proofs below. A start time
   * (duration) is present exactly when `times` (`durations`) reaches position `i`;
   * a missing or empty `durations` reaches no position.
   */
  function EntryAt(i: nat, ch: string, times: seq<int>, durations: Option<seq<int>>): (e: CharEntry)
    ensures e.index == i && e.ch == ch
    ensures e.startMs.Some? <==> i < |times|
    ensures i < |times| ==> e.startMs.value == times[i]
    ensures e.durationMs.Some? <==> durations.Some? && i < |durations.value|
    ensures durations.Some? && i < |durations.value| ==> e.durationMs.value == durations.value[i]
  {
    CharEntry(
      i,
      ch,
      if i < |times| then Some(times[i]) else None,
      if Truthy(durations) && i < |durations.value| then Some(durations.value[i]) else None)
  }

  /**
   * The `characters` list: one entry per element of `chars`, in order, the entry
   * at position `i` being `EntryAt(i, chars[i], ...)`, whatever the lengths of
   * `times` and `durations`.
   */
  function Characters(chars: seq<string>, times: seq<int>, durations: Option<seq<int>>): (r: seq<CharEntry>)
    ensures |r| == |chars|
    ensures forall i :: 0 <= i < |r| ==> r[i] == EntryAt(i, chars[i], times, durations)
    decreases |chars|
  {
    if chars == [] then []
    else
      var n := |chars| - 1;
      Characters(chars[..n], times, durations) + [EntryAt(n, chars[n], times, durations)]
  }

  /** The characters named by a list of entries, in order. */
  function CharsOf(entries: seq<CharEntry>): (chars: seq<string>)
    decreases |entries|
  {
    if entries == [] then []
    else CharsOf(entries[..|entries| - 1]) + [entries[|entries| - 1].ch]
  }

  /** The start times present in a list of entries, in order. */
  function StartTimesOf(entries: seq<CharEntry>): (times: seq<int>)
    decreases |entries|
  {
    if entries == [] then []
    else
      var last := entries[|entries| - 1];
      StartTimesOf(entries[..|entries| - 1]) + (if last.startMs.Some? then [last.startMs.value] else [])
  }

  /** The durations present in a list of entries, in order. */
  function DurationsOf(entries: seq<CharEntry>): (durations: seq<int>)
    decreases |entries|
  {
    if entries == [] then []
    else
      var last := entries[|entries| - 1];
      DurationsOf(entries[..|entries| - 1]) + (if last.durationMs.Some? then [last.durationMs.value] else [])
  }

  function Min(a: int, b: int): (m: int) { if a <= b then a else b }

  /** The durations list as a plain list: `None` contributes nothing. */
  function DurationList(durations: Option<seq<int>>): (d: seq<int>)
  {
    durations.GetOr([])
  }

  /** Reading the characters back out of the entries gives `chars` unchanged: order is preserved. */
  lemma {:induction false} CharsOfCharacters(chars: seq<string>, times: seq<int>, durations: Option<seq<int>>)
    ensures CharsOf(Characters(chars, times, durations)) == chars
    decreases |chars|
  {
    if chars != [] {
      var n := |chars| - 1;
      var r := Characters(chars, times, durations);
      CharsOfCharacters(chars[..n], times, durations);
      assert r[..n] == Characters(chars[..n], times, durations);
      assert chars[..n] + [chars[n]] == chars;
    }
  }

  /**
   * The start times recorded are exactly the first `min(|times|, |chars|)` elements
   * of `times`: no time is lost for a character, and surplus times are dropped.
   */
  lemma {:induction false} StartTimesOfCharacters(chars: seq<string>, times: seq<int>, durations: Option<seq<int>>)
    ensures StartTimesOf(Characters(chars, times, durations)) == times[..Min(|times|, |chars|)]
    decreases |chars|
  {
    if chars != [] {
      var n := |chars| - 1;
      var r := Characters(chars, times, durations);
      StartTimesOfCharacters(chars[..n], times, durations);
      assert r[..n] == Characters(chars[..n], times, durations);
      if n < |times| {
        assert times[..n] + [times[n]] == times[..n + 1];
      }
    }
  }

  /**
   * The durations recorded are exactly the first `min(|durations|, |chars|)`
   * elements of `durations`; a missing `durations` records none.
   */
  lemma {:induction false} DurationsOfCharacters(chars: seq<string>, times: seq<int>, durations: Option<seq<int>>)
    ensures DurationsOf(Characters(chars, times, durations))
         == DurationList(durations)[..Min(|DurationList(durations)|, |chars|)]
    decreases |chars|
  {
    if chars != [] {
      var n := |chars| - 1;
      var d := DurationList(durations);
      var r := Characters(chars, times, durations);
      DurationsOfCharacters(chars[..n], times, durations);
      assert r[..n] == Characters(chars[..n], times, durations);
      if n < |d| {
        assert d[..n] + [d[n]] == d[..n + 1];
      }
    }
  }

  /**
   * The entries hold all the timing information that reaches a character:
   * building the list again from what it records gives the same list.
   */
  lemma CharactersRebuild(chars: seq<string>, times: seq<int>, durations: Option<seq<int>>)
    ensures var r := Characters(chars, times, durations);
            Characters(CharsOf(r), StartTimesOf(r), Some(DurationsOf(r))) == r
  {
    var r := Characters(chars, times, durations);
    CharsOfCharacters(chars, times, durations);
    StartTimesOfCharacters(chars, times, durations);
    DurationsOfCharacters(chars, times, durations);
    var r' := Characters(CharsOf(r), StartTimesOf(r), Some(DurationsOf(r)));
    assert |r'| == |r|;
    forall i | 0 <= i < |r| ensures r'[i] == r[i] {
    }
  }

  /** The logger; the two directories are fixed when it is created. */
  class AlignmentLogger {
    const alignmentDir: Path
    const outputDir: Path

    /** Creating the directories on disk is not modelled. */
    constructor (baseDir: string := "logs")
      ensures alignmentDir == [baseDir, "alignment"]
      ensures outputDir == [baseDir, "outputs"]
    {
      alignmentDir := [baseDir, "alignment"];
      outputDir := [baseDir, "outputs"];
    }

    /**
     * Builds the alignment record of one utterance and returns it together with
     * the path of the timestamped file it is written to.
     */
    method SaveAlignment(
      timestamp: string,
      text: string,
      chars: seq<string>,
      times: seq<int>,
      durations: Option<seq<int>> := None)
      returns (record: AlignmentRecord, alignmentFile: Path)
      ensures record.timestamp == timestamp
      ensures record.text == text && record.textLength == |text|
      ensures record.charCount == |chars| == |record.characters|
      ensures record.characters == Characters(chars, times, durations)
      // entry i describes chars[i]; a time is recorded only where its list reaches i
      ensures forall i :: 0 <= i < |chars| ==>
                var e := record.characters[i];
                e.index == i && e.ch == chars[i] &&
                e.startMs == (if i < |times| then Some(times[i]) else None) &&
                e.durationMs == (if durations.Some? && i < |durations.value| then Some(durations.value[i]) else None)
      ensures alignmentFile == alignmentDir + ["alignment_" + timestamp + ".json"]
      // the total duration: the last start time plus the last duration, each when present
      ensures times == [] ==> record.totalDurationMs == 0
      ensures times != [] && (durations.None? || durations.value == []) ==>
                record.totalDurationMs == times[|times| - 1]
      ensures times != [] && durations.Some? && durations.value != [] ==>
                record.totalDurationMs == times[|times| - 1] + durations.value[|durations.value| - 1]
      // with parallel lists, the utterance ends where its last character ends
      ensures chars != [] && |times| == |chars| && durations.Some? && |durations.value| == |chars| ==>
                var last := record.characters[|chars| - 1];
                last.startMs.Some? && last.durationMs.Some? &&
                record.totalDurationMs == last.startMs.value + last.durationMs.value
    {
      var totalDuration := 0;
      if times != [] {
        totalDuration := times[|times| - 1];
        if Truthy(durations) {
          totalDuration := totalDuration + durations.value[|durations.value| - 1];
        }
      }
      record := AlignmentRecord(
        timestamp, text, |text|, totalDuration, |chars|, Characters(chars, times, durations));
      alignmentFile := alignmentDir + ["alignment_" + timestamp + ".json"];
    }
  }

  /** Splits a text into its characters, each as a one-character string (`list(text)`). */
  function CharList(text: string): (chars: seq<string>)
  {
    seq(|text|, i requires 0 <= i < |text| => [text[i]])
  }

  /**
   * The module's self-test, for any text: characters 100 ms apart, each lasting
   * 90 ms, so the utterance lasts until 90 ms after the last character starts.
   */
  method SaveEvenlySpaced(logger: AlignmentLogger, text: string, timestamp: string)
    returns (record: AlignmentRecord)
    ensures record.text == text
    ensures record.charCount == |text| == |record.characters|
    ensures record.totalDurationMs == if text == [] then 0 else 100 * (|text| - 1) + 90
    ensures forall i :: 0 <= i < |record.characters| ==>
              record.characters[i].ch == [text[i]] &&
              record.characters[i].startMs == Some(100 * i) &&
              record.characters[i].durationMs == Some(90)
  {
    var chars := CharList(text);
    var times := seq(|chars|, i requires 0 <= i < |chars| => 100 * i);
    var durations := seq(|chars|, _ => 90);
    var file;
    record, file := logger.SaveAlignment(timestamp, text, chars, times, Some(durations));
  }

  /** The self-test's own Arabic greeting has 13 characters, so it lasts 1290 ms. */
  method SaveGreeting(logger: AlignmentLogger, timestamp: string) returns (record: AlignmentRecord)
    ensures record.text == "مرحبا بالعالم"
    ensures record.charCount == 13 && record.totalDurationMs == 1290
  {
    var text := "مرحبا بالعالم";
    assert |text| == 13;
    record := SaveEvenlySpaced(logger, text, timestamp);
  }

  /** The module-level default logger, created on first use. */
  class LoggerRegistry {
    var defaultLogger: AlignmentLogger?

    constructor ()
      ensures defaultLogger == null
    {
      defaultLogger := null;
    }

    /**
     * Returns the default logger, creating it from `baseDir` on the first call
     * only; later calls return the same logger and ignore `baseDir`.
     */
    method GetAlignmentLogger(baseDir: string := "logs") returns (logger: AlignmentLogger)
      modifies this
      ensures old(defaultLogger) == null ==>
                fresh(logger) &&
                logger.alignmentDir == [baseDir, "alignment"] &&
                logger.outputDir == [baseDir, "outputs"]
      ensures old(defaultLogger) != null ==> logger == old(defaultLogger)
      ensures defaultLogger == logger
    {
      if defaultLogger == null {
        defaultLogger := new AlignmentLogger(baseDir);
      }
      logger := defaultLogger;
    }
  }

  /** Two calls give one logger, whose directories come from the first call's argument. */
  method GetTwice(registry: LoggerRegistry, first: string, second: string)
    returns (a: AlignmentLogger, b: AlignmentLogger)
    requires registry.defaultLogger == null
    modifies registry
    ensures a == b && registry.defaultLogger == a
    ensures a.alignmentDir == [first, "alignment"] && a.outputDir == [first, "outputs"]
  {
    a := registry.GetAlignmentLogger(first);
    b := registry.GetAlignmentLogger(second);
  }
}
