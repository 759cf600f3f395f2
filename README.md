# Alignment logger of the speech server

The server of this voice-assistant demo streams synthesized speech together with
per-character timing data. For each utterance its alignment logger builds an
**alignment record**: the text, its length, the number of characters, the total
duration in milliseconds, and one entry per character. Each entry holds its
index, the character, its start time and its duration. The start time and the
duration are absent (`None`) when the parallel list does not reach that
character. The server then writes the record as JSON to a timestamped file and to
`alignment.txt`, and writes the raw text to the output files. A process-wide
default logger is created on first use and shared afterwards.

This project models:

- the record builder of `AlignmentLogger.save_alignment`;
- the logger's construction, that is, its two directory paths;
- the create-once accessor `get_alignment_logger`;
- the file's own self-test.

Modules:

- `Wrappers` holds the `Option` type used for the nullable fields and for the
  optional `durations` argument.
- `FileLogger` holds everything else.

`AlignmentLogger` and `LoggerRegistry` are classes, because the accessor's
promise is about object identity. `SaveAlignment` computes the total duration
step by step, as the source does: it assigns a local and then adds to it. The
list of character entries is the pure function `Characters`, built up by
position like the source's `enumerate` comprehension.

Modelling choices:

- Strings are `seq<char>`. Dafny's `char` is a Unicode scalar value, so
  `|text|` is Python's `len(text)` for every text made of scalar values. A
  Python `str` holding a lone surrogate cannot be written as a Dafny string
  and falls outside the model.
- Times and durations are unbounded integers, as in Python.
- A path is the list of its components: `Path(base) / "alignment"` is
  `[base, "alignment"]`. This holds when `base_dir` contains no path separator.
  A `base_dir` such as `a/b`, which Python splits into several parts, falls
  outside the model.
- The timestamp is a required first parameter of `SaveAlignment`. In the
  source it is a clock read at the start of `save_alignment`.
- `SaveAlignment` returns the record together with the path. The source
  returns only the path; the record it builds is what it writes to the files.

## Model

| member | source | states |
|---|---|---|
| `FileLogger.Characters` | server/file_logger.py:66-74 | exactly one entry per element of `chars`, whatever the lengths of `times` and `durations`, and entry `i` is the entry for position `i` and `chars[i]` |
| `FileLogger.CharsOfCharacters` | server/file_logger.py:66-73 | reading the characters back out of the entries gives `chars` unchanged, so the order is preserved |
| `FileLogger.StartTimesOfCharacters` | server/file_logger.py:70 | the start times recorded are exactly the first `min(len(times), len(chars))` elements of `times`, in order |
| `FileLogger.DurationsOfCharacters` | server/file_logger.py:71 | the durations recorded are exactly the first `min(len(durations), len(chars))` elements of `durations`, and none are recorded when `durations` is missing |
| `FileLogger.CharactersRebuild` | server/file_logger.py:66-74 | building the entries again from the characters, start times and durations that an entry list records gives back that same list |
| `FileLogger.AlignmentLogger.constructor` | server/file_logger.py:21-23 | the alignment directory is `base_dir/alignment` and the output directory is `base_dir/outputs`; `base_dir` defaults to `logs` |
| `FileLogger.AlignmentLogger.SaveAlignment` | server/file_logger.py:50-75 | the total duration is 0 when `times` is empty, whatever `durations` holds; it is the last start time when `durations` is missing or empty; otherwise it is the last start time plus the last duration, even when the lists' lengths differ. When `chars`, `times` and `durations` all have the same non-zero length, the total is where the last character ends. The text is copied unchanged; `text_length` is `len(text)`; `char_count` is `len(chars)`, which is also the length of `characters`; entry `i` has index `i` and character `chars[i]`, its start time is `times[i]` when `i < len(times)` and absent otherwise, and its duration is `durations[i]` when `durations` is given and `i < len(durations)` and absent otherwise, so an empty or missing `durations` gives no duration anywhere; the timestamp is kept; the file returned is `alignment_<timestamp>.json` in the alignment directory |
| `FileLogger.SaveEvenlySpaced` | server/file_logger.py:178-191 | the self-test's input (starts 100 ms apart, each 90 ms long) gives entry `i` start `100*i` and duration 90, and a total of `100*(n-1)+90` for `n > 0` characters (0 for none); this holds for any text |
| `FileLogger.SaveGreeting` | server/file_logger.py:181-191 | the self-test's own 13-character greeting is recorded with 13 characters and a total duration of 1290 ms |
| `FileLogger.LoggerRegistry.constructor` | server/file_logger.py:163 | there is no default logger at first |
| `FileLogger.LoggerRegistry.GetAlignmentLogger` | server/file_logger.py:166-171 | the first call creates a new logger from its `base_dir` and stores it; every later call returns that same logger and ignores its `base_dir` |
| `FileLogger.GetTwice` | server/file_logger.py:166-171 | two calls return one and the same logger, whose directories come from the first call's argument |

## Left out

- Creating the directories (server/file_logger.py:25-27): filesystem side effect.
- Serialising the record as JSON and writing `alignment_<timestamp>.json`, `alignment.txt`, `output_<timestamp>.txt` and `output.txt` (server/file_logger.py:77-97): filesystem I/O. The returned record stands for what is written.
- `save_raw_output` (server/file_logger.py:103-121): a clock read and a file write, with no logic beyond the file name.
- `get_latest_alignment` and `get_latest_output` (server/file_logger.py:123-159): they read files, and their fall-back to `None` depends on file contents and exceptions outside the model.
- `datetime.now().strftime(...)` (server/file_logger.py:50, 114): a clock read. The timestamp is an input string.
- Logging calls: side effects only.
- Path normalisation: a path is kept as its list of components, and `str(...)` of a path is not modelled.
- `SaveAlignment`: the Python parameters are annotated as lists of strings and integers, but Python does not enforce this. The model accepts only such lists.
- The client's timed highlighting of characters: client code, not part of the server modelled here.
- All of `server/agent_direct.py`: network publishing, model and session setup, and server bootstrapping through external libraries.
