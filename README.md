# gulp-bootlint, modelled in Dafny

gulp-bootlint is a gulp plugin. It runs the `bootlint` HTML linter on every
file that passes through a gulp stream, logs what the linter reports, records
the findings on the file and fails the run at the end of the stream when any
file had a finding. The lint rules belong to `bootlint` and are not part of
this model. What the model covers is the plugin around the linter call:

- **Option normalisation** (`Levels`). The log-level name is upper-cased and
  looked up in the table DEBUG=1, INFO=2, ERROR=3, NONE=4. A missing or unknown
  name becomes INFO. A missing options object gives `disabledIds = []` at
  INFO.
- **Log lines and level gating** (`Logging`). Every line is a `LogLine` value
  tagged with the level of the `log.debug`, `log.info` or `log.error` call that
  writes it. `Gate` keeps, in order, the lines whose level is at or above the
  configured one.
- **What a buffered file logs** (`Reporting`). First a debug announcement.
  Then, per finding in report order, one ERROR line per element location
  (numbered from one) or one unlocated ERROR line. Last, one summary line.
- **The stream** (`Plugin`). `LintPlugin` is a class holding a copy of the
  normalised options taken when it is built (the source shares the caller's
  object instead; see "Left out"), the linter, the run-wide `hasError` flag,
  and the sequences of logged lines, forwarded files and emitted errors. `Process` handles one file
  and `Flush` ends the stream. A file is a `VinylFile` object whose `bootlint`
  annotation the plugin sets in place.

The linter is a function `Linter = (content, disabledIds) -> seq<Finding>`
that the plugin is built with. Walking its result in order stands for the
synchronous reporter callback. Processing the same content twice therefore
gives the same `issues`.

`LintPlugin.Valid()` is the run invariant: `hasError` holds exactly when some
forwarded file had findings. `Process` keeps it, and `Flush` emits
"Lint errors found!" exactly when it holds. A stream file leaves `Valid()` in
place, so files after it are processed as usual.

## Model

| member | source | states |
|---|---|---|
| `Levels.ToUpper` | index.js:33 | upper-casing keeps the length and maps each character on its own |
| `Levels.ToUpperIdempotent` | index.js:33 | upper-casing an upper-cased name changes nothing |
| `Levels.NormaliseLevel` | index.js:32-35 | a name gives DEBUG, ERROR or NONE exactly when its upper case is that level's name, and INFO in every other case |
| `Levels.NormaliseCaseInsensitive` | index.js:32-35 | a name and its upper case give the same level, so the match ignores case |
| `Levels.LevelOf` | index.js:32-35 | a missing or zero level gives INFO, a name gives its normalised level, and a non-zero number throws (no level) |
| `Levels.Configure` | index.js:27-35 | no options object gives `disabledIds = []` and INFO; otherwise `disabledIds` passes through unchanged, the level comes from `LevelOf`, and configuration fails exactly when `LevelOf` throws |
| `Levels.NormaliseInPlace` | index.js:32-35 | as written: the result is `Configure` of the old options, and on success the caller's object holds the level as a number |
| `Levels.ReuseAsWritten` | index.js:32-35 | as written, any options object used twice: the first call gives `Configure` of the object as passed, and the second always throws |
| `Levels.SharedOptionsAsWritten` | index.js:32-35 | the object `{disabledIds: [], logLevel: 'error'}` used twice: the first call gives ERROR, the second throws |
| `Levels.NormaliseReadOnly` | index.js:32-35 | the normalisation that only reads the caller's object gives `Configure` of it |
| `Levels.ReuseReadOnly` | index.js:32-35 | without the write-back, any options object used twice gives the same configuration both times, `Configure` of the object |
| `Levels.SharedOptionsReadOnly` | index.js:32-35 | without the write-back, `{disabledIds: [], logLevel: 'error'}` gives the ERROR configuration both times |
| `Logging.Severity` | index.js:59-80 | the announcement is the one debug line, the lint-free line the one info line, the located, unlocated and summary lines are error lines, and nothing is written at NONE |
| `Logging.Gate` | index.js:96-110 | the gate logs at most the lines written; which ones is stated by `Logging.GateMembers` |
| `Logging.GateMembers` | index.js:96-110 | a line is logged exactly when it was written and its level passes the configured level |
| `Logging.GateByLevel` | index.js:97-109 | debug lines pass only at DEBUG, info lines at DEBUG or INFO, error lines at every level but NONE; NONE passes nothing |
| `Logging.GateAppend` | index.js:92-111 | gating a log written in two parts gates each part and keeps their order |
| `Logging.GateKeepsAll` | index.js:92-111 | lines that all pass the gate are logged unchanged |
| `Logging.GateDropsAll` | index.js:92-111 | lines that all fail the gate are all dropped |
| `Logging.NoneIsSilent` | index.js:92-111 | at NONE nothing is logged |
| `Reporting.IsErrorClass` | index.js:53 | a rule id is shown as an error exactly when it starts with "E"; the empty id is not |
| `Reporting.LocatedLines` | index.js:56-61 | the `elements.each` loop writes exactly one line per element location; each line is given by `Reporting.LocatedLinesAt` |
| `Reporting.LocatedLinesAt` | index.js:56-61 | one line per element location, in order; line k carries location k's line + 1 and column + 1, the path, the rule id, the message and the display class |
| `Reporting.FindingLines` | index.js:56-65 | a finding with k >= 1 locations gets exactly k lines; one with none gets exactly the one unlocated line |
| `Reporting.FindingLinesAt` | index.js:56-61 | line k of a finding with locations is the located line of its location k, numbered from one |
| `Reporting.FindingLinesShape` | index.js:52-65 | every line written for a finding is a located or unlocated ERROR line for that file |
| `Reporting.FileLines` | index.js:52-75 | a file's finding lines number the sum over its findings of max(1, locations), so at least one per finding |
| `Reporting.FileLinesShape` | index.js:52-75 | every finding line of a file is a located or unlocated ERROR line for that path |
| `Reporting.SummaryLine` | index.js:77-81 | N > 0 findings give an ERROR summary counting N; zero gives the INFO lint-free line |
| `Reporting.ProcessLines` | index.js:73-81 | a buffered file's lines are the announcement first, then its finding lines, then the summary for its number of findings last, two lines more than its finding lines |
| `Reporting.OneSummaryPerFile` | index.js:73-81 | a buffered file's lines open with its one announcement and close with its one summary; no other summary or announcement appears |
| `Reporting.GatedProcessLines` | index.js:73-111 | what is logged for a file at each level: the announcement only at DEBUG, the finding lines unless NONE, and the summary when its level passes |
| `Reporting.ErrorLevelShowsFindingsOnly` | index.js:73-81 | at ERROR only the finding lines and a non-zero summary are logged |
| `Reporting.OneFindingAtInfo` | index.js:59-78 | at INFO, a finding at zero-based 4:2 is logged at 5:3, followed by the summary "1 lint error(s)" |
| `Plugin.RunHasFindingsIff` | index.js:68-85 | the run has findings exactly when some file of it has, wherever that file stands in the run |
| `Plugin.LintPlugin.constructor` | index.js:35-37 | a new stream has the normalised options, `hasError` false and nothing logged, forwarded or emitted |
| `Plugin.LintPlugin.Emit` | index.js:92-111 | a line is appended to the log exactly when it passes the gate |
| `Plugin.LintPlugin.Report` | index.js:52-71 | the reporter logs the finding's lines, counts it, sets `hasError`, clears `success` and appends the finding to `issues` |
| `Plugin.LintPlugin.DeliverFindings` | index.js:75 | after the linter's callbacks, `issues` is the findings in report order, `success` holds exactly when there are none, the count equals their number, and `hasError` is set exactly when there was one |
| `Plugin.LintPlugin.LintBuffered` | index.js:73-81 | a buffered file gets a fresh annotation equal to the findings, the gated announcement, finding lines and summary, and `hasError` updated |
| `Plugin.LintPlugin.Process` | index.js:40-83 | a null file is forwarded untouched with nothing logged; a stream file emits "Streams are not supported!" and is dropped; a buffered file is linted, annotated and forwarded; `hasError` only ever becomes true, and the run invariant is kept |
| `Plugin.LintPlugin.Flush` | index.js:84-90 | "Lint errors found!" is emitted exactly when `hasError` holds, that is, exactly when some forwarded file had findings; the level gate does not apply |
| `Plugin.GulpBootlint` | index.js:26-37 | building the stream succeeds exactly when the options normalise; the new stream carries that configuration and is empty |

## Findings

| source | as written | input that shows it | evidently intended | confidence | as-written member | corrected member |
|---|---|---|---|---|---|---|
| index.js:32-35 | the normalised level is written back into the caller's options object as a number, and the next `gulpBootlint` call on that object calls `toUpperCase` on the number, which throws a TypeError | any options object passed to `gulpBootlint` twice, such as `{disabledIds: [], logLevel: 'error'}` | a second stream built from the same options gets the same configuration | medium, not executed | `Levels.ReuseAsWritten` | `Levels.ReuseReadOnly` |

`Plugin.GulpBootlint` normalises through `Levels.NormaliseReadOnly`, the
corrected version. `Levels.NormaliseInPlace` keeps the behaviour as written.

## Left out

- The lint rules inside `bootlint.lintHtml` come from a separate library. The linter is a function parameter; the plugin does no filtering of its own.
- Log output is I/O: `gutil.log` timestamps, argument formatting and printing, and `chalk` colours are not modelled. Log lines are values. The 'E' rule-id test is kept only as the `errorClass` display tag.
- The `through2` plumbing, `this.emit('error', ...)` and the callbacks are modelled as appends to `forwarded` and `errors`. The stream's refusal of writes after the flush is not modelled.
- `Buffer.toString()` decoding is left out; a buffered file's content is a string.
- The cheerio element list is a sequence of zero-based start locations. A missing list is modelled as the empty one, since both give the one unlocated line. An element without a start location, which would throw, is not modelled.
- `Levels.ToUpper`: only the ASCII letters and the dotless ı (which becomes 'I') are upper-cased. Other Unicode case mappings are left out; none of them turns a string into one of the four level names.
- A `logLevel` that is neither missing, a string nor a number (an object, a boolean) is not modelled. A rule id that is not a string is not modelled either.
- There is no concurrency: files are processed one at a time.
- The stream is built with the corrected read-only normalisation. The in-place overwrite of `options.logLevel` is kept in `Levels.NormaliseInPlace`; see Findings.
- The options are copied into the stream when it is built. The source keeps a reference to the caller's object instead. It reads `options.disabledIds` at every lint call (index.js:75) and `options.logLevel` at every gated log call (index.js:97, 102, 107). A stream therefore sees later changes to that object: an item pushed onto `disabledIds`, or the number a second `gulpBootlint` call writes into `logLevel`, which changes what an earlier stream logs. The model fixes `LintPlugin.disabledIds` and `LintPlugin.logLevel` at construction, so it does not capture this aliasing.
