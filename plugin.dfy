/**
 * The stream transform returned by `gulpBootlint(options)` (index.js:26-114).
 * Each file passes through `Process`; `Flush` runs at the end of the stream.
 * The linter is the function the plugin is built with: what it reports for a
 * content and a list of disabled ids is its own business.
 */
module Plugin {
  import opened Wrappers
  import opened Levels
  import opened Logging
  import opened Reporting

  /** The linter: content and disabled rule ids to findings, in report order. */
  type Linter = (string, Option<seq<string>>) -> seq<Finding>

  /** The payload of a file: none, an unbuffered stream, or buffered text. */
  datatype Contents = Null | Stream | Buffer(text: string)

  /** An error the plugin emits on the stream, tagged with the plugin's name. */
  datatype PluginError = PluginError(plugin: string, message: string)

  const PluginName := "gulp-bootlint"
  const StreamsNotSupported := PluginError(PluginName, "Streams are not supported!")
  const LintErrorsFound := PluginError(PluginName, "Lint errors found!")

  /** A file travelling through the stream; the plugin only sets `bootlint`. */
  class VinylFile {
    const path: string
    const contents: Contents
    var bootlint: Option<LintResult>

    constructor (path: string, contents: Contents)
      ensures this.path == path && this.contents == contents && bootlint == None
    {
      this.path := path;
      this.contents := contents;
      bootlint := None;
    }
  }

  /** A file the linter reports at least one finding for. */
  predicate FileHasFindings(file: VinylFile, lint: Linter, disabledIds: Option<seq<string>>)
  {
    file.contents.Buffer? && lint(file.contents.text, disabledIds) != []
  }

  /** Whether some file of the run has findings. */
  predicate RunHasFindings(files: seq<VinylFile>, lint: Linter, disabledIds: Option<seq<string>>)
    decreases |files|
  {
    if files == [] then false
    else
      RunHasFindings(files[..|files| - 1], lint, disabledIds)
      || FileHasFindings(files[|files| - 1], lint, disabledIds)
  }

  lemma RunHasFindingsSnoc(files: seq<VinylFile>, file: VinylFile, lint: Linter, disabledIds: Option<seq<string>>)
    ensures RunHasFindings(files + [file], lint, disabledIds)
      == (RunHasFindings(files, lint, disabledIds) || FileHasFindings(file, lint, disabledIds))
  {
    assert (files + [file])[..|files|] == files;
  }

  /** The run has findings exactly when one of its files has, wherever it stands. */
  lemma {:induction false} RunHasFindingsIff(files: seq<VinylFile>, lint: Linter, disabledIds: Option<seq<string>>)
    ensures RunHasFindings(files, lint, disabledIds)
      <==> exists k :: 0 <= k < |files| && FileHasFindings(files[k], lint, disabledIds)
    decreases |files|
  {
    if files != [] {
      var init := files[..|files| - 1];
      RunHasFindingsIff(init, lint, disabledIds);
      if RunHasFindings(init, lint, disabledIds) {
        var k :| 0 <= k < |init| && FileHasFindings(init[k], lint, disabledIds);
        assert files[k] == init[k];
      }
      forall k | 0 <= k < |files| - 1
        ensures files[k] == init[k]
      {
      }
    }
  }

  /** The plugin's state: its normalised options, the run-wide flag and what it has written. */
  class LintPlugin {
    const disabledIds: Option<seq<string>>
    const logLevel: Level
    const lint: Linter
    /** Set once any finding has been reported, never reset. */
    var hasError: bool
    /** The lines that passed the level gate, in order. */
    var log: seq<LogLine>
    /** The files handed downstream, in order. */
    var forwarded: seq<VinylFile>
    /** The errors emitted on the stream, in order. */
    var errors: seq<PluginError>

    /** `hasError` holds exactly when some forwarded file had findings. */
    ghost predicate Valid()
      reads this
    {
      hasError == RunHasFindings(forwarded, lint, disabledIds)
    }

    /** A fresh stream with the normalised options and nothing processed. */
    constructor (config: Config, lint: Linter)
      ensures disabledIds == config.disabledIds && logLevel == config.logLevel
      ensures this.lint == lint
      ensures !hasError && log == [] && forwarded == [] && errors == []
      ensures Valid()
    {
      disabledIds := config.disabledIds;
      logLevel := config.logLevel;
      this.lint := lint;
      hasError := false;
      log := [];
      forwarded := [];
      errors := [];
    }

    /** `log.debug`, `log.info` or `log.error`, by the line's level. */
    method Emit(line: LogLine)
      modifies this`log
      ensures log == old(log) + Gate(logLevel, [line])
    {
      assert [line][1..] == [];
      if Emits(logLevel, Severity(line)) {
        log := log + [line];
      }
    }

    /** The reporter callback: one more finding of `file`, after `errorCount` earlier ones. */
    method Report(file: VinylFile, f: Finding, errorCount: nat) returns (count: nat)
      requires file.bootlint.Some?
      modifies this`log, this`hasError, file`bootlint
      ensures count == errorCount + 1
      ensures hasError
      ensures file.bootlint == Some(LintResult(false, old(file.bootlint.value.issues) + [f]))
      ensures log == old(log) + Gate(logLevel, FindingLines(file.path, f))
    {
      var elementsAvailable := false;
      var j := 0;
      while j < |f.locations|
        invariant 0 <= j <= |f.locations|
        invariant elementsAvailable == (j > 0)
        invariant log == old(log) + Gate(logLevel, LocatedLines(file.path, f, f.locations[..j]))
        invariant file.bootlint == old(file.bootlint) && hasError == old(hasError)
      {
        var loc := f.locations[j];
        Emit(Located(file.path, loc.line + 1, loc.column + 1, f.id, f.message, IsErrorClass(f.id)));
        elementsAvailable := true;
        GatedLocatedStep(logLevel, file.path, f, j);
        AppendAssoc(old(log), Gate(logLevel, LocatedLines(file.path, f, f.locations[..j])),
          Gate(logLevel, [LocatedLine(file.path, f, loc)]));
        j := j + 1;
      }
      assert f.locations[..j] == f.locations;
      assert FindingLines(file.path, f) == if |f.locations| > 0 then LocatedLines(file.path, f, f.locations)
        else [Unlocated(file.path, f.id, f.message, IsErrorClass(f.id))];
      if !elementsAvailable {
        assert log == old(log) + [];
        Emit(Unlocated(file.path, f.id, f.message, IsErrorClass(f.id)));
      }
      count := errorCount + 1;
      hasError := true;
      file.bootlint := Some(file.bootlint.value.(success := false));
      file.bootlint := Some(file.bootlint.value.(issues := file.bootlint.value.issues + [f]));
    }

    /** The transform function: one file through the plugin. */
    method Process(file: VinylFile)
      requires Valid()
      modifies this`log, this`hasError, this`forwarded, this`errors, file`bootlint
      ensures Valid()
      ensures file.contents.Null? ==>
        && file.bootlint == old(file.bootlint)
        && log == old(log) && hasError == old(hasError)
        && forwarded == old(forwarded) + [file] && errors == old(errors)
      ensures file.contents.Stream? ==>
        && file.bootlint == old(file.bootlint)
        && log == old(log) && hasError == old(hasError)
        && forwarded == old(forwarded) && errors == old(errors) + [StreamsNotSupported]
      ensures file.contents.Buffer? ==>
        var findings := lint(file.contents.text, disabledIds);
        && file.bootlint == Some(LintResult(findings == [], findings))
        && log == old(log) + Gate(logLevel, ProcessLines(file.path, findings))
        && hasError == (old(hasError) || findings != [])
        && forwarded == old(forwarded) + [file] && errors == old(errors)
    {
      if file.contents.Null? {
        RunHasFindingsSnoc(forwarded, file, lint, disabledIds);
        forwarded := forwarded + [file];
        return;
      }
      if file.contents.Stream? {
        errors := errors + [StreamsNotSupported];
        return;
      }
      LintBuffered(file);
      RunHasFindingsSnoc(forwarded, file, lint, disabledIds);
      forwarded := forwarded + [file];
    }

    /** The buffered-file part of the transform: announce, lint, report, summarise. */
    method LintBuffered(file: VinylFile)
      requires file.contents.Buffer?
      modifies this`log, this`hasError, file`bootlint
      ensures
        var findings := lint(file.contents.text, disabledIds);
        && file.bootlint == Some(LintResult(findings == [], findings))
        && log == old(log) + Gate(logLevel, ProcessLines(file.path, findings))
        && hasError == (old(hasError) || findings != [])
    {
      ghost var log0 := log;
      Emit(Debug(file.path));
      file.bootlint := Some(LintResult(true, []));
      var findings := lint(file.contents.text, disabledIds);
      var errorCount := DeliverFindings(file, findings);
      Emit(SummaryLine(file.path, errorCount));
      ghost var announce, body, summary :=
        Gate(logLevel, [Debug(file.path)]), Gate(logLevel, FileLines(file.path, findings)),
        Gate(logLevel, [SummaryLine(file.path, |findings|)]);
      AppendAssoc(log0, announce, body);
      AppendAssoc(log0, announce + body, summary);
      GatedFinish(logLevel, file.path, findings);
    }

    /**
     * The linter's side of `lintHtml`: the reporter is called once per
     * finding, in report order, on a file whose annotation is still empty.
     */
    method DeliverFindings(file: VinylFile, findings: seq<Finding>) returns (errorCount: nat)
      requires file.bootlint == Some(LintResult(true, []))
      modifies this`log, this`hasError, file`bootlint
      ensures errorCount == |findings|
      ensures file.bootlint == Some(LintResult(findings == [], findings))
      ensures hasError == (old(hasError) || findings != [])
      ensures log == old(log) + Gate(logLevel, FileLines(file.path, findings))
    {
      errorCount := 0;
      var i := 0;
      assert findings[..0] == [];
      while i < |findings|
        invariant 0 <= i <= |findings|
        invariant errorCount == i
        invariant file.bootlint == Some(LintResult(i == 0, findings[..i]))
        invariant hasError == (old(hasError) || i > 0)
        invariant log == old(log) + Gate(logLevel, FileLines(file.path, findings[..i]))
      {
        errorCount := Report(file, findings[i], errorCount);
        AppendAssoc(old(log), Gate(logLevel, FileLines(file.path, findings[..i])), Gate(logLevel, FindingLines(file.path, findings[i])));
        assert findings[..i + 1] == findings[..i] + [findings[i]];
        GatedFindingStep(logLevel, file.path, findings, i);
        i := i + 1;
      }
      assert findings[..i] == findings;
    }

    /** The flush function: fails the run when any file had findings. */
    method Flush()
      requires Valid()
      modifies this`errors
      ensures errors == old(errors) + (if hasError then [LintErrorsFound] else [])
      ensures errors == old(errors)
        + (if RunHasFindings(forwarded, lint, disabledIds) then [LintErrorsFound] else [])
    {
      if hasError {
        errors := errors + [LintErrorsFound];
      }
    }
  }

  /**
   * `gulpBootlint(options)`: normalises the options, without writing them
   * back, and builds the stream; None where the normalisation throws.
   */
  method GulpBootlint(options: OptionsObject?, lint: Linter) returns (plugin: Option<LintPlugin>)
    ensures var c := Configure(if options == null then None else Some(options.Value()));
      && (plugin.Some? <==> c.Some?)
      && (plugin.Some? ==>
        && fresh(plugin.value) && plugin.value.Valid()
        && plugin.value.disabledIds == c.value.disabledIds
        && plugin.value.logLevel == c.value.logLevel
        && plugin.value.lint == lint
        && !plugin.value.hasError && plugin.value.log == []
        && plugin.value.forwarded == [] && plugin.value.errors == [])
  {
    var config := Configure(None);
    if options != null {
      config := NormaliseReadOnly(options);
    }
    if config.None? {
      return None;
    }
    var p := new LintPlugin(config.value, lint);
    plugin := Some(p);
  }

  /**
   * One file under the default options, with a linter that reports one
   * finding at zero-based line 4, column 2: the log shows the finding at
   * 5:3 and the per-file summary, and the flush fails the run.
   */
  method OneFileRun()
  {
    var finding := Finding("W001", "missing viewport", [Location(4, 2)]);
    var stub: Linter := (content, ids) => [finding];
    var plugin := new LintPlugin(Config(Some([]), INFO), stub);
    var file := new VinylFile("a.html", Buffer("<html>"));
    plugin.Process(file);
    var located := Located("a.html", 5, 3, "W001", "missing viewport", false);
    OneFindingAtInfo("a.html", "W001", "missing viewport");
    assert plugin.log == [located, Summary("a.html", 1)];
    assert file.bootlint == Some(LintResult(false, [finding]));
    plugin.Flush();
    assert plugin.errors == [LintErrorsFound];
  }

  /**
   * Two files, the first lint free and the second with one finding: the
   * flush fails the run although the first file alone would not.
   */
  method TwoFileRun()
  {
    var finding := Finding("W001", "missing viewport", [Location(4, 2)]);
    var stub: Linter := (content, ids) => if content == "<bad>" then [finding] else [];
    var plugin := new LintPlugin(Config(Some([]), INFO), stub);
    var good := new VinylFile("ok.html", Buffer("<good>"));
    var bad := new VinylFile("a.html", Buffer("<bad>"));
    plugin.Process(good);
    assert !plugin.hasError;
    plugin.Process(bad);
    plugin.Flush();
    assert plugin.errors == [LintErrorsFound];
  }
}
