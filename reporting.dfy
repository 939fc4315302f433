/**
 * What the plugin writes for one buffered file (index.js:52-81): the lines of
 * each finding the linter reports, in report order, and one summary line.
 */
module Reporting {
  import opened Levels
  import opened Logging

  /** The zero-based start location of an offending element. */
  datatype Location = Location(line: nat, column: nat)

  /**
   * One finding of the linter: its rule id, its message and the start
   * locations of the offending elements (an absent element list reads as
   * an empty one: the source logs both the same way).
   */
  datatype Finding = Finding(id: string, message: string, locations: seq<Location>)

  /** The `file.bootlint` annotation. */
  datatype LintResult = LintResult(success: bool, issues: seq<Finding>)

  /**
   * The display class of a rule id (index.js:53): error-class ids are those
   * that start with 'E'; an empty id has no first character and is not one.
   */
  function IsErrorClass(id: string): (b: bool)
    ensures b <==> "E" <= id
  {
    |id| > 0 && id[0] == 'E'
  }

  /** The line for one location, numbered from one. */
  function LocatedLine(path: string, f: Finding, loc: Location): LogLine
  {
    Located(path, loc.line + 1, loc.column + 1, f.id, f.message, IsErrorClass(f.id))
  }

  /** One line per location of `locs`, in order (the `elements.each` loop). */
  function LocatedLines(path: string, f: Finding, locs: seq<Location>): (r: seq<LogLine>)
    ensures |r| == |locs|
    decreases |locs|
  {
    if locs == [] then []
    else LocatedLines(path, f, locs[..|locs| - 1]) + [LocatedLine(path, f, locs[|locs| - 1])]
  }

  /** Line k is the one for location k: its line and column plus one, the path, the id and the message. */
  lemma {:induction false} LocatedLinesAt(path: string, f: Finding, locs: seq<Location>, k: nat)
    requires k < |locs|
    ensures LocatedLines(path, f, locs)[k]
      == Located(path, locs[k].line + 1, locs[k].column + 1, f.id, f.message, IsErrorClass(f.id))
    decreases |locs|
  {
    if k < |locs| - 1 {
      var init := locs[..|locs| - 1];
      LocatedLinesAt(path, f, init, k);
      assert init[k] == locs[k];
    }
  }

  /** How many lines a finding gets: one per location, or one when it has none. */
  function LinesPerFinding(f: Finding): nat
  {
    if |f.locations| == 0 then 1 else |f.locations|
  }

  /** A line the reporter writes for a file: located or unlocated, for that path. */
  predicate IsFindingLine(path: string, l: LogLine)
  {
    (l.Located? || l.Unlocated?) && l.path == path
  }

  /** The lines the reporter callback writes for one finding. */
  function FindingLines(path: string, f: Finding): (r: seq<LogLine>)
    ensures |r| == LinesPerFinding(f)
    ensures |f.locations| == 0 ==> r == [Unlocated(path, f.id, f.message, IsErrorClass(f.id))]
  {
    if |f.locations| == 0 then [Unlocated(path, f.id, f.message, IsErrorClass(f.id))]
    else LocatedLines(path, f, f.locations)
  }

  /** A finding's k-th line is its k-th location's, numbered from one. */
  lemma FindingLinesAt(path: string, f: Finding, k: nat)
    requires k < |f.locations|
    ensures FindingLines(path, f)[k]
      == Located(path, f.locations[k].line + 1, f.locations[k].column + 1, f.id, f.message, IsErrorClass(f.id))
  {
    LocatedLinesAt(path, f, f.locations, k);
  }

  /** Every line of a finding is a located or unlocated ERROR line for the file. */
  lemma FindingLinesShape(path: string, f: Finding)
    ensures forall l :: l in FindingLines(path, f) ==> IsFindingLine(path, l) && Severity(l) == ERROR
  {
    var r := FindingLines(path, f);
    forall l | l in r
      ensures IsFindingLine(path, l)
    {
      var k :| 0 <= k < |r| && r[k] == l;
      if |f.locations| > 0 {
        FindingLinesAt(path, f, k);
      }
    }
  }

  /** The number of finding lines of a file. */
  function LineCount(fs: seq<Finding>): nat
  {
    if fs == [] then 0 else LineCount(fs[..|fs| - 1]) + LinesPerFinding(fs[|fs| - 1])
  }

  /** The finding lines of a file, finding after finding in report order. */
  function FileLines(path: string, fs: seq<Finding>): (r: seq<LogLine>)
    ensures |r| == LineCount(fs)
    ensures |fs| <= |r|
    decreases |fs|
  {
    if fs == [] then []
    else FileLines(path, fs[..|fs| - 1]) + FindingLines(path, fs[|fs| - 1])
  }

  /** Every finding line of a file is a located or unlocated ERROR line for it. */
  lemma {:induction false} FileLinesShape(path: string, fs: seq<Finding>)
    ensures forall l :: l in FileLines(path, fs) ==> IsFindingLine(path, l) && Severity(l) == ERROR
    decreases |fs|
  {
    if fs != [] {
      FileLinesShape(path, fs[..|fs| - 1]);
      FindingLinesShape(path, fs[|fs| - 1]);
    }
  }

  /** The summary line for a file with `count` findings (index.js:77-81). */
  function SummaryLine(path: string, count: nat): (r: LogLine)
    ensures count > 0 ==> r.Summary? && r.count == count && Severity(r) == ERROR
    ensures count == 0 ==> r.LintFree? && Severity(r) == INFO
    ensures r.path == path
  {
    if count > 0 then Summary(path, count) else LintFree(path)
  }

  /**
   * Everything written for a buffered file, before the gate: the
   * announcement first, the finding lines, and the summary last.
   */
  function ProcessLines(path: string, fs: seq<Finding>): (r: seq<LogLine>)
    ensures |r| == LineCount(fs) + 2
    ensures r[0] == Debug(path) && r[|r| - 1] == SummaryLine(path, |fs|)
  {
    [Debug(path)] + FileLines(path, fs) + [SummaryLine(path, |fs|)]
  }

  /** The lines of one more finding follow those of the earlier ones. */
  lemma FileLinesSnoc(path: string, fs: seq<Finding>, f: Finding)
    ensures FileLines(path, fs + [f]) == FileLines(path, fs) + FindingLines(path, f)
  {
    assert (fs + [f])[..|fs|] == fs;
  }

  /** The gated log of a file grows by the gated lines of each further location. */
  lemma GatedLocatedStep(configured: Level, path: string, f: Finding, j: nat)
    requires j < |f.locations|
    ensures Gate(configured, LocatedLines(path, f, f.locations[..j + 1]))
      == Gate(configured, LocatedLines(path, f, f.locations[..j]))
      + Gate(configured, [LocatedLine(path, f, f.locations[j])])
  {
    assert f.locations[..j + 1][..j] == f.locations[..j];
    GateAppend(configured, LocatedLines(path, f, f.locations[..j]), [LocatedLine(path, f, f.locations[j])]);
  }

  /** The announcement, the finding lines and the summary, each gated, make the file's gated log. */
  lemma GatedFinish(configured: Level, path: string, fs: seq<Finding>)
    ensures Gate(configured, ProcessLines(path, fs))
      == Gate(configured, [Debug(path)]) + Gate(configured, FileLines(path, fs))
      + Gate(configured, [SummaryLine(path, |fs|)])
  {
    GateAppend(configured, [Debug(path)] + FileLines(path, fs), [SummaryLine(path, |fs|)]);
    GateAppend(configured, [Debug(path)], FileLines(path, fs));
  }

  /** The gated log of a file grows by the gated lines of each further finding. */
  lemma GatedFindingStep(configured: Level, path: string, fs: seq<Finding>, i: nat)
    requires i < |fs|
    ensures Gate(configured, FileLines(path, fs[..i + 1]))
      == Gate(configured, FileLines(path, fs[..i])) + Gate(configured, FindingLines(path, fs[i]))
  {
    assert fs[..i + 1] == fs[..i] + [fs[i]];
    FileLinesSnoc(path, fs[..i], fs[i]);
    GateAppend(configured, FileLines(path, fs[..i]), FindingLines(path, fs[i]));
  }

  /**
   * A file gets exactly one summary line, after all of its finding lines,
   * and it counts the findings; the announcement comes first.
   */
  lemma OneSummaryPerFile(path: string, fs: seq<Finding>)
    ensures var r := ProcessLines(path, fs);
      && r[0] == Debug(path)
      && r[|r| - 1] == SummaryLine(path, |fs|)
      && |r| == LineCount(fs) + 2
      && (forall k :: 0 < k < |r| ==> !r[k].Debug?)
      && (forall k :: 0 <= k < |r| - 1 ==> !r[k].Summary? && !r[k].LintFree?)
  {
    var r := ProcessLines(path, fs);
    var body := FileLines(path, fs);
    FileLinesShape(path, fs);
    assert |r| == |body| + 2;
    forall k | 0 < k < |r| - 1
      ensures r[k].Located? || r[k].Unlocated?
    {
      assert r[k] == body[k - 1];
      assert body[k - 1] in body;
    }
  }

  /**
   * What the log shows of a buffered file at each configured level: the
   * announcement only at DEBUG, the finding lines at every level but NONE,
   * and the summary when its own level passes.
   */
  lemma GatedProcessLines(configured: Level, path: string, fs: seq<Finding>)
    ensures Gate(configured, ProcessLines(path, fs)) ==
      (if configured == DEBUG then [Debug(path)] else [])
      + (if configured <= ERROR then FileLines(path, fs) else [])
      + (if Emits(configured, Severity(SummaryLine(path, |fs|))) then [SummaryLine(path, |fs|)] else [])
  {
    var body := FileLines(path, fs);
    var s := SummaryLine(path, |fs|);
    GateAppend(configured, [Debug(path)] + body, [s]);
    GateAppend(configured, [Debug(path)], body);
    FileLinesShape(path, fs);
    if configured <= ERROR {
      GateKeepsAll(configured, body);
    } else {
      GateDropsAll(configured, body);
    }
  }

  /** At level ERROR only the finding lines and a non-zero summary remain. */
  lemma ErrorLevelShowsFindingsOnly(path: string, fs: seq<Finding>)
    ensures Gate(ERROR, ProcessLines(path, fs)) ==
      FileLines(path, fs) + (if |fs| > 0 then [Summary(path, |fs|)] else [])
  {
    GatedProcessLines(ERROR, path, fs);
  }

  /**
   * At the default level, a file whose one finding sits at zero-based line 4,
   * column 2 logs that finding at 5:3, then its one-error summary.
   */
  lemma OneFindingAtInfo(path: string, id: string, message: string)
    ensures Gate(INFO, ProcessLines(path, [Finding(id, message, [Location(4, 2)])]))
      == [Located(path, 5, 3, id, message, IsErrorClass(id)), Summary(path, 1)]
  {
    var f := Finding(id, message, [Location(4, 2)]);
    var located := Located(path, 5, 3, id, message, IsErrorClass(id));
    FindingLinesAt(path, f, 0);
    assert FindingLines(path, f) == [located];
    assert [] + [f] == [f];
    FileLinesSnoc(path, [], f);
    assert FileLines(path, [f]) == [located];
    GatedProcessLines(INFO, path, [f]);
    assert SummaryLine(path, 1) == Summary(path, 1);
  }
}
