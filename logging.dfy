/**
 * The plugin's log lines and the level gate of its `log` object
 * (index.js:92-111). A line is a value tagged with the level of the
 * `log.debug`, `log.info` or `log.error` call that writes it; the gate lets
 * it through only when the configured level is at or below that level.
 */
module Logging {
  import opened Levels

  /** One line handed to the logger, before colouring and timestamping. */
  datatype LogLine =
    | /** "Linting file <path>" (index.js:73) */
      Debug(path: string)
    | /** "<path>:<line>:<column> <id> <message>", one-based (index.js:59) */
      Located(path: string, line: nat, column: nat, id: string, message: string, errorClass: bool)
    | /** "<path>: <id> <message>" (index.js:64) */
      Unlocated(path: string, id: string, message: string, errorClass: bool)
    | /** "<count> lint error(s) found in file <path>" (index.js:78) */
      Summary(path: string, count: nat)
    | /** "<path> is lint free!" (index.js:80) */
      LintFree(path: string)

  /**
   * The level of the `log` function that writes the line: only the
   * announcement is a debug line and only the lint-free line an info line;
   * no line is written at NONE.
   */
  function Severity(l: LogLine): (r: Level)
    ensures r == DEBUG <==> l.Debug?
    ensures r == INFO <==> l.LintFree?
    ensures r == ERROR <==> l.Located? || l.Unlocated? || l.Summary?
    ensures r != NONE
  {
    match l
    case Debug(_) => DEBUG
    case LintFree(_) => INFO
    case _ => ERROR
  }

  /** The gate of `log.debug`, `log.info` and `log.error`. */
  predicate Emits(configured: Level, severity: Level)
  {
    configured <= severity
  }

  /** The lines, in order, that pass the gate. */
  function Gate(configured: Level, lines: seq<LogLine>): (r: seq<LogLine>)
    ensures |r| <= |lines|
  {
    if lines == [] then []
    else (if Emits(configured, Severity(lines[0])) then [lines[0]] else []) + Gate(configured, lines[1..])
  }

  /** A line is logged exactly when it was written and passes the gate. */
  lemma {:induction false} GateMembers(configured: Level, lines: seq<LogLine>, l: LogLine)
    ensures l in Gate(configured, lines) <==> l in lines && Emits(configured, Severity(l))
  {
    if lines != [] {
      GateMembers(configured, lines[1..], l);
      assert lines == [lines[0]] + lines[1..];
    }
  }

  /** DEBUG lets everything through, NONE nothing, and each line only passes at or below its own level. */
  lemma GateByLevel(configured: Level)
    ensures Emits(configured, DEBUG) <==> configured == DEBUG
    ensures Emits(configured, INFO) <==> configured <= INFO
    ensures Emits(configured, ERROR) <==> configured != NONE
    ensures configured == NONE ==> forall l :: !Emits(configured, Severity(l))
  {
  }

  /**
   * Appending to a log part by part is appending the parts. Used as a
   * step in the methods, where the bare assertion is much costlier.
   */
  lemma AppendAssoc(log: seq<LogLine>, a: seq<LogLine>, b: seq<LogLine>)
    ensures (log + a) + b == log + (a + b)
  {
  }

  /** Gating a log written in two parts gates each part. */
  lemma {:induction false} GateAppend(configured: Level, a: seq<LogLine>, b: seq<LogLine>)
    ensures Gate(configured, a + b) == Gate(configured, a) + Gate(configured, b)
  {
    if a == [] {
      assert a + b == b;
    } else {
      var head := if Emits(configured, Severity(a[0])) then [a[0]] else [];
      assert (a + b)[0] == a[0];
      assert (a + b)[1..] == a[1..] + b;
      assert Gate(configured, a + b) == head + Gate(configured, a[1..] + b);
      GateAppend(configured, a[1..], b);
      AppendAssoc(head, Gate(configured, a[1..]), Gate(configured, b));
    }
  }

  /** Lines that all pass the gate are kept as they are. */
  lemma {:induction false} GateKeepsAll(configured: Level, lines: seq<LogLine>)
    requires forall l :: l in lines ==> Emits(configured, Severity(l))
    ensures Gate(configured, lines) == lines
  {
    if lines != [] {
      GateKeepsAll(configured, lines[1..]);
    }
  }

  /** Lines that all fail the gate are all dropped. */
  lemma {:induction false} GateDropsAll(configured: Level, lines: seq<LogLine>)
    requires forall l :: l in lines ==> !Emits(configured, Severity(l))
    ensures Gate(configured, lines) == []
  {
    if lines != [] {
      GateDropsAll(configured, lines[1..]);
    }
  }

  /** With NONE nothing is logged, whatever the lines. */
  lemma NoneIsSilent(lines: seq<LogLine>)
    ensures Gate(NONE, lines) == []
  {
    GateDropsAll(NONE, lines);
  }
}
