/**
 * The plugin's options and their normalisation (index.js:19-35): a level
 * name is upper-cased and looked up in the level table; anything absent or
 * unknown becomes INFO, and a missing options object gives the defaults.
 */
module Levels {
  import opened Wrappers

  /** The numeric values of the `logLevel` table (index.js:19-24). */
  type Level = n: int | 1 <= n <= 4 witness 2

  const DEBUG: Level := 1
  const INFO: Level := 2
  const ERROR: Level := 3
  const NONE: Level := 4

  /** The level table, keyed by the upper-case level names. */
  const LevelTable: map<string, Level> :=
    map["DEBUG" := DEBUG, "INFO" := INFO, "ERROR" := ERROR, "NONE" := NONE]

  /**
   * The `logLevel` property of an options object: missing, a level name, or
   * a number (which is what the normalisation writes back into the object).
   */
  datatype LevelProperty = Absent | Name(name: string) | Number(n: int)

  /** An options object as a caller passes it; every field may be missing. */
  datatype Options = Options(disabledIds: Option<seq<string>>, logLevel: LevelProperty)

  /** The options after normalisation: the level is a number of the table. */
  datatype Config = Config(disabledIds: Option<seq<string>>, logLevel: Level)

  /** The options object that stands in for a missing one (index.js:27-30). */
  const DefaultOptions := Options(Some([]), Name("INFO"))

  /**
   * Upper-casing of one character, for the characters whose upper case can
   * occur in a level name: the ASCII letters, and the dotless i, which
   * upper-cases to 'I'.
   */
  function UpperChar(c: char): char
  {
    if 'a' <= c <= 'z' then (c as int - 32) as char
    else if c == '\U{0131}' then 'I'
    else c
  }

  /** `String.prototype.toUpperCase`, character by character. */
  function ToUpper(s: string): (r: string)
    ensures |r| == |s|
    ensures forall k :: 0 <= k < |s| ==> r[k] == UpperChar(s[k])
  {
    if s == [] then [] else [UpperChar(s[0])] + ToUpper(s[1..])
  }

  /**
   * The level a level name stands for. Only a non-empty name is upper-cased
   * (an empty string is falsy); the lookup falls back to INFO.
   */
  function NormaliseLevel(name: string): (r: Level)
    ensures r == DEBUG <==> ToUpper(name) == "DEBUG"
    ensures r == ERROR <==> ToUpper(name) == "ERROR"
    ensures r == NONE <==> ToUpper(name) == "NONE"
    ensures r == INFO <==> ToUpper(name) !in {"DEBUG", "ERROR", "NONE"}
  {
    var key := if name != "" then ToUpper(name) else name;
    if key in LevelTable then LevelTable[key] else INFO
  }

  /**
   * What lines 32-35 make of a `logLevel` property: None where
   * `toUpperCase` is called on a non-zero number and throws a TypeError.
   */
  function LevelOf(p: LevelProperty): (r: Option<Level>)
    ensures r.None? <==> p.Number? && p.n != 0
    ensures p.Absent? || p == Number(0) ==> r == Some(INFO)
    ensures p.Name? ==> r == Some(NormaliseLevel(p.name))
  {
    match p
    case Absent => Some(INFO)
    case Name(s) => Some(NormaliseLevel(s))
    case Number(n) => if n != 0 then None else Some(INFO)
  }

  /** The normalised configuration of `gulpBootlint(options)`, or None where it throws. */
  function Configure(options: Option<Options>): (c: Option<Config>)
    ensures options.None? ==> c == Some(Config(Some([]), INFO))
    ensures options.Some? ==> (c.None? <==> LevelOf(options.value.logLevel).None?)
    ensures options.Some? && c.Some? ==>
      c.value == Config(options.value.disabledIds, LevelOf(options.value.logLevel).value)
  {
    var o := if options.Some? then options.value else DefaultOptions;
    match LevelOf(o.logLevel)
    case None => None
    case Some(level) => Some(Config(o.disabledIds, level))
  }

  /** Upper-casing an upper-cased name changes nothing. */
  lemma ToUpperIdempotent(s: string)
    ensures ToUpper(ToUpper(s)) == ToUpper(s)
  {
  }

  /** The level name is matched case-insensitively. */
  lemma NormaliseCaseInsensitive(s: string)
    ensures NormaliseLevel(s) == NormaliseLevel(ToUpper(s))
  {
    ToUpperIdempotent(s);
  }

  /** The caller's options object, which the source updates in place. */
  class OptionsObject {
    var disabledIds: Option<seq<string>>
    var logLevel: LevelProperty

    constructor (disabledIds: Option<seq<string>>, logLevel: LevelProperty)
      ensures this.disabledIds == disabledIds && this.logLevel == logLevel
    {
      this.disabledIds := disabledIds;
      this.logLevel := logLevel;
    }

    function Value(): Options
      reads this
    {
      Options(disabledIds, logLevel)
    }
  }

  /**
   * Lines 32-35 as written: the level is normalised and written back into
   * the caller's object as a number, unless `toUpperCase` throws first.
   */
  method NormaliseInPlace(options: OptionsObject) returns (c: Option<Config>)
    modifies options
    ensures c == Configure(Some(old(options.Value())))
    ensures c.Some? ==> options.Value() == Options(old(options.disabledIds), Number(c.value.logLevel))
    ensures c.None? ==> options.Value() == old(options.Value())
  {
    var level: Level := INFO;
    match options.logLevel {
      case Absent =>
      case Name(s) =>
        var name := if s != "" then ToUpper(s) else s;
        options.logLevel := Name(name);
        if name in LevelTable {
          level := LevelTable[name];
        }
      case Number(n) =>
        if n != 0 {
          return None;
        }
    }
    options.logLevel := Number(level);
    c := Some(Config(options.disabledIds, level));
    assert old(options.Value()).logLevel.Name? ==> level == NormaliseLevel(old(options.logLevel).name);
  }

  /**
   * As written, one options object handed to two plugins: the first call
   * configures from the object as given, and the second always throws,
   * on the number the first left behind or on the same bad number again.
   */
  method ReuseAsWritten(options: OptionsObject) returns (first: Option<Config>, second: Option<Config>)
    modifies options
    ensures first == Configure(Some(old(options.Value())))
    ensures second == None
  {
    first := NormaliseInPlace(options);
    second := NormaliseInPlace(options);
  }

  /** For example `{disabledIds: [], logLevel: 'error'}`: ERROR once, then a throw. */
  method SharedOptionsAsWritten() returns (first: Option<Config>, second: Option<Config>)
    ensures first == Some(Config(Some([]), ERROR))
    ensures second == None
  {
    var options := new OptionsObject(Some([]), Name("error"));
    first, second := ReuseAsWritten(options);
  }

  /** The normalisation without the write-back: the caller's object is only read. */
  method NormaliseReadOnly(options: OptionsObject) returns (c: Option<Config>)
    ensures c == Configure(Some(options.Value()))
  {
    c := match options.logLevel
      case Absent => Some(Config(options.disabledIds, INFO))
      case Name(s) =>
        var name := if s != "" then ToUpper(s) else s;
        Some(Config(options.disabledIds, if name in LevelTable then LevelTable[name] else INFO))
      case Number(n) => if n != 0 then None else Some(Config(options.disabledIds, INFO));
  }

  /** Without the write-back, any options object configures two plugins alike. */
  method ReuseReadOnly(options: OptionsObject) returns (first: Option<Config>, second: Option<Config>)
    ensures first == second == Configure(Some(options.Value()))
  {
    first := NormaliseReadOnly(options);
    second := NormaliseReadOnly(options);
  }

  /** For example `{disabledIds: [], logLevel: 'error'}`: ERROR both times. */
  method SharedOptionsReadOnly() returns (first: Option<Config>, second: Option<Config>)
    ensures first == second == Some(Config(Some([]), ERROR))
  {
    var options := new OptionsObject(Some([]), Name("error"));
    first, second := ReuseReadOnly(options);
  }
}
