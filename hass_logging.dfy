/** The logging configuration `hass.py` derives from its environment at
    start-up: the `LOG_OUTPUT` destinations, the `LOG_LEVEL` and
    `LIB_LOG_LEVEL` names, the handler list, and what is applied to the root
    logger and to the named loggers. The environment is a map from variable
    names to values. */
module HassLogging {
  import opened Outcomes
  import opened Text

  // ---------------------------------------------------------------------
  // LOG_OUTPUT

  /** Every comma-separated piece of a blank value is blank. */
  lemma BlankValueHasBlankPieces(raw: string)
    requires AllSpace(raw)
    ensures forall i :: 0 <= i < |Split(raw)| ==> Strip(Split(raw)[i]) == ""
  {
    forall i | 0 <= i < |Split(raw)|
      ensures Strip(Split(raw)[i]) == ""
    {
      forall j | 0 <= j < |Split(raw)[i]|
        ensures IsSpace(Split(raw)[i][j])
      {
        SplitChars(raw, i, j);
      }
    }
  }

  /** The names the non-blank pieces stand for, each piece stripped and
      lower-cased. */
  function Names(pieces: seq<string>): (names: set<string>)
    ensures forall i :: 0 <= i < |pieces| && Strip(pieces[i]) != "" ==> Lower(Strip(pieces[i])) in names
    decreases |pieces|
  {
    if pieces == [] then {}
    else
      var rest := Names(pieces[1..]);
      var names := if Strip(pieces[0]) == "" then rest else {Lower(Strip(pieces[0]))} + rest;
      NamesStep(pieces, rest, names);
      names
  }

  /** The step of `Names`: a set holding the names of the pieces after the
      first, and the name of the first when it is non-blank, holds the name
      of every non-blank piece. */
  lemma NamesStep(pieces: seq<string>, rest: set<string>, names: set<string>)
    requires |pieces| > 0 && rest <= names
    requires forall i :: 0 <= i < |pieces[1..]| && Strip(pieces[1..][i]) != "" ==> Lower(Strip(pieces[1..][i])) in rest
    requires Strip(pieces[0]) != "" ==> Lower(Strip(pieces[0])) in names
    ensures forall i :: 0 <= i < |pieces| && Strip(pieces[i]) != "" ==> Lower(Strip(pieces[i])) in names
  {
    forall i | 1 <= i < |pieces| && Strip(pieces[i]) != ""
      ensures Lower(Strip(pieces[i])) in names
    {
      assert pieces[i] == pieces[1..][i - 1];
    }
  }

  /** Every name comes from a non-blank piece. */
  lemma {:induction false} NamesSound(pieces: seq<string>, o: string)
    requires o in Names(pieces)
    ensures exists i :: 0 <= i < |pieces| && Strip(pieces[i]) != "" && o == Lower(Strip(pieces[i]))
    decreases |pieces|
  {
    if !(Strip(pieces[0]) != "" && o == Lower(Strip(pieces[0]))) {
      NamesSound(pieces[1..], o);
      var i :| 0 <= i < |pieces| - 1 && Strip(pieces[1..][i]) != "" && o == Lower(Strip(pieces[1..][i]));
      assert pieces[1..][i] == pieces[i + 1];
    }
  }

  /** The set of output names in a raw `LOG_OUTPUT` value: each piece between
      commas, stripped and lower-cased, blank pieces dropped. A blank value
      gives no outputs, which its pieces, all blank, would give as well. */
  function ParseLogOutput(raw: string): (outputs: set<string>)
    ensures AllSpace(raw) ==> outputs == {}
    ensures forall i :: 0 <= i < |Split(raw)| && Strip(Split(raw)[i]) != "" ==>
              Lower(Strip(Split(raw)[i])) in outputs
  {
    if Strip(raw) == "" then
      BlankValueHasBlankPieces(raw);
      {}
    else Names(Split(raw))
  }

  /** Conversely, every output name is a non-blank piece of the value,
      stripped and lower-cased. */
  lemma ParseLogOutputSound(raw: string, o: string)
    requires o in ParseLogOutput(raw)
    ensures exists i :: 0 <= i < |Split(raw)| && Strip(Split(raw)[i]) != "" && o == Lower(Strip(Split(raw)[i]))
  {
    NamesSound(Split(raw), o);
  }

  /** The output name a non-blank piece without a comma gives is non-empty,
      holds no comma, carries no surrounding whitespace and no upper-case
      letter. */
  lemma PieceNameNormalized(p: string)
    requires Strip(p) != "" && ',' !in p
    ensures var o := Lower(Strip(p));
            o != "" && ',' !in o && Strip(o) == o && Lower(o) == o
  {
    var t := Strip(p);
    var o := Lower(t);
    assert ',' !in t;
    assert ',' !in o by {
      forall i | 0 <= i < |t|
        ensures o[i] != ','
      {
        assert t[i] in t;
      }
    }
    assert Strip(o) == o by {
      StripLower(t);
      StripIdempotent(p);
    }
    assert Lower(o) == o by {
      LowerOfLower(o);
    }
  }

  /** Every output name is non-empty, holds no comma, carries no surrounding
      whitespace and no upper-case letter. */
  lemma OutputNamesNormalized(raw: string, o: string)
    requires o in ParseLogOutput(raw)
    ensures o != "" && ',' !in o && Strip(o) == o && Lower(o) == o
  {
    ParseLogOutputSound(raw, o);
    var i :| 0 <= i < |Split(raw)| && Strip(Split(raw)[i]) != "" && o == Lower(Strip(Split(raw)[i]));
    assert Split(raw)[i] in Split(raw);
    PieceNameNormalized(Split(raw)[i]);
  }

  /** A name as the parser writes it: non-empty, without a comma, without
      surrounding whitespace and without upper-case letters. */
  predicate NormalName(n: string) {
    && n != "" && ',' !in n && !IsSpace(n[0]) && !IsSpace(n[|n| - 1])
    && forall i :: 0 <= i < |n| ==> !IsAsciiUpper(n[i])
  }

  /** A normalised name is its own stripped, lower-cased form. */
  lemma NormalNameKept(n: string)
    requires NormalName(n)
    ensures Strip(n) == n && Lower(Strip(n)) == n
  {
    StripUnpadded(n);
    LowerOfLower(n);
  }

  /** Normalised names joined by commas split back into the names, each
      its own stripped, lower-cased form. */
  lemma JoinedNamesSplit(names: seq<string>)
    requires |names| >= 1
    requires forall k :: 0 <= k < |names| ==> NormalName(names[k])
    ensures Split(Join(names)) == names
    ensures forall k :: 0 <= k < |names| ==> Strip(names[k]) != "" && Lower(Strip(names[k])) == names[k]
  {
    forall p | p in names
      ensures ',' !in p
    {
      var k :| 0 <= k < |names| && names[k] == p;
    }
    SplitJoin(names);
    forall k | 0 <= k < |names|
      ensures Strip(names[k]) != "" && Lower(Strip(names[k])) == names[k]
    {
      NormalNameKept(names[k]);
    }
  }

  /** A value made of normalised names joined by commas is read back as the
      set of those names. */
  lemma JoinedNamesRead(names: seq<string>)
    requires |names| >= 1
    requires forall k :: 0 <= k < |names| ==> NormalName(names[k])
    ensures forall n :: n in ParseLogOutput(Join(names)) <==> n in names
  {
    var raw := Join(names);
    JoinedNamesSplit(names);
    forall o | o in ParseLogOutput(raw)
      ensures o in names
    {
      ParseLogOutputSound(raw, o);
    }
    forall n | n in names
      ensures n in ParseLogOutput(raw)
    {
      var k :| 0 <= k < |names| && names[k] == n;
    }
  }

  /** The value `LOG_OUTPUT` falls back to when it is not set. */
  const DefaultLogOutput := "console"

  /** The outputs the environment selects: the console alone when
      `LOG_OUTPUT` is unset, none when it is blank. */
  function LogOutputs(env: map<string, string>): (outputs: set<string>)
    ensures "LOG_OUTPUT" !in env ==> outputs == {"console"}
    ensures "LOG_OUTPUT" in env && AllSpace(env["LOG_OUTPUT"]) ==> outputs == {}
  {
    OneNameRead(DefaultLogOutput);
    ParseLogOutput(Get(env, "LOG_OUTPUT", DefaultLogOutput))
  }

  /** A normalised name on its own is read back as the set of that name. */
  lemma OneNameRead(n: string)
    requires NormalName(n)
    ensures ParseLogOutput(n) == {n}
  {
    SplitWithoutComma(n);
    NormalNameKept(n);
    assert Names([n]) == {n};
  }

  // ---------------------------------------------------------------------
  // LOG_LEVEL and LIB_LOG_LEVEL

  const ValidLogLevels: set<string> := {"DEBUG", "INFO", "WARNING", "ERROR", "CRITICAL"}

  /** The valid level names are already upper-case. */
  lemma ValidLevelsUpper(level: string)
    requires level in ValidLogLevels
    ensures Upper(level) == level
  {
    UpperOfUpper(level);
  }

  /** The level a variable names, upper-cased, or `fallback` when the
      variable is unset or its upper-cased value is not a valid level. */
  function ResolveLevel(env: map<string, string>, key: string, fallback: string): (level: string)
    requires fallback in ValidLogLevels
    ensures level in ValidLogLevels
    ensures key in env && Upper(env[key]) in ValidLogLevels ==> level == Upper(env[key])
    ensures key in env && Upper(env[key]) !in ValidLogLevels ==> level == fallback
    ensures key !in env ==> level == fallback
  {
    ValidLevelsUpper(fallback);
    var named := Upper(Get(env, key, fallback));
    if named in ValidLogLevels then named else fallback
  }

  /** Writing the resolved level back into the environment resolves to the
      same level. */
  lemma ResolveLevelStable(env: map<string, string>, key: string, fallback: string)
    requires fallback in ValidLogLevels
    ensures var level := ResolveLevel(env, key, fallback);
            ResolveLevel(env[key := level], key, fallback) == level
  {
    ValidLevelsUpper(ResolveLevel(env, key, fallback));
  }

  /** Level names are read without regard to case: two values that differ
      only in the case of their letters resolve to the same level. */
  lemma ResolveLevelIgnoresCase(env: map<string, string>, key: string, v1: string, v2: string, fallback: string)
    requires fallback in ValidLogLevels
    requires |v1| == |v2| && forall i :: 0 <= i < |v1| ==> UpperChar(v1[i]) == UpperChar(v2[i])
    ensures ResolveLevel(env[key := v1], key, fallback) == ResolveLevel(env[key := v2], key, fallback)
  {
    assert Upper(v1) == Upper(v2);
  }

  /** A valid level name written in lower case selects that level. */
  lemma LowerCaseLevelAccepted(env: map<string, string>, key: string, level: string, fallback: string)
    requires fallback in ValidLogLevels && level in ValidLogLevels
    ensures ResolveLevel(env[key := Lower(level)], key, fallback) == level
  {
    ValidLevelsUpper(level);
    UpperOfLower(level);
  }

  /** `LOG_LEVEL`, with default and fallback "INFO". */
  function LogLevel(env: map<string, string>): (level: string)
    ensures level in ValidLogLevels
    ensures "LOG_LEVEL" !in env ==> level == "INFO"
    ensures "LOG_LEVEL" in env && Upper(env["LOG_LEVEL"]) in ValidLogLevels ==> level == Upper(env["LOG_LEVEL"])
    ensures "LOG_LEVEL" in env && Upper(env["LOG_LEVEL"]) !in ValidLogLevels ==> level == "INFO"
  {
    ResolveLevel(env, "LOG_LEVEL", "INFO")
  }

  /** `LIB_LOG_LEVEL`, with default and fallback "WARNING". */
  function LibLogLevel(env: map<string, string>): (level: string)
    ensures level in ValidLogLevels
    ensures "LIB_LOG_LEVEL" !in env ==> level == "WARNING"
    ensures "LIB_LOG_LEVEL" in env && Upper(env["LIB_LOG_LEVEL"]) in ValidLogLevels ==> level == Upper(env["LIB_LOG_LEVEL"])
    ensures "LIB_LOG_LEVEL" in env && Upper(env["LIB_LOG_LEVEL"]) !in ValidLogLevels ==> level == "WARNING"
  {
    ResolveLevel(env, "LIB_LOG_LEVEL", "WARNING")
  }

  /** The valid level names from the least to the most severe. */
  const LevelNames: seq<string> := ["DEBUG", "INFO", "WARNING", "ERROR", "CRITICAL"]

  /** The numeric value `logging` gives each level name: a multiple of ten
      from 10 to `CRITICAL` (50), ten times the name's rank in `LevelNames`,
      so that more severe levels have larger values. */
  function LevelValue(level: string): (n: int)
    requires level in ValidLogLevels
    ensures 10 <= n <= Critical && n % 10 == 0
    ensures LevelNames[n / 10 - 1] == level
  {
    match level
    case "DEBUG" => 10
    case "INFO" => 20
    case "WARNING" => 30
    case "ERROR" => 40
    case _ => Critical
  }

  /** The level named at rank `i` of `LevelNames` has the value `10 * (i + 1)`,
      so the values ascend strictly with the severity. */
  lemma LevelsAscend(i: nat, j: nat)
    requires i < j < |LevelNames|
    ensures LevelNames[i] in ValidLogLevels && LevelNames[j] in ValidLogLevels
    ensures LevelValue(LevelNames[i]) == 10 * (i + 1) < LevelValue(LevelNames[j]) == 10 * (j + 1)
  {
  }

  const Critical := 50
  /** The root logger's level before any configuration (`WARNING`). */
  const DefaultRootLevel := 30
  /** `logging.disable`'s level before any call (`NOTSET`). */
  const NotSet := 0

  // ---------------------------------------------------------------------
  // Handlers

  const LogPath := "logs/hass.log"

  /** A handler of the root logger: the file at `LogPath`, or standard out. */
  datatype Handler = FileHandler(path: string) | ConsoleHandler

  /** The handler list an output set asks for: a file handler exactly when
      "file" is an output, a console handler exactly when "console" is, the
      file handler first, and nothing else. */
  function SelectedHandlers(outputs: set<string>): (handlers: seq<Handler>)
    ensures FileHandler(LogPath) in handlers <==> "file" in outputs
    ensures ConsoleHandler in handlers <==> "console" in outputs
    ensures forall h :: h in handlers ==> h == FileHandler(LogPath) || h == ConsoleHandler
    ensures |handlers| <= 2
    ensures "file" in outputs ==> handlers[0] == FileHandler(LogPath)
    ensures |handlers| == 2 ==> handlers[0] != handlers[1]
  {
    (if "file" in outputs then [FileHandler(LogPath)] else [])
    + (if "console" in outputs then [ConsoleHandler] else [])
  }

  /** Output names other than "file" and "console" select no handler. */
  lemma UnknownOutputsIgnored(outputs: set<string>)
    ensures SelectedHandlers(outputs) == SelectedHandlers(outputs * {"file", "console"})
  {
  }

  /** Building `LOG_HANDLERS`: start empty, append the file handler, then
      the console handler, each when its output is selected. */
  method BuildHandlers(outputs: set<string>) returns (handlers: seq<Handler>)
    ensures handlers == SelectedHandlers(outputs)
  {
    handlers := [];
    if "file" in outputs {
      handlers := handlers + [FileHandler(LogPath)];
    }
    if "console" in outputs {
      handlers := handlers + [ConsoleHandler];
    }
  }

  // ---------------------------------------------------------------------
  // The logging state

  /** The part of the `logging` module's global state the configuration
      touches: the root logger's level and handlers, the level passed to
      `logging.disable`, and the levels set on named loggers. */
  class LoggingState {
    var rootLevel: int
    var rootHandlers: seq<Handler>
    var disabled: int
    var levels: map<string, int>

    /** A fresh interpreter: root at `WARNING`, no handler, nothing disabled,
        no named logger given a level. */
    constructor ()
      ensures rootLevel == DefaultRootLevel && rootHandlers == [] && disabled == NotSet && levels == map[]
    {
      rootLevel, rootHandlers, disabled, levels := DefaultRootLevel, [], NotSet, map[];
    }

    /** Whether the root logger passes a record of level `n`: above the
        disabled level and at least the root level. */
    predicate RootEnabledFor(n: int)
      reads this
    {
      n > disabled && n >= rootLevel
    }

    /** Applying the handlers to the root logger: with handlers, the root
        level is set and each handler is attached; without, the root's
        handlers are cleared and logging is disabled up to `CRITICAL`. */
    method ApplyToRoot(handlers: seq<Handler>, level: string)
      requires level in ValidLogLevels
      modifies this
      ensures handlers != [] ==>
                rootLevel == LevelValue(level) && rootHandlers == old(rootHandlers) + handlers
                && disabled == old(disabled)
      ensures handlers == [] ==>
                rootHandlers == [] && disabled == Critical && rootLevel == old(rootLevel)
      ensures handlers == [] ==> forall n :: n <= Critical ==> !RootEnabledFor(n)
      ensures levels == old(levels)
    {
      if handlers != [] {
        rootLevel := LevelValue(level);
        var i := 0;
        while i < |handlers|
          invariant 0 <= i <= |handlers|
          invariant rootHandlers == old(rootHandlers) + handlers[..i]
          invariant rootLevel == LevelValue(level) && disabled == old(disabled) && levels == old(levels)
        {
          rootHandlers := rootHandlers + [handlers[i]];
          i := i + 1;
        }
        assert handlers[..i] == handlers;
      } else {
        rootHandlers := [];
        disabled := Critical;
      }
    }

    /** Lines 26 to 78 of `hass.py`: read `LOG_OUTPUT` and `LOG_LEVEL`, build
        the handlers and apply them to the root logger. */
    method ConfigureRoot(env: map<string, string>)
      modifies this
      ensures var handlers := SelectedHandlers(LogOutputs(env));
              && (handlers != [] ==>
                    rootLevel == LevelValue(LogLevel(env)) && rootHandlers == old(rootHandlers) + handlers
                    && disabled == old(disabled))
              && (handlers == [] ==>
                    rootHandlers == [] && disabled == Critical && rootLevel == old(rootLevel))
      ensures levels == old(levels)
    {
      var outputs := ParseLogOutput(Get(env, "LOG_OUTPUT", DefaultLogOutput));
      var handlers := BuildHandlers(outputs);
      ApplyToRoot(handlers, LogLevel(env));
    }

    /** Lines 80 to 87 of `hass.py`: the "hass" logger gets `LOG_LEVEL`, the
        "asyncio" and "discord" loggers get `LIB_LOG_LEVEL`. */
    method ConfigureNamedLoggers(env: map<string, string>)
      modifies this
      ensures levels == old(levels)["hass" := LevelValue(LogLevel(env))]
                                   ["asyncio" := LevelValue(LibLogLevel(env))]
                                   ["discord" := LevelValue(LibLogLevel(env))]
      ensures rootLevel == old(rootLevel) && rootHandlers == old(rootHandlers) && disabled == old(disabled)
    {
      var level := LevelValue(LogLevel(env));
      var libLevel := LevelValue(LibLogLevel(env));
      levels := levels["hass" := level];
      levels := levels["asyncio" := libLevel];
      levels := levels["discord" := libLevel];
    }
  }

  /** With `LOG_OUTPUT` unset, the root logger gets only the console
      handler. */
  lemma DefaultConfigurationLogsToConsole(env: map<string, string>)
    requires "LOG_OUTPUT" !in env
    ensures SelectedHandlers(LogOutputs(env)) == [ConsoleHandler]
  {
    ConsoleOnlySelected(LogOutputs(env));
  }

  /** Only the console output selects only the console handler. */
  lemma ConsoleOnlySelected(outputs: set<string>)
    requires outputs == {"console"}
    ensures SelectedHandlers(outputs) == [ConsoleHandler]
  {
  }

  /** A blank `LOG_OUTPUT` attaches no handler, so logging is switched off. */
  lemma BlankLogOutputDisables(env: map<string, string>)
    requires "LOG_OUTPUT" in env && AllSpace(env["LOG_OUTPUT"])
    ensures SelectedHandlers(LogOutputs(env)) == []
  {
  }
}
