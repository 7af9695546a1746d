/** The test logger of `createLogger` (BasicTest.java:218-243): a
    threshold filter in front of the console. */
module Logging {
  import opened Wrappers
  import opened JavaLang

  /** A constant of `LogLevelEnum`, through what the logger uses of it: its
      `name()` and its place in the order that `isLessOrEqual` compares.
      Enum names are unique, so a level equals `ERROR` exactly when its
      name is "ERROR". */
  datatype Level = Level(name: string, rank: int)

  const ErrorName := "ERROR"

  /** `isLessOrEqual`. */
  predicate IsLessOrEqual(a: Level, b: Level)
  {
    a.rank <= b.rank
  }

  /** The logger: only the configured threshold, captured when it is made. */
  datatype Logger = Logger(configured: Level) {

    /** `isLog`: the level is at or below the threshold. */
    predicate IsLog(level: Level)
      ensures IsLog(level) <==> IsLessOrEqual(level, configured)
      ensures level == configured ==> IsLog(level)
    {
      IsLessOrEqual(level, configured)
    }

    /** `log`: the line printed, if any. */
    function Log(level: Level, message: Option<string>): (r: Option<Println>)
      ensures r.Some? <==> IsLog(level)
      ensures r.Some? ==> r.value.text == "log " + level.name + ": " + Show(message)
      ensures r.Some? ==> (r.value.stream == Stderr <==> level.name == ErrorName)
    {
      if IsLog(level) then
        Some(Println(if level.name == ErrorName then Stderr else Stdout, "log " + level.name + ": " + Show(message)))
      else
        None
    }
  }

  /** Raising the threshold never suppresses a line a lower threshold
      prints, and never changes that line. */
  lemma LogMonotone(low: Level, high: Level, level: Level, message: Option<string>)
    requires IsLessOrEqual(low, high)
    ensures Logger(low).Log(level, message).Some? ==> Logger(high).Log(level, message) == Logger(low).Log(level, message)
  {
  }

  /** The message can be read back from a printed line: it follows the
      prefix "log <level>: ". */
  lemma LogMessageRecoverable(logger: Logger, level: Level, message: string)
    ensures var r := logger.Log(level, Some(message));
      r.Some? ==> (|r.value.text| == 6 + |level.name| + |message| && r.value.text[6 + |level.name|..] == message)
  {
  }
}
