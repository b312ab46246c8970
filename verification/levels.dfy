/** The log levels: the enum `LogLevel` (also declared, with the same
    constants, inside `Logger` version 2.2). */
module Levels {
  import opened Wrappers

  datatype LogLevel = INFO | DEBUG | ERR
  {
    /** `toString()`, which returns `name()`: the declared constant name,
        the one `valueOf` maps back to this constant. */
    function ToString(): (s: string)
      ensures ValueOf(s) == Some(this)
    {
      match this
      case INFO => "INFO"
      case DEBUG => "DEBUG"
      case ERR => "ERR"
    }
  }

  /** `LogLevel.values()`, in declaration order. */
  const Values: seq<LogLevel> := [INFO, DEBUG, ERR]

  /** `LogLevel.valueOf(s)`: the constant whose name is `s`; Java throws
      IllegalArgumentException where this gives None. */
  function ValueOf(s: string): (r: Option<LogLevel>)
    ensures r.Some? <==> s == "INFO" || s == "DEBUG" || s == "ERR"
    ensures s == "INFO" ==> r == Some(INFO)
    ensures s == "DEBUG" ==> r == Some(DEBUG)
    ensures s == "ERR" ==> r == Some(ERR)
  {
    if s == "INFO" then Some(INFO)
    else if s == "DEBUG" then Some(DEBUG)
    else if s == "ERR" then Some(ERR)
    else None
  }

  /** There are exactly three levels, each listed once. */
  lemma ExactlyThreeLevels(l: LogLevel)
    ensures l in Values && |Values| == 3
    ensures Values[0] != Values[1] && Values[1] != Values[2] && Values[0] != Values[2]
  {
  }

  /** `valueOf` accepts exactly the names `toString` produces. */
  lemma ToStringValueOf(s: string, l: LogLevel)
    ensures ValueOf(s) == Some(l) <==> l.ToString() == s
  {
  }

  /** Distinct levels print as distinct names. */
  lemma ToStringInjective(l1: LogLevel, l2: LogLevel)
    ensures l1.ToString() == l2.ToString() ==> l1 == l2
  {
  }
}
