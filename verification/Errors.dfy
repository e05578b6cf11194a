/** Error values, categories, severity levels and their names. */
module Errors {

  /** Enumerations are kept at their underlying width: a value outside the named
      ones is possible and has a name of its own. */
  type Category = n: nat | n < 0x1_0000
  type Level = n: nat | n < 0x100
  type Code = n: nat | n < 0x1_0000_0000

  const NETWORK: Category := 0
  const DATABASE: Category := 1
  const FILESYSTEM: Category := 2
  const NONE: Category := 0xffff

  datatype Error = Error(category: Category, code: Code, message: string)

  datatype OperationResult = Ok | Failed(error: Error)

  const DUPLICATE_ERROR: Code := 0xE001
  const MISSING_ERROR: Code := 0xE002
  const MISSING_REGISTER: Code := 0xE003
  const REGISTER_CAPACITY: Code := 0xE005
  const REGISTER_CATEGORY: Code := 0xE006
  const MAX_REGISTER_CAPACITY: nat := 1_000_000

  function CategoryName(c: Category): string {
    if c == NETWORK then "NETWORK"
    else if c == DATABASE then "DATABASE"
    else if c == FILESYSTEM then "FILESYSTEM"
    else if c == NONE then "NONE"
    else "UNKNOWN"
  }

  function LevelName(l: Level): string {
    if l == 0 then "TRACE"
    else if l == 1 then "DEBUG"
    else if l == 2 then "INFO"
    else if l == 3 then "WARNING"
    else if l == 4 then "ERROR"
    else if l == 5 then "CRITICAL"
    else "UNKNOWN"
  }

  predicate KnownCategory(c: Category) { c <= FILESYSTEM || c == NONE }
  predicate KnownLevel(l: Level) { l <= 5 }

  /** Among the declared enumerators the names tell the values apart. */
  lemma NamesAreDistinct(c: Category, d: Category, l: Level, m: Level)
    ensures KnownCategory(c) && KnownCategory(d) && CategoryName(c) == CategoryName(d) ==> c == d
    ensures KnownLevel(l) && KnownLevel(m) && LevelName(l) == LevelName(m) ==> l == m
  {
    var cs, ls := ["NETWORK", "DATABASE", "FILESYSTEM"], ["TRACE", "DEBUG", "INFO", "WARNING", "ERROR", "CRITICAL"];
    assert cs[0][0] == 'N' && cs[1][0] == 'D' && cs[2][0] == 'F';
    assert |cs[0]| == 7 && |"NONE"| == 4;
    assert forall s, t | 0 <= s < 6 && 0 <= t < 6 && s != t :: |ls[s]| != |ls[t]| || ls[s][0] != ls[t][0];
  }
}
