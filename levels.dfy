/** Severity levels of log entries (level.go). */
module Levels {

  /** A level is a plain integer, as Go's `type Level int`: values outside the
      five declared constants can occur (by conversion or decoding). */
  type Level = int

  const Debug: Level := 0
  const Info: Level := 1
  const Warning: Level := 2
  const Error: Level := 3
  const Fatal: Level := 4

  /** The declared levels, from least to most severe. */
  const Declared: seq<Level> := [Debug, Info, Warning, Error, Fatal]

  /** Display names of the declared levels, indexed by level. */
  const Names: seq<string> := ["Debug", "Info", "Warning", "Error", "Fatal"]

  predicate IsDeclared(lvl: Level) {
    Debug <= lvl <= Fatal
  }

  /** The declared levels are exactly the integers 0 to 4, each strictly more
      severe than the one before. */
  lemma DeclaredStrictlyOrdered()
    ensures |Declared| == 5
    ensures forall i, j :: 0 <= i < j < |Declared| ==> Declared[i] < Declared[j]
    ensures forall i :: 0 <= i < |Declared| ==> Declared[i] == i && IsDeclared(Declared[i])
  {
  }

  /** `Level.String`: the display name, "Unknown" for any undeclared value. */
  function Name(lvl: Level): (r: string)
    ensures IsDeclared(lvl) ==> r == Names[lvl]
    ensures r == "Unknown" <==> !IsDeclared(lvl)
  {
    if lvl == Debug then "Debug"
    else if lvl == Info then "Info"
    else if lvl == Warning then "Warning"
    else if lvl == Error then "Error"
    else if lvl == Fatal then "Fatal"
    else "Unknown"
  }

  /** Distinct declared levels have distinct names. */
  lemma NameInjective(a: Level, b: Level)
    requires IsDeclared(a) && IsDeclared(b)
    requires Name(a) == Name(b)
    ensures a == b
  {
  }
}
