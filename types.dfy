/** The six severity levels and their canonical order (src/lib/types.ts). */
module Types {
  import opened Wrappers

  datatype Level = Trace | Debug | Info | Warn | Error | Fatal

  /** The `levels` list, least severe first. */
  const Levels: seq<Level> := [Trace, Debug, Info, Warn, Error, Fatal]

  function LevelName(l: Level): string {
    match l
    case Trace => "trace"
    case Debug => "debug"
    case Info => "info"
    case Warn => "warn"
    case Error => "error"
    case Fatal => "fatal"
  }

  /** The level spelled `name`, if any (`levels.includes(name)`). */
  function LevelNamed(name: string): (r: Option<Level>)
    ensures r.Some? ==> LevelName(r.value) == name
    ensures r.None? ==> forall l :: LevelName(l) != name
  {
    if name == "trace" then Some(Trace)
    else if name == "debug" then Some(Debug)
    else if name == "info" then Some(Info)
    else if name == "warn" then Some(Warn)
    else if name == "error" then Some(Error)
    else if name == "fatal" then Some(Fatal)
    else None
  }

  /** Position of a level in `Levels`: every level occurs there. */
  function Rank(l: Level): (i: nat)
    ensures i < |Levels| && Levels[i] == l
  {
    match l
    case Trace => 0
    case Debug => 1
    case Info => 2
    case Warn => 3
    case Error => 4
    case Fatal => 5
  }

  /** `levels` lists six pairwise distinct entries, and exactly the values of the Level type. */
  lemma LevelsEnumerateLevel()
    ensures |Levels| == 6
    ensures forall i, j :: 0 <= i < j < |Levels| ==> Levels[i] != Levels[j]
    ensures forall l: Level :: l in Levels
    ensures forall i, j :: 0 <= i < j < |Levels| ==> LevelName(Levels[i]) != LevelName(Levels[j])
  {
    forall l: Level ensures l in Levels {
      var i := Rank(l);
    }
  }

  /** `levels.join(', ')`: the level names, comma-separated. */
  function JoinNames(ls: seq<Level>): string {
    if |ls| == 0 then ""
    else if |ls| == 1 then LevelName(ls[0])
    else LevelName(ls[0]) + ", " + JoinNames(ls[1..])
    }

  /** The list the GRR_LEVEL rejection message quotes. */
  lemma LevelListText()
    ensures JoinNames(Levels) == "trace, debug, info, warn, error, fatal"
  {
  }
}
