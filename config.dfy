/** Environment configuration: GRR_LEVEL and GRR_PRETTY parsing (src/lib/config.ts). */
module Config {
  import opened Wrappers
  import opened Types

  /** The process environment as seen at initialisation: the two variables and whether stdout is a terminal. */
  datatype Env = Env(grrLevel: Option<string>, grrPretty: Option<string>, stdoutIsTTY: bool)

  /** The `SimpleConfig` that `configFromEnv` returns. */
  datatype EnvConfig = EnvConfig(level: Level, pretty: bool)

  /** One character of `toLowerCase`: an ASCII capital becomes its small letter, 32 code points on. */
  function LowerChar(c: char): (d: char)
    ensures 'A' <= c <= 'Z' ==> 'a' <= d <= 'z' && d as int == c as int + 32
    ensures !('A' <= c <= 'Z') ==> d == c
  {
    if 'A' <= c <= 'Z' then (c as int + 32) as char else c
  }

  /** `toLowerCase`, on the ASCII letters. */
  function Lower(s: string): (r: string)
    ensures |r| == |s|
    ensures forall i :: 0 <= i < |s| && 'A' <= s[i] <= 'Z' ==> r[i] as int == s[i] as int + 32
    ensures forall i :: 0 <= i < |s| && !('A' <= s[i] <= 'Z') ==> r[i] == s[i]
    ensures forall i :: 0 <= i < |r| ==> !('A' <= r[i] <= 'Z')
  {
    seq(|s|, i requires 0 <= i < |s| => LowerChar(s[i]))
  }

  lemma LowerIdempotent(s: string)
    ensures Lower(Lower(s)) == Lower(s)
  {
  }

  function InvalidLevelMessage(value: string): string {
    "Invalid GRR_LEVEL \"" + value + "\". Must be one of: " + JoinNames(Levels)
  }

  function InvalidPrettyMessage(value: string): string {
    "Invalid GRR_PRETTY \"" + value + "\". Must be one of: 1, 0, true, false"
  }

  /** `parseLevel`: unset or empty means info; otherwise a level name in any letter case, or an error. */
  function ParseLevel(value: Option<string>): (r: Result<Level, string>)
    ensures value.None? || value == Some("") ==> r == Success(Info)
    ensures value.Some? && value.value != "" ==>
              (r.Success? <==> exists l :: LevelName(l) == Lower(value.value))
    ensures value.Some? && value.value != "" ==>
              forall l :: LevelName(l) == Lower(value.value) ==> r == Success(l)
    ensures r.Failure? ==> value.Some? && r.error == InvalidLevelMessage(value.value)
  {
    if value.None? || value.value == "" then Success(Info)
    else
      match LevelNamed(Lower(value.value))
      case Some(l) => assert LevelName(l) == Lower(value.value); Success(l)
      case None => Failure(InvalidLevelMessage(value.value))
  }

  /** `parsePretty`: unset means "stdout is a terminal"; otherwise 1/true or 0/false in any letter case, or an error. */
  function ParsePretty(value: Option<string>, stdoutIsTTY: bool): (r: Result<bool, string>)
    ensures value.None? ==> r == Success(stdoutIsTTY)
    ensures value.Some? ==> (r == Success(true) <==> Lower(value.value) in {"1", "true"})
    ensures value.Some? ==> (r == Success(false) <==> Lower(value.value) in {"0", "false"})
    ensures value.Some? ==> (r.Failure? <==> Lower(value.value) !in {"1", "true", "0", "false"})
    ensures value == Some("") ==> r.Failure?
    ensures r.Failure? ==> value.Some? && r.error == InvalidPrettyMessage(value.value)
  {
    if value.None? then Success(stdoutIsTTY)
    else
      var lower := Lower(value.value);
      if lower == "1" || lower == "true" then Success(true)
      else if lower == "0" || lower == "false" then Success(false)
      else Failure(InvalidPrettyMessage(value.value))
  }

  /** `configFromEnv`: the level is parsed first, so its error wins. */
  function ConfigFromEnv(env: Env): (r: Result<EnvConfig, string>)
    ensures r.Success? <==> ParseLevel(env.grrLevel).Success? && ParsePretty(env.grrPretty, env.stdoutIsTTY).Success?
    ensures r.Success? ==> r.value == EnvConfig(ParseLevel(env.grrLevel).value, ParsePretty(env.grrPretty, env.stdoutIsTTY).value)
    ensures ParseLevel(env.grrLevel).Failure? ==> r == Failure(ParseLevel(env.grrLevel).error)
    ensures ParseLevel(env.grrLevel).Success? && ParsePretty(env.grrPretty, env.stdoutIsTTY).Failure? ==>
              r == Failure(ParsePretty(env.grrPretty, env.stdoutIsTTY).error)
  {
    match ParseLevel(env.grrLevel)
    case Failure(e) => Failure(e)
    case Success(level) =>
      match ParsePretty(env.grrPretty, env.stdoutIsTTY)
      case Failure(e) => Failure(e)
      case Success(pretty) => Success(EnvConfig(level, pretty))
  }

  /** Letter case does not matter: values equal up to ASCII case parse alike. */
  lemma ParseLevelCaseInsensitive(s: string, t: string)
    requires Lower(s) == Lower(t)
    ensures ParseLevel(Some(s)).Success? <==> ParseLevel(Some(t)).Success?
    ensures ParseLevel(Some(s)).Success? ==> ParseLevel(Some(s)) == ParseLevel(Some(t))
  {
    if s == "" || t == "" {
      assert |s| == |Lower(s)| == |Lower(t)| == |t|;
    }
  }

  /** The letter-case examples the configuration is documented with. */
  lemma ParseExamples(tty: bool)
    ensures ParseLevel(Some("DEBUG")) == Success(Debug)
    ensures ParseLevel(Some("Info")) == Success(Info)
    ensures ParsePretty(Some("TRUE"), tty) == Success(true)
    ensures ParsePretty(Some("False"), tty) == Success(false)
  {
    assert Lower("DEBUG") == "debug";
    assert Lower("Info") == "info";
    assert Lower("TRUE") == "true";
    assert Lower("False") == "false";
  }
}
