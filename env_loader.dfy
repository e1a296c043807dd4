/**
 * The `.env` loader (env_loader.py): variables already in the environment are never
 * overwritten; python-dotenv is used once when it is installed, and the fallback parser
 * reads `KEY=value` lines otherwise. `get_kite_config` then reads the Kite settings.
 */
module EnvLoader {
  import opened Wrappers
  import opened Text

  /**
   * One line of the fallback parser: blank lines, comments and lines without `=` give
   * nothing; otherwise the line is split at its first `=`, both halves are stripped, and
   * the value loses surrounding double and then single quotes.
   */
  function ParseEnvLine(raw: string): Option<(string, string)> {
    var line := Strip(raw);
    if line == [] || line[0] == '#' then None
    else
      match FindChar(line, '=')
      case None => None
      case Some(i) => Some((Strip(line[..i]), StripChar(StripChar(Strip(line[i + 1..]), '"'), '\'')))
  }

  /** The lines the fallback parser skips, and the shape of what it keeps. */
  lemma ParseEnvLineSpec(raw: string)
    ensures ParseEnvLine(raw).None? <==> Strip(raw) == [] || Strip(raw)[0] == '#' || '=' !in Strip(raw)
    ensures ParseEnvLine(raw).Some? ==> '=' !in ParseEnvLine(raw).value.0
    ensures ParseEnvLine(raw).Some? ==> var v := ParseEnvLine(raw).value.1;
      v == [] || (v[0] != '\'' && v[|v| - 1] != '\'')
  {
    var line := Strip(raw);
    if line != [] && line[0] != '#' && '=' in line {
      var i := FindChar(line, '=').value;
      var key := Strip(line[..i]);
      assert '=' !in line[..i];
      assert key == LStrip(line[..i])[..|key|];
      assert forall c :: c in key ==> c in line[..i];
    }
  }

  /** A string that does not start or end with `c` is its own `strip(c)`. */
  lemma StripCharIdentity(s: string, c: char)
    requires s == [] || (s[0] != c && s[|s| - 1] != c)
    ensures StripChar(s, c) == s
  {
  }

  /** Whether a text can be written bare on either side of `KEY=value`. */
  predicate Bare(s: string) {
    s == [] || (!IsSpace(s[0]) && !IsSpace(s[|s| - 1]) && s[0] != '"' && s[|s| - 1] != '"'
                && s[0] != '\'' && s[|s| - 1] != '\'')
  }

  /** The first `c` of `a + [c] + b` is right after `a` when `a` has none. */
  lemma {:induction false} FindCharAfter(a: string, b: string, c: char)
    requires c !in a
    ensures FindChar(a + [c] + b, c) == Some(|a|)
  {
    if a != [] {
      assert (a + [c] + b)[1..] == a[1..] + [c] + b;
      FindCharAfter(a[1..], b, c);
    }
  }

  /** A line written as `KEY=value` reads back as that key and value. */
  lemma ParseWrittenLine(key: string, value: string)
    requires key != [] && Bare(key) && key[0] != '#' && '=' !in key
    requires Bare(value)
    ensures ParseEnvLine(key + "=" + value) == Some((key, value))
  {
    var line := key + "=" + value;
    assert line[0] == key[0];
    assert line[|line| - 1] == (if value == [] then '=' else value[|value| - 1]);
    StripIdentity(line);
    FindCharAfter(key, value, '=');
    assert line[..|key|] == key;
    assert line[|key| + 1..] == value;
    StripIdentity(key);
    StripIdentity(value);
    StripCharIdentity(value, '"');
    StripCharIdentity(value, '\'');
  }

  /** The parsed form of every line, in order. */
  function ParsedLines(lines: seq<string>): (ps: seq<Option<(string, string)>>)
    ensures |ps| == |lines| && forall i :: 0 <= i < |lines| ==> ps[i] == ParseEnvLine(lines[i])
  {
    if lines == [] then [] else ParsedLines(lines[..|lines| - 1]) + [ParseEnvLine(lines[|lines| - 1])]
  }

  /** One parsed line applied to the environment: a non-empty key not yet set is set. */
  function Assign(env: map<string, string>, parsed: Option<(string, string)>): map<string, string> {
    if parsed.Some? && parsed.value.0 != [] && parsed.value.0 !in env then env[parsed.value.0 := parsed.value.1]
    else env
  }

  /** The environment after the parsed lines have been applied in order. */
  function Assigned(env: map<string, string>, ps: seq<Option<(string, string)>>): map<string, string> {
    if ps == [] then env else Assign(Assigned(env, ps[..|ps| - 1]), ps[|ps| - 1])
  }

  /** One turn of the loader's line loop, spelled as the loop body does it. */
  lemma LoopStep(initial: map<string, string>, ps: seq<Option<(string, string)>>, i: int, env: map<string, string>)
    requires 0 <= i < |ps| && env == Assigned(initial, ps[..i])
    ensures Assigned(initial, ps[..i + 1]) ==
      (if ps[i].Some? && ps[i].value.0 != [] && ps[i].value.0 !in env then env[ps[i].value.0 := ps[i].value.1] else env)
  {
    assert ps[..i + 1][..i] == ps[..i];
  }

  /** The environment after the fallback parser has read `lines`. */
  function Loaded(env: map<string, string>, lines: seq<string>): map<string, string> {
    Assigned(env, ParsedLines(lines))
  }

  /** Whether a parsed line sets `key` when the key is not yet present. */
  predicate Sets(parsed: Option<(string, string)>, key: string) {
    key != [] && parsed.Some? && parsed.value.0 == key
  }

  /** A variable already present is never overwritten. */
  lemma {:induction false} AssignedKeepsExisting(env: map<string, string>, ps: seq<Option<(string, string)>>, k: string)
    requires k in env
    ensures k in Assigned(env, ps) && Assigned(env, ps)[k] == env[k]
  {
    if ps != [] {
      AssignedKeepsExisting(env, ps[..|ps| - 1], k);
    }
  }

  /** A key is present afterwards iff it was present before or some line sets it. */
  lemma {:induction false} AssignedKeys(env: map<string, string>, ps: seq<Option<(string, string)>>, k: string)
    ensures k in Assigned(env, ps) <==> k in env || exists i :: 0 <= i < |ps| && Sets(ps[i], k)
  {
    if ps != [] {
      var n := |ps| - 1;
      AssignedKeys(env, ps[..n], k);
      assert forall i :: 0 <= i < n ==> ps[..n][i] == ps[i];
    }
  }

  /** A key set by no earlier line takes the value of the first line that sets it. */
  lemma {:induction false} AssignedFirstWins(env: map<string, string>, ps: seq<Option<(string, string)>>, i: int, k: string)
    requires 0 <= i < |ps| && Sets(ps[i], k) && k !in env
    requires forall j :: 0 <= j < i ==> !Sets(ps[j], k)
    ensures k in Assigned(env, ps) && Assigned(env, ps)[k] == ps[i].value.1
  {
    var n := |ps| - 1;
    assert forall j :: 0 <= j < n ==> ps[..n][j] == ps[j];
    if i < n {
      AssignedFirstWins(env, ps[..n], i, k);
      AssignedKeepsExisting(Assigned(env, ps[..n]), [ps[n]], k);
    } else {
      AssignedKeys(env, ps[..n], k);
      assert k !in Assigned(env, ps[..n]);
    }
  }

  /** The fallback parser never overwrites a variable already present. */
  lemma LoadedKeepsExisting(env: map<string, string>, lines: seq<string>, k: string)
    requires k in env
    ensures k in Loaded(env, lines) && Loaded(env, lines)[k] == env[k]
  {
    AssignedKeepsExisting(env, ParsedLines(lines), k);
  }

  /** A new key takes the value of the first line that defines it. */
  lemma LoadedFirstWins(env: map<string, string>, lines: seq<string>, i: int, k: string)
    requires 0 <= i < |lines| && Sets(ParseEnvLine(lines[i]), k) && k !in env
    requires forall j :: 0 <= j < i ==> !Sets(ParseEnvLine(lines[j]), k)
    ensures k in Loaded(env, lines) && Loaded(env, lines)[k] == ParseEnvLine(lines[i]).value.1
  {
    AssignedFirstWins(env, ParsedLines(lines), i, k);
  }

  /** A key is present afterwards iff it was present before or some line defines it. */
  lemma LoadedKeys(env: map<string, string>, lines: seq<string>, k: string)
    ensures k in Loaded(env, lines) <==> k in env || exists i :: 0 <= i < |lines| && Sets(ParseEnvLine(lines[i]), k)
  {
    AssignedKeys(env, ParsedLines(lines), k);
  }

  /** Loaded variables added without overriding existing ones (`override=False`). */
  function UnderExisting(existing: map<string, string>, loaded: map<string, string>): (r: map<string, string>)
    ensures r.Keys == existing.Keys + loaded.Keys
    ensures forall k :: k in existing ==> r[k] == existing[k]
    ensures forall k :: k in loaded && k !in existing ==> r[k] == loaded[k]
  {
    map k | k in existing.Keys + loaded.Keys :: if k in existing then existing[k] else loaded[k]
  }

  /** The process environment and the `_DOTENV_USED` flag. */
  class Environment {
    var vars: map<string, string>
    var dotenvUsed: bool

    constructor(initial: map<string, string>)
      ensures vars == initial && !dotenvUsed
    {
      vars := initial;
      dotenvUsed := false;
    }

    /**
     * `load_env`. `file` is the file's lines, or none when it is missing or unreadable;
     * `dotenv` is what python-dotenv reads from it, or none when the library is not
     * installed. The library is used only on the first call; later calls parse by hand.
     */
    method LoadEnv(file: Option<seq<string>>, dotenv: Option<map<string, string>>)
      modifies this
      ensures !old(dotenvUsed) && dotenv.Some? ==>
        dotenvUsed && vars == UnderExisting(old(vars), dotenv.value)
      ensures old(dotenvUsed) || dotenv.None? ==>
        dotenvUsed == old(dotenvUsed) && vars == (if file.None? then old(vars) else Loaded(old(vars), file.value))
    {
      if !dotenvUsed && dotenv.Some? {
        vars := UnderExisting(vars, dotenv.value);
        dotenvUsed := true;
        return;
      }
      if file.None? {
        return;
      }
      var lines := file.value;
      ghost var ps := ParsedLines(lines);
      var initial := vars;
      var env := initial;
      var i := 0;
      while i < |lines|
        invariant 0 <= i <= |lines|
        invariant env == Assigned(initial, ps[..i])
        invariant dotenvUsed == old(dotenvUsed)
      {
        LoopStep(initial, ps, i, env);
        var parsed := ParseEnvLine(lines[i]);
        assert parsed == ps[i];
        if parsed.Some? {
          var key := parsed.value.0;
          if key != [] && key !in env {
            env := env[key := parsed.value.1];
          }
        }
        i := i + 1;
      }
      assert ps[..|lines|] == ps;
      vars := env;
    }

    /** `get_kite_config`: the environment is loaded first, then read. */
    method GetKiteConfig(file: Option<seq<string>>, dotenv: Option<map<string, string>>)
      returns (r: Result<KiteConfig, string>)
      modifies this
      ensures r == KiteConfigOf(vars)
      ensures !old(dotenvUsed) && dotenv.Some? ==>
        dotenvUsed && vars == UnderExisting(old(vars), dotenv.value)
      ensures old(dotenvUsed) || dotenv.None? ==>
        dotenvUsed == old(dotenvUsed) && vars == (if file.None? then old(vars) else Loaded(old(vars), file.value))
    {
      LoadEnv(file, dotenv);
      r := KiteConfigOf(vars);
    }
  }

  // ---------------------------------------------------------------- get_kite_config

  datatype KiteConfig = KiteConfig(
    apiKey: Option<string>, apiSecret: Option<string>, redirectUrl: Option<string>,
    postbackUrl: Option<string>, debug: bool)

  function Get(vars: map<string, string>, name: string): Option<string> {
    if name in vars then Some(vars[name]) else None
  }

  /** Python's `not v` for an optional text. */
  predicate Blank(v: Option<string>) { v.None? || v.value == [] }

  const RequiredFields: seq<string> := ["api_key", "api_secret", "redirect_url"]
  const RequiredVars: seq<string> := ["KITE_API_KEY", "KITE_API_SECRET", "KITE_REDIRECT_URL"]

  /** The required settings that are missing or empty, by their config names, in order. */
  function MissingRequired(vars: map<string, string>): (m: seq<string>)
    ensures forall i :: 0 <= i < 3 ==> (RequiredFields[i] in m <==> Blank(Get(vars, RequiredVars[i])))
    ensures forall x :: x in m ==> x in RequiredFields
    ensures forall i, j :: 0 <= i < j < |m| ==> Rank(m[i]) < Rank(m[j])
  {
    (if Blank(Get(vars, "KITE_API_KEY")) then ["api_key"] else [])
    + (if Blank(Get(vars, "KITE_API_SECRET")) then ["api_secret"] else [])
    + (if Blank(Get(vars, "KITE_REDIRECT_URL")) then ["redirect_url"] else [])
  }

  /** The position of a required setting in the order the error message lists them. */
  function Rank(field: string): int {
    if field == "api_key" then 0 else if field == "api_secret" then 1 else 2
  }

  function KiteConfigOf(vars: map<string, string>): Result<KiteConfig, string> {
    var missing := MissingRequired(vars);
    if missing != [] then Failure("Missing required environment variables: " + Join(", ", missing))
    else
      var debug := Lower(if "KITE_DEBUG" in vars then vars["KITE_DEBUG"] else "false") == "true";
      Success(KiteConfig(Get(vars, "KITE_API_KEY"), Get(vars, "KITE_API_SECRET"),
                         Get(vars, "KITE_REDIRECT_URL"), Get(vars, "KITE_POSTBACK_URL"), debug))
  }

  /**
   * The configuration fails iff a required setting is missing or empty, with the message
   * naming the missing settings in order; otherwise it carries the three settings and the
   * postback URL when set, and `debug` holds iff `KITE_DEBUG` lower-cases to "true".
   */
  lemma KiteConfigSpec(vars: map<string, string>)
    ensures KiteConfigOf(vars).Failure? <==> exists i :: 0 <= i < 3 && Blank(Get(vars, RequiredVars[i]))
    ensures KiteConfigOf(vars).Failure? ==>
      KiteConfigOf(vars).error == "Missing required environment variables: " + Join(", ", MissingRequired(vars))
    ensures KiteConfigOf(vars).Success? ==>
      var c := KiteConfigOf(vars).value;
      && c.apiKey == Some(vars["KITE_API_KEY"]) && c.apiKey.value != []
      && c.apiSecret == Some(vars["KITE_API_SECRET"]) && c.apiSecret.value != []
      && c.redirectUrl == Some(vars["KITE_REDIRECT_URL"]) && c.redirectUrl.value != []
      && c.postbackUrl == Get(vars, "KITE_POSTBACK_URL")
      && (c.debug <==> ("KITE_DEBUG" in vars && Lower(vars["KITE_DEBUG"]) == "true"))
  {
    var m := MissingRequired(vars);
    if exists i :: 0 <= i < 3 && Blank(Get(vars, RequiredVars[i])) {
      var i :| 0 <= i < 3 && Blank(Get(vars, RequiredVars[i]));
      assert RequiredFields[i] in m;
    } else {
      assert !Blank(Get(vars, RequiredVars[0])) && !Blank(Get(vars, RequiredVars[1]))
        && !Blank(Get(vars, RequiredVars[2]));
      assert Lower("false") != "true";
    }
  }
}
