/**
 * Level resolution of app/core/log.py: `get_log_level` maps the LOG_LEVEL
 * environment variable to a standard-library severity, and `JSON_LOGS`
 * reads the JSON_LOGS switch. The environment is a map from names to values.
 */
module LogLevel {

  // Numeric severities of the standard `logging` module.
  const DEBUG: int := 10
  const INFO: int := 20
  const WARNING: int := 30
  const ERROR: int := 40

  const LevelKey: string := "LOG_LEVEL"
  const JsonKey: string := "JSON_LOGS"

  /** ASCII lower-casing of one character, as `str.lower` does for ASCII. */
  function LowerChar(c: char): char
  {
    if 'A' <= c <= 'Z' then (c as int + 32) as char else c
  }

  /** `s.lower()`, restricted to ASCII case mapping. */
  function Lower(s: string): (r: string)
    ensures |r| == |s|
    ensures forall i :: 0 <= i < |s| ==> r[i] == LowerChar(s[i])
  {
    seq(|s|, i requires 0 <= i < |s| => LowerChar(s[i]))
  }

  /** `os.environ.get("LOG_LEVEL", "")`. */
  function LevelSetting(env: map<string, string>): (v: string)
    ensures LevelKey in env ==> v == env[LevelKey]
    ensures LevelKey !in env ==> v == ""
  {
    if LevelKey in env then env[LevelKey] else ""
  }

  /**
   * `get_log_level`: total; ERROR, WARNING or DEBUG when the setting is
   * "error", "warning" or "debug" in any letter case, INFO for every other
   * value and for an unset variable.
   */
  function GetLogLevel(env: map<string, string>): (r: int)
    ensures r == DEBUG || r == INFO || r == WARNING || r == ERROR
    ensures r == ERROR <==> Lower(LevelSetting(env)) == "error"
    ensures r == WARNING <==> Lower(LevelSetting(env)) == "warning"
    ensures r == DEBUG <==> Lower(LevelSetting(env)) == "debug"
    ensures r == INFO <==> Lower(LevelSetting(env)) !in {"error", "warning", "debug"}
  {
    var level := Lower(LevelSetting(env));
    if level == "error" then ERROR
    else if level == "warning" then WARNING
    else if level == "debug" then DEBUG
    else INFO
  }

  /** `JSON_LOGS`: on exactly when the variable is the string "1" (default "0"). */
  function JsonLogs(env: map<string, string>): (r: bool)
    ensures r <==> JsonKey in env && env[JsonKey] == "1"
  {
    (if JsonKey in env then env[JsonKey] else "0") == "1"
  }

  /** Lower-casing twice is lower-casing once. */
  lemma LowerIdempotent(s: string)
    ensures Lower(Lower(s)) == Lower(s)
  {
    assert forall i :: 0 <= i < |s| ==> Lower(Lower(s))[i] == Lower(s)[i];
  }

  /** `c` is `w` in either letter case. */
  predicate SameLetter(c: char, w: char)
  {
    c == w || ('a' <= w <= 'z' && c as int == w as int - 32)
  }

  /**
   * Lower-casing matches a lower-case word exactly when the input spells
   * that word with each letter in either case.
   */
  lemma {:induction false} LowerMatchesAnyCase(s: string, word: string)
    requires forall i :: 0 <= i < |word| ==> 'a' <= word[i] <= 'z'
    ensures Lower(s) == word <==>
      |s| == |word| && forall i :: 0 <= i < |s| ==> SameLetter(s[i], word[i])
  {
    if Lower(s) == word {
      forall i | 0 <= i < |s| ensures SameLetter(s[i], word[i]) {
        assert LowerChar(s[i]) == word[i];
      }
    }
    if |s| == |word| && forall i :: 0 <= i < |s| ==> SameLetter(s[i], word[i]) {
      forall i | 0 <= i < |s| ensures Lower(s)[i] == word[i] {
        assert SameLetter(s[i], word[i]);
      }
    }
  }

  /** The level a recognised word selects. */
  function LevelOfWord(word: string): int
  {
    if word == "error" then ERROR else if word == "warning" then WARNING else DEBUG
  }

  /** Any spelling of "Error", "WARNING", "dEbUg", ... selects that level. */
  lemma NamedLevelInAnyCase(env: map<string, string>, word: string)
    requires word == "error" || word == "warning" || word == "debug"
    requires LevelKey in env && |env[LevelKey]| == |word|
    requires forall i :: 0 <= i < |word| ==> SameLetter(env[LevelKey][i], word[i])
    ensures GetLogLevel(env) == LevelOfWord(word)
  {
    LowerMatchesAnyCase(env[LevelKey], word);
  }

  /** Two settings that differ only in letter case give the same level. */
  lemma CaseInsensitive(env1: map<string, string>, env2: map<string, string>)
    requires Lower(LevelSetting(env1)) == Lower(LevelSetting(env2))
    ensures GetLogLevel(env1) == GetLogLevel(env2)
  {
  }

  /** An unset variable, the empty string and "info" all give INFO. */
  lemma DefaultsToInfo(env: map<string, string>)
    requires LevelKey !in env || env[LevelKey] == "" || env[LevelKey] == "info"
    ensures GetLogLevel(env) == INFO
  {
  }
}
