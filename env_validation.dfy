/** lib/env-validation.ts: checking the process environment for the Gemini API keys.
    The environment is a map from variable names to values; a variable counts as set when
    it is present and not empty, which is how JavaScript reads `process.env.X` in a test. */
module EnvValidation {

  type Env = map<string, string>

  const PRIMARY_KEY := "GEMINI_API_KEY"
  /** Only these three numbered variables are counted, however many more are set. */
  const BACKUP_KEYS := ["GEMINI_API_KEY_1", "GEMINI_API_KEY_2", "GEMINI_API_KEY_3"]

  const AT_LEAST_ONE_KEY := "At least one GEMINI_API_KEY is required"
  const BACKUP_WARNING :=
    "Consider adding backup API keys (GEMINI_API_KEY_1, etc.) for better rate limiting and reliability"
  const PRODUCTION_WARNING := "Production deployments should have multiple API keys for reliability"

  /** `process.env[name]` is truthy. */
  predicate IsSet(env: Env, name: string) {
    name in env && env[name] != ""
  }

  /** `NODE_ENV === "production" || VERCEL`, the production test used throughout. */
  predicate IsProduction(env: Env) {
    ("NODE_ENV" in env && env["NODE_ENV"] == "production") || IsSet(env, "VERCEL")
  }

  datatype EnvValidationResult = EnvValidationResult(
    isValid: bool,
    missingVars: seq<string>,
    warnings: seq<string>,
    keyCount: nat)

  /** `names.filter(name => process.env[name]).length`. */
  function CountSet(env: Env, names: seq<string>): (n: nat)
    ensures n <= |names|
    decreases |names|
  {
    if names == [] then 0
    else (if IsSet(env, names[0]) then 1 else 0) + CountSet(env, names[1..])
  }

  /** Some of the four counted variables (the primary key and the three backups) is set. */
  predicate AnyKeySet(env: Env) {
    IsSet(env, PRIMARY_KEY) || exists i :: 0 <= i < |BACKUP_KEYS| && IsSet(env, BACKUP_KEYS[i])
  }

  /** All four counted variables are set. */
  predicate AllKeysSet(env: Env) {
    IsSet(env, PRIMARY_KEY) && forall i :: 0 <= i < |BACKUP_KEYS| ==> IsSet(env, BACKUP_KEYS[i])
  }

  lemma {:induction false} CountSetBounds(env: Env, names: seq<string>)
    ensures CountSet(env, names) == 0 <==> forall i :: 0 <= i < |names| ==> !IsSet(env, names[i])
    ensures CountSet(env, names) == |names| <==> forall i :: 0 <= i < |names| ==> IsSet(env, names[i])
    decreases |names|
  {
    if names != [] {
      CountSetBounds(env, names[1..]);
      assert forall i :: 1 <= i < |names| ==> names[i] == names[1..][i - 1];
    }
  }

  /** `validateEnvironment()` as a function of the environment. */
  function ValidateEnvironment(env: Env): (r: EnvValidationResult)
    // Valid exactly when nothing is missing, which is exactly when the primary key is set;
    // warnings never enter into it.
    ensures r.isValid <==> r.missingVars == []
    ensures r.isValid <==> IsSet(env, PRIMARY_KEY)
    ensures (PRIMARY_KEY in r.missingVars) <==> !IsSet(env, PRIMARY_KEY)
    // The key count runs from none of the four counted variables to all of them.
    ensures r.keyCount <= 4
    ensures r.keyCount == 0 <==> !AnyKeySet(env)
    ensures r.keyCount == 4 <==> AllKeysSet(env)
    // No key at all is reported twice: the primary key and the "at least one" message.
    ensures r.keyCount == 0 <==> |r.missingVars| == 2
    ensures r.keyCount == 0 ==> r.missingVars == [PRIMARY_KEY, AT_LEAST_ONE_KEY]
    // The two warnings and when they are given.
    ensures (BACKUP_WARNING in r.warnings) <==> r.keyCount == 1
    ensures (PRODUCTION_WARNING in r.warnings) <==> IsProduction(env) && r.keyCount < 2
    ensures |r.warnings| <= 2
  {
    var primary := IsSet(env, PRIMARY_KEY);
    var total := (if primary then 1 else 0) + CountSet(env, BACKUP_KEYS);
    var missing := (if primary then [] else [PRIMARY_KEY]) + (if total == 0 then [AT_LEAST_ONE_KEY] else []);
    var warnings := (if total == 1 then [BACKUP_WARNING] else [])
                    + (if IsProduction(env) && total < 2 then [PRODUCTION_WARNING] else []);
    CountSetBounds(env, BACKUP_KEYS);
    EnvValidationResult(missing == [], missing, warnings, total)
  }

  /** Numbered variables beyond the third do not change the outcome. */
  lemma LaterBackupsIgnored(env: Env, name: string, value: string)
    requires name != PRIMARY_KEY && name !in BACKUP_KEYS && name != "NODE_ENV" && name != "VERCEL"
    ensures ValidateEnvironment(env[name := value]) == ValidateEnvironment(env)
  {
    CountSetUnchanged(env, name, value, BACKUP_KEYS);
  }

  lemma {:induction false} CountSetUnchanged(env: Env, name: string, value: string, names: seq<string>)
    requires name !in names
    ensures CountSet(env[name := value], names) == CountSet(env, names)
    decreases |names|
  {
    if names != [] {
      CountSetUnchanged(env, name, value, names[1..]);
    }
  }
}
