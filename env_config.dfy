/**
 * Loading and validating the configuration (`loadAndValidateConfig`): the `.env` file is
 * merged into the process environment with dotenv's `override: true`, then the four
 * required variables are checked.
 */
module EnvConfig {
  import opened Wrappers
  import opened Text

  /** The process environment, or the entries dotenv parsed from the `.env` file. */
  type Env = map<string, string>

  datatype AppConfig = AppConfig(
    refreshToken: string,
    unlockPassword: string,
    locationName: string,
    intercomName: string)

  /** The error `loadAndValidateConfig` throws. */
  datatype ConfigError = MissingVariables(names: seq<string>)
  {
    function Message(): string {
      "Missing required environment variables: " + Join(names, ", ")
    }
  }

  const RefreshTokenKey := "RING_REFRESH_TOKEN"
  const UnlockPasswordKey := "UNLOCK_PASSWORD"
  const LocationNameKey := "LOCATION_NAME"
  const IntercomNameKey := "INTERCOM_NAME"

  const RequiredKeys: seq<string> := [RefreshTokenKey, UnlockPasswordKey, LocationNameKey, IntercomNameKey]

  /** `Array.prototype.join` */
  function Join(parts: seq<string>, sep: string): string {
    if |parts| == 0 then ""
    else if |parts| == 1 then parts[0]
    else parts[0] + sep + Join(parts[1..], sep)
  }

  /**
   * dotenv with `override: true`: every entry of the file is set, overwriting the
   * environment; variables the file does not mention (including ones removed from it
   * since the last load) keep their values.
   */
  function ApplyDotenv(env: Env, fileEntries: Env): (r: Env)
    ensures forall k :: k in fileEntries ==> k in r && r[k] == fileEntries[k]
    ensures forall k :: k in env && k !in fileEntries ==> k in r && r[k] == env[k]
    ensures forall k :: k in r ==> k in env || k in fileEntries
  {
    env + fileEntries
  }

  /** `!process.env[key]`: an absent and an empty variable are both missing. */
  predicate IsMissing(env: Env, key: string) {
    key !in env || env[key] == ""
  }

  /** `[key]` if `key` is missing, else nothing. */
  function IfMissing(env: Env, key: string): seq<string> {
    if IsMissing(env, key) then [key] else []
  }

  /** `keys.filter((key) => !env[key])` */
  function MissingFrom(env: Env, keys: seq<string>): (r: seq<string>)
    ensures |r| <= |keys|
  {
    if |keys| == 0 then []
    else IfMissing(env, keys[0]) + MissingFrom(env, keys[1..])
  }

  /** The filter keeps exactly the missing keys. */
  lemma {:induction false} MissingFromExact(env: Env, keys: seq<string>)
    ensures forall k :: k in MissingFrom(env, keys) <==> k in keys && IsMissing(env, k)
  {
    if |keys| > 0 {
      MissingFromExact(env, keys[1..]);
      assert keys == [keys[0]] + keys[1..];
    }
  }

  /** Filtering distributes over concatenation, so the filter keeps the keys' order. */
  lemma {:induction false} MissingFromAppend(env: Env, a: seq<string>, b: seq<string>)
    ensures MissingFrom(env, a + b) == MissingFrom(env, a) + MissingFrom(env, b)
  {
    if |a| > 0 {
      assert (a + b)[0] == a[0];
      assert (a + b)[1..] == a[1..] + b;
      MissingFromAppend(env, a[1..], b);
    } else {
      assert a + b == b;
    }
  }

  function MissingKeys(env: Env): seq<string> {
    MissingFrom(env, RequiredKeys)
  }

  /** Filtering four keys keeps them in their order. */
  lemma MissingFromFour(env: Env, a: string, b: string, c: string, d: string)
    ensures MissingFrom(env, [a, b, c, d])
         == IfMissing(env, a) + IfMissing(env, b) + IfMissing(env, c) + IfMissing(env, d)
  {
    assert [a, b, c, d][1..] == [b, c, d];
    assert [b, c, d][1..] == [c, d];
    assert [c, d][1..] == [d];
    assert [d][1..] == [];
    var md := IfMissing(env, d);
    assert MissingFrom(env, [d]) == md + [];
    assert md + [] == md;
    assert MissingFrom(env, [c, d]) == IfMissing(env, c) + md;
    assert MissingFrom(env, [b, c, d]) == IfMissing(env, b) + (IfMissing(env, c) + md);
  }

  /** The missing keys are listed in the fixed order of the required list. */
  lemma MissingKeysInOrder(env: Env)
    ensures MissingKeys(env)
         == IfMissing(env, RefreshTokenKey) + IfMissing(env, UnlockPasswordKey)
          + IfMissing(env, LocationNameKey) + IfMissing(env, IntercomNameKey)
  {
    MissingFromFour(env, RefreshTokenKey, UnlockPasswordKey, LocationNameKey, IntercomNameKey);
  }

  /**
   * The validation step: either every required variable is present and non-empty and the
   * configuration is taken from the environment, or the error lists exactly the missing
   * ones.
   */
  function LoadConfig(env: Env): (r: Result<AppConfig, ConfigError>)
    ensures r.Ok? <==> forall k :: k in RequiredKeys ==> !IsMissing(env, k)
    ensures r.Err? ==> r.error == MissingVariables(MissingKeys(env)) && MissingKeys(env) != []
    ensures r.Ok? ==> RefreshTokenKey in env && r.value.refreshToken == env[RefreshTokenKey]
    ensures r.Ok? ==> UnlockPasswordKey in env && r.value.unlockPassword == env[UnlockPasswordKey]
    ensures r.Ok? ==> LocationNameKey in env && r.value.locationName == env[LocationNameKey]
    ensures r.Ok? ==> IntercomNameKey in env && r.value.intercomName == env[IntercomNameKey]
    ensures r.Ok? ==> (r.value.refreshToken != "" && r.value.unlockPassword != ""
                    && r.value.locationName != "" && r.value.intercomName != "")
  {
    var missing := MissingKeys(env);
    MissingFromExact(env, RequiredKeys);
    assert RefreshTokenKey in RequiredKeys && UnlockPasswordKey in RequiredKeys;
    assert LocationNameKey in RequiredKeys && IntercomNameKey in RequiredKeys;
    if |missing| > 0 then
      assert missing[0] in missing;
      Err(MissingVariables(missing))
    else
      Ok(AppConfig(env[RefreshTokenKey], env[UnlockPasswordKey], env[LocationNameKey], env[IntercomNameKey]))
  }

  /** Every part appears in the joined text. */
  lemma {:induction false} JoinMentionsEachPart(parts: seq<string>, sep: string, i: nat)
    requires i < |parts|
    ensures Contains(Join(parts, sep), parts[i])
  {
    var joined := Join(parts, sep);
    if |parts| == 1 {
      OccursAsPrefix(parts[0], "");
      assert parts[0] + "" == parts[0];
      assert OccursAt(joined, parts[i], 0);
    } else if i == 0 {
      OccursAsPrefix(parts[0], sep + Join(parts[1..], sep));
      assert parts[0] + sep + Join(parts[1..], sep) == parts[0] + (sep + Join(parts[1..], sep));
      assert OccursAt(joined, parts[i], 0);
    } else {
      JoinMentionsEachPart(parts[1..], sep, i - 1);
      var rest := Join(parts[1..], sep);
      var j: nat :| j <= |rest| && OccursAt(rest, parts[i], j);
      OccursInSuffix(parts[0] + sep, rest, parts[i], j);
      assert OccursAt(joined, parts[i], |parts[0] + sep| + j);
    }
  }

  /** The failure message names every missing required variable. */
  lemma MessageNamesMissingKey(env: Env, key: string)
    requires key in RequiredKeys && IsMissing(env, key)
    ensures LoadConfig(env).Err?
    ensures Contains(LoadConfig(env).error.Message(), key)
  {
    var missing := MissingKeys(env);
    MissingFromExact(env, RequiredKeys);
    assert key in missing;
    var i :| 0 <= i < |missing| && missing[i] == key;
    JoinMentionsEachPart(missing, ", ", i);
    var joined := Join(missing, ", ");
    var j: nat :| j <= |joined| && OccursAt(joined, key, j);
    OccursInSuffix("Missing required environment variables: ", joined, key, j);
  }
}
