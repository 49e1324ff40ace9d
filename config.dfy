/** packages/config: the feature-flag override parser, the configuration built from
    the environment with its defaults, the cache around it, and `isFeatureEnabled`.
    `JSON.parse` and the e-mail check of the schema validator are parameters. */
module Config {
  import opened Wrappers
  import opened JsString
  import opened Json

  datatype FeatureKey = Auth | Payments | Voice | Chat | Analytics | Emails

  function FeatureName(k: FeatureKey): string {
    match k
    case Auth => "auth"
    case Payments => "payments"
    case Voice => "voice"
    case Chat => "chat"
    case Analytics => "analytics"
    case Emails => "emails"
  }

  /** The six keys in the order the feature schema lists them. */
  function FeatureKeys(): seq<FeatureKey> {
    [Auth, Payments, Voice, Chat, Analytics, Emails]
  }

  datatype FeatureFlags = FeatureFlags(auth: bool, payments: bool, voice: bool, chat: bool, analytics: bool,
                                       emails: bool)

  function Flag(flags: FeatureFlags, k: FeatureKey): bool {
    match k
    case Auth => flags.auth
    case Payments => flags.payments
    case Voice => flags.voice
    case Chat => flags.chat
    case Analytics => flags.analytics
    case Emails => flags.emails
  }

  datatype NodeEnv = Development | TestEnv | Production

  /** `AppConfig` without `analyticsFlushInterval`. */
  datatype AppConfig = AppConfig(nodeEnv: NodeEnv, databaseFile: string, knowledgeBaseFile: string,
                                 defaultUserEmail: string, flags: FeatureFlags)

  // ---------------------------------------------------------------------------
  // `parseFeatureOverrides(flags)`

  /** `flags.split(',').map(pair => pair.trim()).filter(Boolean)` */
  function TrimmedPairs(pieces: seq<string>): (r: seq<string>)
    ensures forall i :: 0 <= i < |r| ==> r[i] != []
  {
    if pieces == [] then []
    else
      var rest := TrimmedPairs(pieces[..|pieces| - 1]);
      var pair := Trim(pieces[|pieces| - 1]);
      if pair != [] then rest + [pair] else rest
  }

  /** Every pair kept is the trim of some piece, and no more pairs are kept than there
      were pieces. */
  lemma {:induction false} TrimmedPairsSound(pieces: seq<string>)
    ensures var r := TrimmedPairs(pieces);
      && |r| <= |pieces|
      && forall i :: 0 <= i < |r| ==> exists j :: 0 <= j < |pieces| && r[i] == Trim(pieces[j])
  {
    if pieces != [] {
      var init := pieces[..|pieces| - 1];
      TrimmedPairsSound(init);
      var rest, pair := TrimmedPairs(init), Trim(pieces[|pieces| - 1]);
      assert TrimmedPairs(pieces) == if pair != [] then rest + [pair] else rest;
      forall i | 0 <= i < |rest|
        ensures exists j :: 0 <= j < |pieces| && rest[i] == Trim(pieces[j])
      {
        var j :| 0 <= j < |init| && rest[i] == Trim(init[j]);
        assert pieces[j] == init[j];
      }
    }
  }

  /** Every piece that is not blank is kept, trimmed. */
  lemma {:induction false} TrimmedPairsComplete(pieces: seq<string>, j: nat)
    requires j < |pieces| && Trim(pieces[j]) != []
    ensures Trim(pieces[j]) in TrimmedPairs(pieces)
  {
    var init := pieces[..|pieces| - 1];
    var rest, pair := TrimmedPairs(init), Trim(pieces[|pieces| - 1]);
    assert TrimmedPairs(pieces) == if pair != [] then rest + [pair] else rest;
    if j < |init| {
      assert init[j] == pieces[j];
      TrimmedPairsComplete(init, j);
    } else {
      assert pair == Trim(pieces[j]);
      assert (rest + [pair])[|rest|] == pair;
    }
  }

  /** The key of a pair: what comes before the first `=`. */
  function PairKey(pair: string): string {
    Split(pair, '=')[0]
  }

  /** The value of a pair is true exactly when what follows the first `=`, up to
      any second `=`, is `true`. */
  function PairValue(pair: string): bool {
    var parts := Split(pair, '=');
    |parts| >= 2 && parts[1] == "true"
  }

  /** The overrides the fallback loop builds from the pairs, in order. */
  function FallbackOverrides(pairs: seq<string>): map<string, Json> {
    if pairs == [] then map[]
    else
      var m := FallbackOverrides(pairs[..|pairs| - 1]);
      var pair := pairs[|pairs| - 1];
      if PairKey(pair) == "" then m else m[PairKey(pair) := JBool(PairValue(pair))]
  }

  /** The fallback sets exactly the non-empty keys of the pairs, each to the value of
      the last pair with that key. */
  lemma FallbackOverridesSpec(pairs: seq<string>)
    ensures forall k :: k in FallbackOverrides(pairs) <==>
      k != "" && exists i :: 0 <= i < |pairs| && PairKey(pairs[i]) == k
    ensures forall i ::
      (0 <= i < |pairs| && PairKey(pairs[i]) != "" &&
       forall j :: i < j < |pairs| ==> PairKey(pairs[j]) != PairKey(pairs[i]))
      ==> FallbackOverrides(pairs)[PairKey(pairs[i])] == JBool(PairValue(pairs[i]))
  {
    FallbackOverridesKeys(pairs);
    FallbackOverridesValues(pairs);
  }

  lemma {:induction false} FallbackOverridesKeys(pairs: seq<string>)
    ensures forall k :: k in FallbackOverrides(pairs) <==>
      k != "" && exists i :: 0 <= i < |pairs| && PairKey(pairs[i]) == k
  {
    if pairs != [] {
      var prefix := pairs[..|pairs| - 1];
      FallbackOverridesKeys(prefix);
      forall k | k in FallbackOverrides(prefix)
        ensures exists i :: 0 <= i < |pairs| && PairKey(pairs[i]) == k
      {
        var i :| 0 <= i < |prefix| && PairKey(prefix[i]) == k;
        assert pairs[i] == prefix[i];
      }
      forall k | k != "" && (exists i :: 0 <= i < |pairs| && PairKey(pairs[i]) == k)
        ensures k in FallbackOverrides(pairs)
      {
        var i :| 0 <= i < |pairs| && PairKey(pairs[i]) == k;
        if i < |prefix| {
          assert prefix[i] == pairs[i];
        }
      }
    }
  }

  lemma {:induction false} FallbackOverridesValues(pairs: seq<string>)
    ensures forall i ::
      (0 <= i < |pairs| && PairKey(pairs[i]) != "" &&
       forall j :: i < j < |pairs| ==> PairKey(pairs[j]) != PairKey(pairs[i]))
      ==> PairKey(pairs[i]) in FallbackOverrides(pairs)
          && FallbackOverrides(pairs)[PairKey(pairs[i])] == JBool(PairValue(pairs[i]))
  {
    if pairs != [] {
      var prefix := pairs[..|pairs| - 1];
      FallbackOverridesValues(prefix);
      forall i | 0 <= i < |pairs| && PairKey(pairs[i]) != "" &&
        (forall j :: i < j < |pairs| ==> PairKey(pairs[j]) != PairKey(pairs[i]))
        ensures PairKey(pairs[i]) in FallbackOverrides(pairs)
        ensures FallbackOverrides(pairs)[PairKey(pairs[i])] == JBool(PairValue(pairs[i]))
      {
        if i < |prefix| {
          assert prefix[i] == pairs[i];
          assert forall j :: i < j < |prefix| ==> prefix[j] == pairs[j];
        }
      }
    }
  }

  /** What `parseFeatureOverrides(flags)` returns: `{}` for an absent or empty
      string; the parsed value when `JSON.parse` gives an object (arrays included,
      since `typeof` says `object` for them); `{}` for any other parsed value; and the
      fallback over the comma-separated pairs when `JSON.parse` throws. */
  function FeatureOverrides(flags: Option<string>, parse: string -> Parsed): (r: Json)
    ensures r.JObject? || r.JArray?
    ensures flags.None? || flags.value == [] ==> r == JObject(map[])
  {
    if flags.None? || flags.value == [] then JObject(map[])
    else match parse(flags.value)
      case Parsed(v) => if v.JObject? || v.JArray? then v else JObject(map[])
      case SyntaxError => JObject(FallbackOverrides(TrimmedPairs(Split(flags.value, ','))))
  }

  method ParseFeatureOverrides(flags: Option<string>, parse: string -> Parsed) returns (r: Json)
    ensures r == FeatureOverrides(flags, parse)
  {
    if flags.None? || flags.value == [] {
      return JObject(map[]);
    }
    match parse(flags.value)
    case Parsed(v) =>
      if v.JObject? || v.JArray? {
        return v;
      }
      return JObject(map[]);
    case SyntaxError =>
      var entries := TrimmedPairs(Split(flags.value, ','));
      var overrides: map<string, Json> := map[];
      for i := 0 to |entries|
        invariant overrides == FallbackOverrides(entries[..i])
      {
        assert entries[..i + 1][..i] == entries[..i];
        var parts := Split(entries[i], '=');
        var key := parts[0];
        if key == [] {
          continue;
        }
        overrides := overrides[key := JBool(|parts| >= 2 && parts[1] == "true")];
      }
      assert entries[..|entries|] == entries;
      return JObject(overrides);
  }

  // ---------------------------------------------------------------------------
  // The configuration schema.

  /** `featureSchema.partial()` on the overrides: the six keys that are present must
      be booleans; other keys are dropped; anything but an object is rejected. */
  function ValidateOverrides(v: Json): (r: Result<map<FeatureKey, bool>>)
    ensures r.Success? ==> v.JObject? && forall k :: k in r.value <==> FeatureName(k) in v.fields
    ensures r.Success? ==> forall k :: k in r.value ==> v.fields[FeatureName(k)] == JBool(r.value[k])
    ensures v.JObject? && (forall k :: FeatureName(k) in v.fields ==> v.fields[FeatureName(k)].JBool?) ==> r.Success?
  {
    if !v.JObject? then Failure("Expected object")
    else if exists k :: FeatureName(k) in v.fields && !v.fields[FeatureName(k)].JBool? then Failure("Expected boolean")
    else Success(map k | k in FeatureKeys() && FeatureName(k) in v.fields :: v.fields[FeatureName(k)].b)
  }

  /** `featureSchema.parse({ ...overrides })`: every flag is on unless overridden. */
  function MergedFlags(overrides: map<FeatureKey, bool>): (flags: FeatureFlags)
    ensures forall k :: Flag(flags, k) == (if k in overrides then overrides[k] else true)
  {
    FeatureFlags(
      if Auth in overrides then overrides[Auth] else true,
      if Payments in overrides then overrides[Payments] else true,
      if Voice in overrides then overrides[Voice] else true,
      if Chat in overrides then overrides[Chat] else true,
      if Analytics in overrides then overrides[Analytics] else true,
      if Emails in overrides then overrides[Emails] else true)
  }

  function ParseNodeEnv(value: Option<string>): (r: Result<NodeEnv>)
    ensures r.Success? <==> value.None? || value.value == "development" || value.value == "test"
                            || value.value == "production"
    ensures value.None? ==> r == Success(Development)
  {
    if value.None? then Success(Development)
    else if value.value == "development" then Success(Development)
    else if value.value == "test" then Success(TestEnv)
    else if value.value == "production" then Success(Production)
    else Failure("Invalid enum value")
  }

  function Lookup(env: map<string, string>, name: string): Option<string> {
    if name in env then Some(env[name]) else None
  }

  /** The configuration `getConfig()` builds from the environment. */
  function BuildConfig(env: map<string, string>, parse: string -> Parsed, isEmail: string -> bool): (r: Result<AppConfig>)
    ensures ParseNodeEnv(Lookup(env, "NODE_ENV")).Failure? ==> r.Failure?
    ensures r.Success? ==> isEmail(r.value.defaultUserEmail)
    ensures r.Success? ==> forall f :: !Flag(r.value.flags, f) ==>
      var v := FeatureOverrides(Lookup(env, "FEATURE_FLAGS"), parse);
      v.JObject? && FeatureName(f) in v.fields && v.fields[FeatureName(f)] == JBool(false)
  {
    var nodeEnv := ParseNodeEnv(Lookup(env, "NODE_ENV"));
    var overrides := ValidateOverrides(FeatureOverrides(Lookup(env, "FEATURE_FLAGS"), parse));
    var email := Lookup(env, "DEFAULT_USER_EMAIL").GetOr("founder@example.com");
    if nodeEnv.Failure? then Failure(nodeEnv.message)
    else if overrides.Failure? then Failure(overrides.message)
    else if !isEmail(email) then Failure("Invalid email")
    else Success(AppConfig(nodeEnv.value,
                           Lookup(env, "DATABASE_FILE").GetOr("data/database.json"),
                           Lookup(env, "KNOWLEDGE_BASE_FILE").GetOr("data/knowledge-base.json"),
                           email, MergedFlags(overrides.value)))
  }

  /** Without `FEATURE_FLAGS` every feature is on, and the defaults fill in what the
      environment leaves out. */
  lemma DefaultConfig(env: map<string, string>, parse: string -> Parsed, isEmail: string -> bool)
    requires "FEATURE_FLAGS" !in env && "NODE_ENV" !in env && "DATABASE_FILE" !in env
    requires "DEFAULT_USER_EMAIL" !in env && isEmail("founder@example.com")
    ensures var c := BuildConfig(env, parse, isEmail);
      && c.Success? && c.value.nodeEnv == Development && c.value.databaseFile == "data/database.json"
      && c.value.defaultUserEmail == "founder@example.com"
      && forall k :: Flag(c.value.flags, k)
  {
    assert FeatureOverrides(None, parse) == JObject(map[]);
  }

  /** `dotenv`'s `config()`: variables from the file are added, existing ones kept. */
  function WithDotenv(env: map<string, string>, dotenv: map<string, string>): (r: map<string, string>)
    ensures r.Keys == env.Keys + dotenv.Keys
    ensures forall k :: k in env ==> r[k] == env[k]
    ensures forall k :: k in dotenv && k !in env ==> r[k] == dotenv[k]
  {
    map k | k in env.Keys + dotenv.Keys :: if k in env then env[k] else dotenv[k]
  }

  /** Loading the file a second time changes nothing. */
  lemma WithDotenvTwice(env: map<string, string>, dotenv: map<string, string>)
    ensures WithDotenv(WithDotenv(env, dotenv), dotenv) == WithDotenv(env, dotenv)
  {
  }

  /** `isFeatureEnabled(key, overrides)`: the caller's override when it has one, else
      the configured flag. */
  function IsFeatureEnabled(config: AppConfig, key: FeatureKey, overrides: map<FeatureKey, bool> := map[]): (on: bool)
    ensures key in overrides ==> on == overrides[key]
    ensures key !in overrides ==> on == Flag(config.flags, key)
  {
    if key in overrides then overrides[key] else Flag(config.flags, key)
  }

  /** The module state `envLoaded` / `cachedConfig`, the process environment, and the
      variables of the `.env` file. `loads` counts how often the file was loaded. */
  class ConfigCache {
    var envLoaded: bool
    var cached: Option<AppConfig>
    var env: map<string, string>
    const dotenv: map<string, string>
    ghost var loads: nat

    constructor(env: map<string, string>, dotenv: map<string, string>)
      ensures !envLoaded && cached.None? && this.env == env && this.dotenv == dotenv && loads == 0
    {
      envLoaded := false;
      cached := None;
      this.env := env;
      this.dotenv := dotenv;
      loads := 0;
    }

    /** `ensureEnvLoaded()`: loads the file the first time only. */
    method EnsureEnvLoaded()
      modifies this
      ensures envLoaded && cached == old(cached)
      ensures old(envLoaded) ==> env == old(env) && loads == old(loads)
      ensures !old(envLoaded) ==> env == WithDotenv(old(env), dotenv) && loads == old(loads) + 1
    {
      if envLoaded {
        return;
      }
      envLoaded := true;
      env := WithDotenv(env, dotenv);
      loads := loads + 1;
    }

    /** `getConfig()`: the cached configuration while there is one; otherwise the
        environment is loaded (once) and the configuration built and cached. A
        validation error is returned and nothing is cached. */
    method GetConfig(parse: string -> Parsed, isEmail: string -> bool) returns (r: Result<AppConfig>)
      modifies this
      ensures old(cached).Some? ==> r == Success(old(cached).value) && unchanged(this)
      ensures old(cached).None? ==>
        && envLoaded
        && env == (if old(envLoaded) then old(env) else WithDotenv(old(env), dotenv))
        && r == BuildConfig(env, parse, isEmail)
        && cached == (if r.Success? then Some(r.value) else None)
      ensures old(envLoaded) ==> loads == old(loads)
      ensures loads <= old(loads) + 1
    {
      if cached.Some? {
        return Success(cached.value);
      }
      EnsureEnvLoaded();
      r := BuildConfig(env, parse, isEmail);
      if r.Success? {
        cached := Some(r.value);
      }
    }

    /** `resetConfigCache()` */
    method ResetConfigCache()
      modifies this
      ensures cached.None? && !envLoaded && env == old(env) && loads == old(loads)
    {
      cached := None;
      envLoaded := false;
    }
  }
}
