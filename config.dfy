/**
 * The runtime configuration record of the chat backend: seven string settings
 * read from the process environment with defaults, and a validator that scans
 * the record's own entries in order and throws on the first undefined one.
 *
 * The process environment is a map from variable name to value; a name that is
 * not in the map is an unset variable (`process.env.X` is `undefined`).
 */
module RuntimeConfig {
  import opened Wrappers

  type Environment = map<string, string>

  /** The hard-coded store address used when `DATABASE_URL` is unset or empty. */
  const DefaultDatabaseUrl: string := "mongodb://localhost:27017/chattyapp-backend"

  /** The token secret used when `JWT_TOKEN` is unset or empty. */
  const DefaultJwtToken: string := "1234"

  /** One own property of the configuration object, as `Object.entries` yields it. */
  datatype Entry = Entry(key: string, value: Option<string>)

  /**
   * The own property names of the configuration object, in `Object.entries`
   * order: the initialised private default, then the seven settings.
   */
  const EntryKeys: seq<string> := ["DEFAULT_DATABASE_URL", "DATABASE_URL", "JWT_TOKEN", "NODE_ENV",
    "SECRET_KEY_ONE", "SECRET_KEY_TWO", "CLIENT_URL", "REDIS_HOST"]

  /** What `validateConfig` does: return normally, or throw an `Error` with a message. */
  datatype Outcome = Passed | Threw(message: string)

  /** `process.env[key]`: the value, or `undefined` when the variable is unset. */
  function Lookup(env: Environment, key: string): Option<string>
  {
    if key in env then Some(env[key]) else None
  }

  /** JavaScript truthiness of a `string | undefined`: only a non-empty string is truthy. */
  predicate Truthy(v: Option<string>)
  {
    v.Some? && v.value != ""
  }

  /** JavaScript `a || b` where `a: string | undefined` and `b` is a string. */
  function Or(a: Option<string>, b: string): string
  {
    if Truthy(a) then a.value else b
  }

  /**
   * The value a setting receives from `process.env[key] || fallback`: the
   * environment's value when it is set and non-empty, the fallback otherwise.
   */
  function Setting(env: Environment, key: string, fallback: string): (r: string)
    ensures key in env && env[key] != "" ==> r == env[key]
    ensures key !in env || env[key] == "" ==> r == fallback
    ensures r == "" ==> fallback == ""
  {
    Or(Lookup(env, key), fallback)
  }

  /** An empty environment value and a missing one give a setting the same value. */
  lemma EmptySameAsUnset(env: Environment, key: string, fallback: string)
    ensures Setting(env[key := ""], key, fallback) == Setting(env - {key}, key, fallback)
      == fallback
  {
  }

  /** A setting depends on its own variable only. */
  lemma SettingIgnoresOtherVariables(env: Environment, key: string, other: string, v: string, fallback: string)
    requires other != key
    ensures Setting(env[other := v], key, fallback) == Setting(env, key, fallback)
  {
  }

  /**
   * The position of the first entry whose value is undefined, if there is one.
   */
  function FirstUndefined(es: seq<Entry>): (r: Option<nat>)
    ensures r.Some? ==> r.value < |es| && es[r.value].value.None?
    ensures r.Some? ==> forall j :: 0 <= j < r.value ==> es[j].value.Some?
    ensures r.None? <==> forall j :: 0 <= j < |es| ==> es[j].value.Some?
  {
    if es == [] then None
    else if es[0].value.None? then Some(0)
    else
      match FirstUndefined(es[1..])
      case None => None
      case Some(k) => Some(k + 1)
  }

  /** The error message thrown for an undefined entry (spelling as in the source). */
  function UndefinedMessage(key: string): (m: string)
    ensures |m| == |key| + 29
    ensures m[..14] == "Configuration " && m[14 + |key|..] == " is undefinded."
    ensures m[14..14 + |key|] == key
  {
    "Configuration " + key + " is undefinded."
  }

  /**
   * The outcome of scanning `es` in order and throwing on the first undefined
   * value: it throws if and only if some entry is undefined, and then its
   * message names the first undefined key in entry order.
   */
  function Validation(es: seq<Entry>): (r: Outcome)
    ensures r == Passed <==> forall i :: 0 <= i < |es| ==> es[i].value.Some?
    ensures r.Threw? ==>
      exists i :: 0 <= i < |es| && es[i].value.None? &&
        (forall j :: 0 <= j < i ==> es[j].value.Some?) &&
        r.message == UndefinedMessage(es[i].key)
  {
    match FirstUndefined(es)
    case None => Passed
    case Some(i) => Threw(UndefinedMessage(es[i].key))
  }

  /**
   * Two entry sequences with the same keys, defined at the same positions,
   * validate alike: validation looks only at keys and definedness.
   */
  lemma SameDefinednessSameValidation(a: seq<Entry>, b: seq<Entry>)
    requires |a| == |b|
    requires forall j :: 0 <= j < |a| ==> a[j].key == b[j].key && a[j].value.Some? == b[j].value.Some?
    ensures FirstUndefined(a) == FirstUndefined(b)
    ensures Validation(a) == Validation(b)
  {
  }

  /**
   * An empty string is defined: emptying any defined value never changes the
   * validator's outcome, so only `undefined` is ever rejected.
   */
  lemma EmptyValuesPass(es: seq<Entry>, i: nat)
    requires i < |es| && es[i].value.Some?
    ensures Validation(es[i := Entry(es[i].key, Some(""))]) == Validation(es)
  {
    SameDefinednessSameValidation(es[i := Entry(es[i].key, Some(""))], es);
  }

  /** The first undefined position is determined by its characterisation. */
  lemma FirstUndefinedAt(es: seq<Entry>, k: nat)
    requires k < |es| && es[k].value.None?
    requires forall j :: 0 <= j < k ==> es[j].value.Some?
    ensures FirstUndefined(es) == Some(k)
  {
  }

  /**
   * A defined entry placed first or last gives the same outcome: where the
   * always-defined private default appears among the entries does not matter.
   */
  lemma DefinedEntryPositionIrrelevant(d: Entry, rest: seq<Entry>)
    requires d.value.Some?
    ensures Validation([d] + rest) == Validation(rest)
    ensures Validation(rest + [d]) == Validation(rest)
  {
    var front, back := [d] + rest, rest + [d];
    assert front[1..] == rest;
    match FirstUndefined(rest)
    case None =>
      assert forall j :: 0 <= j < |back| ==> back[j].value.Some? by {
        forall j | 0 <= j < |back| ensures back[j].value.Some? {
          if j < |rest| { assert back[j] == rest[j]; }
        }
      }
      assert FirstUndefined(back) == None;
    case Some(k) =>
      assert front[k + 1] == rest[k];
      assert back[k] == rest[k];
      assert forall j :: 0 <= j < k ==> back[j] == rest[j];
      FirstUndefinedAt(back, k);
  }

  /** The configuration object of `src/config.ts`. */
  class Config {
    var databaseUrl: Option<string>
    var jwtToken: Option<string>
    var nodeEnv: Option<string>
    var secretKeyOne: Option<string>
    var secretKeyTwo: Option<string>
    var clientUrl: Option<string>
    var redisHost: Option<string>

    /** The private read-only default; a plain string, so never undefined. */
    const defaultDatabaseUrl: string

    /** Every entry of the object is a defined string. */
    ghost predicate AllDefined()
      reads this
    {
      databaseUrl.Some? && jwtToken.Some? && nodeEnv.Some? && secretKeyOne.Some? &&
      secretKeyTwo.Some? && clientUrl.Some? && redisHost.Some?
    }

    /**
     * `Object.entries(this)`: the initialised private default first, then the
     * seven settings in the order the constructor assigns them.
     */
    function Entries(): (es: seq<Entry>)
      reads this
      ensures |es| == |EntryKeys| && es[0] == Entry("DEFAULT_DATABASE_URL", Some(defaultDatabaseUrl))
      ensures forall i :: 0 <= i < |es| ==> es[i].key == EntryKeys[i]
      ensures (forall i :: 0 <= i < |es| ==> es[i].value.Some?) <==> AllDefined()
    {
      var es :=
        [ Entry("DEFAULT_DATABASE_URL", Some(defaultDatabaseUrl)),
          Entry("DATABASE_URL", databaseUrl),
          Entry("JWT_TOKEN", jwtToken),
          Entry("NODE_ENV", nodeEnv),
          Entry("SECRET_KEY_ONE", secretKeyOne),
          Entry("SECRET_KEY_TWO", secretKeyTwo),
          Entry("CLIENT_URL", clientUrl),
          Entry("REDIS_HOST", redisHost) ];
      assert es[1].value == databaseUrl && es[2].value == jwtToken && es[3].value == nodeEnv;
      assert es[4].value == secretKeyOne && es[5].value == secretKeyTwo;
      assert es[6].value == clientUrl && es[7].value == redisHost;
      es
    }

    /** Loads every setting from `env`, falling back to its default. */
    constructor (env: Environment)
      ensures defaultDatabaseUrl == DefaultDatabaseUrl
      ensures databaseUrl == Some(Setting(env, "DATABASE_URL", DefaultDatabaseUrl))
      ensures jwtToken == Some(Setting(env, "JWT_TOKEN", DefaultJwtToken))
      ensures nodeEnv == Some(Setting(env, "NODE_ENV", ""))
      ensures secretKeyOne == Some(Setting(env, "SECRET_KEY_ONE", ""))
      ensures secretKeyTwo == Some(Setting(env, "SECRET_KEY_TWO", ""))
      ensures clientUrl == Some(Setting(env, "CLIENT_URL", ""))
      ensures redisHost == Some(Setting(env, "REDIS_HOST", ""))
      ensures AllDefined()
    {
      defaultDatabaseUrl := DefaultDatabaseUrl;
      new;
      databaseUrl := Some(Setting(env, "DATABASE_URL", defaultDatabaseUrl));
      jwtToken := Some(Setting(env, "JWT_TOKEN", DefaultJwtToken));
      nodeEnv := Some(Setting(env, "NODE_ENV", ""));
      secretKeyOne := Some(Setting(env, "SECRET_KEY_ONE", ""));
      secretKeyTwo := Some(Setting(env, "SECRET_KEY_TWO", ""));
      clientUrl := Some(Setting(env, "CLIENT_URL", ""));
      redisHost := Some(Setting(env, "REDIS_HOST", ""));
    }

    /**
     * `validateConfig`: walks the entries in order and throws on the first
     * undefined value. It changes no field (it has no `modifies` clause).
     */
    method ValidateConfig() returns (r: Outcome)
      ensures r == Validation(Entries())
      ensures r == Passed <==> forall i :: 0 <= i < |Entries()| ==> Entries()[i].value.Some?
      ensures r == Passed <==> AllDefined()
      ensures r.Threw? ==>
        exists i :: 0 <= i < |Entries()| && Entries()[i].value.None? &&
          (forall j :: 0 <= j < i ==> Entries()[j].value.Some?) &&
          r.message == UndefinedMessage(Entries()[i].key)
    {
      var es := Entries();
      var i := 0;
      while i < |es|
        invariant 0 <= i <= |es|
        invariant forall j :: 0 <= j < i ==> es[j].value.Some?
      {
        if es[i].value.None? {
          r := Threw(UndefinedMessage(es[i].key));
          assert FirstUndefined(es) == Some(i);
          return;
        }
        i := i + 1;
      }
      r := Passed;
    }

    /** Validating twice gives the same outcome as validating once. */
    method ValidateConfigTwice() returns (first: Outcome, second: Outcome)
      ensures first == second == Validation(Entries())
    {
      first := ValidateConfig();
      second := ValidateConfig();
    }
  }

  /**
   * Builds the exported `config` object from `env` and validates it, as the
   * application does at startup: for every environment, including one where
   * every variable is unset or empty, validation passes.
   */
  method LoadAndValidate(env: Environment) returns (r: Outcome)
    ensures r == Passed
  {
    var c := new Config(env);
    r := c.ValidateConfig();
  }
}
