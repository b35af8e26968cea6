/**
 * Configuration resolution of the SSO demo robot: each of the three settings
 * (Control Room URL, SSO subdomain, process name) is read from a text storage
 * asset, else from the environment variable of the same name, else from a
 * hard-coded default.
 */
module Config {
  import opened Wrappers

  /** Names shared by the storage assets and the environment variables. */
  const UrlKey: string := "CONTROL_ROOM_URL"
  const SubdomainKey: string := "CONTROL_ROOM_SUBDOMAIN"
  const ProcessNameKey: string := "CONTROL_ROOM_PROCESS_NAME"

  /** The defaults the code uses when neither the asset nor the variable is available. */
  const DefaultUrl: string := "https://cloud.robocorp.com/"
  const DefaultSubdomain: string := "eu1-acme"
  const DefaultProcessName: string := "Demo"

  /** The process environment: variable name to value. */
  type Environment = map<string, string>

  /**
   * One lookup: `asset` is what reading the storage asset produced, `None`
   * standing for every way that read can raise (missing asset, unreachable
   * store, ...), which the code catches all alike. Then the environment,
   * whose missing key falls through to `fallback`.
   *
   * The nested try/except chain is exactly the ordered resolver over the
   * tiers asset, environment, default; since the default is always there,
   * resolution never runs out of tiers.
   */
  function Resolve(asset: Option<string>, env: Environment, key: string, fallback: string): (r: string)
    ensures FirstAvailable([asset, EnvironmentTier(env, key), Some(fallback)]) == Some(r)
  {
    var tiers := [asset, EnvironmentTier(env, key), Some(fallback)];
    assert tiers[1..] == [EnvironmentTier(env, key), Some(fallback)];
    assert tiers[1..][1..] == [Some(fallback)];
    assert FirstAvailable(tiers[1..][1..]) == Some(fallback);
    match asset
    case Some(text) => text
    case None => if key in env then env[key] else fallback
  }

  /** The environment as one more tier: the variable's value, if set. */
  function EnvironmentTier(env: Environment, key: string): Option<string> {
    if key in env then Some(env[key]) else None
  }

  /**
   * Reference resolver: an ordered list of tiers, each of which may have a
   * value; the first tier that has one wins, and the result is `None` only
   * when every tier is empty.
   */
  function FirstAvailable(tiers: seq<Option<string>>): (r: Option<string>)
    ensures r.Some? ==> exists i :: 0 <= i < |tiers| && tiers[i] == r &&
                          forall j :: 0 <= j < i ==> tiers[j].None?
    ensures r.None? ==> forall i :: 0 <= i < |tiers| ==> tiers[i].None?
  {
    if |tiers| == 0 then None
    else if tiers[0].Some? then tiers[0]
    else
      var r := FirstAvailable(tiers[1..]);
      assert forall i :: 1 <= i < |tiers| ==> tiers[i] == tiers[1..][i - 1];
      r
  }

  /**
   * A tier list that ends in an always-present default never comes out empty
   * (a consequence of the contract of `FirstAvailable`).
   */
  lemma FirstAvailableTotal(tiers: seq<Option<string>>)
    requires |tiers| >= 1 && tiers[|tiers| - 1].Some?
    ensures FirstAvailable(tiers).Some?
  {
  }

  /** A value read from the storage asset is used whatever the environment holds. */
  lemma AssetWins(text: string, env: Environment, key: string, fallback: string)
    ensures Resolve(Some(text), env, key, fallback) == text
  {
  }

  /**
   * When the asset read fails, a set environment variable is used verbatim;
   * an empty value is a value like any other and does not fall through.
   */
  lemma EnvironmentUsedWhenAssetFails(env: Environment, key: string, fallback: string)
    requires key in env
    ensures Resolve(None, env, key, fallback) == env[key]
  {
  }

  /** When both the asset and the variable are missing, the default is returned. */
  lemma DefaultWhenAllFail(env: Environment, key: string, fallback: string)
    requires key !in env
    ensures Resolve(None, env, key, fallback) == fallback
  {
  }

  /** The result is always one of the three tiers' values. */
  lemma ResolveComesFromATier(asset: Option<string>, env: Environment, key: string, fallback: string)
    ensures var r := Resolve(asset, env, key, fallback);
            asset == Some(r) || (asset.None? && key in env && env[key] == r) ||
            (asset.None? && key !in env && r == fallback)
  {
  }

  /** Only the variable named by the key is read: environments that agree on it resolve alike. */
  lemma ResolveReadsOnlyItsKey(asset: Option<string>, env1: Environment, env2: Environment, key: string, fallback: string)
    requires EnvironmentTier(env1, key) == EnvironmentTier(env2, key)
    ensures Resolve(asset, env1, key, fallback) == Resolve(asset, env2, key, fallback)
  {
    if key in env1 {
      assert EnvironmentTier(env2, key) == Some(env1[key]);
    }
  }

  /** The Control Room URL: asset, then environment, then `https://cloud.robocorp.com/`. */
  function GetUrl(asset: Option<string>, env: Environment): (url: string)
    ensures asset.Some? ==> url == asset.value
    ensures asset.None? && "CONTROL_ROOM_URL" in env ==> url == env["CONTROL_ROOM_URL"]
    ensures asset.None? && "CONTROL_ROOM_URL" !in env ==> url == "https://cloud.robocorp.com/"
  {
    Resolve(asset, env, UrlKey, DefaultUrl)
  }

  /** The SSO subdomain: asset, then environment, then `eu1-acme`. */
  function GetSubdomain(asset: Option<string>, env: Environment): (subdomain: string)
    ensures asset.Some? ==> subdomain == asset.value
    ensures asset.None? && "CONTROL_ROOM_SUBDOMAIN" in env ==> subdomain == env["CONTROL_ROOM_SUBDOMAIN"]
    ensures asset.None? && "CONTROL_ROOM_SUBDOMAIN" !in env ==> subdomain == "eu1-acme"
  {
    Resolve(asset, env, SubdomainKey, DefaultSubdomain)
  }

  /** The name of the process to start: asset, then environment, then `Demo`. */
  function GetProcessName(asset: Option<string>, env: Environment): (name: string)
    ensures asset.Some? ==> name == asset.value
    ensures asset.None? && "CONTROL_ROOM_PROCESS_NAME" in env ==> name == env["CONTROL_ROOM_PROCESS_NAME"]
    ensures asset.None? && "CONTROL_ROOM_PROCESS_NAME" !in env ==> name == "Demo"
  {
    Resolve(asset, env, ProcessNameKey, DefaultProcessName)
  }

  /**
   * The defaults in effect are the code's constants, not the ones the
   * docstrings of get_url and get_subdomain describe.
   */
  lemma DefaultsDifferFromDocstrings()
    ensures GetUrl(None, map[]) != "https://cloud.robocorp.com/orgrobocorp/demo"
    ensures GetSubdomain(None, map[]) != "orgrobocorp"
  {
  }

  /** The three settings the robot resolves before logging in. */
  datatype Configuration = Configuration(url: string, subdomain: string, processName: string)

  /**
   * Resolve all three settings against one environment, each from its own
   * asset, its own variable and its own default.
   */
  function ResolveConfiguration(urlAsset: Option<string>, subdomainAsset: Option<string>,
                                processNameAsset: Option<string>, env: Environment): (c: Configuration)
    ensures FirstAvailable([urlAsset, EnvironmentTier(env, UrlKey), Some(DefaultUrl)]) == Some(c.url)
    ensures FirstAvailable([subdomainAsset, EnvironmentTier(env, SubdomainKey), Some(DefaultSubdomain)]) == Some(c.subdomain)
    ensures FirstAvailable([processNameAsset, EnvironmentTier(env, ProcessNameKey), Some(DefaultProcessName)]) == Some(c.processName)
  {
    Configuration(GetUrl(urlAsset, env), GetSubdomain(subdomainAsset, env), GetProcessName(processNameAsset, env))
  }

  /**
   * With every asset read failing and none of the three variables set, the
   * configuration is exactly the triple of defaults, whatever else the
   * environment holds.
   */
  lemma UnconfiguredRunUsesDefaults(env: Environment)
    requires UrlKey !in env && SubdomainKey !in env && ProcessNameKey !in env
    ensures ResolveConfiguration(None, None, None, env) ==
            Configuration("https://cloud.robocorp.com/", "eu1-acme", "Demo")
  {
  }

  /** Each setting depends only on its own asset: changing another asset changes nothing in it. */
  lemma SettingsResolveIndependently(u1: Option<string>, s1: Option<string>, p1: Option<string>,
                                     u2: Option<string>, s2: Option<string>, p2: Option<string>, env: Environment)
    ensures u1 == u2 ==> ResolveConfiguration(u1, s1, p1, env).url == ResolveConfiguration(u2, s2, p2, env).url
    ensures s1 == s2 ==> ResolveConfiguration(u1, s1, p1, env).subdomain == ResolveConfiguration(u2, s2, p2, env).subdomain
    ensures p1 == p2 ==> ResolveConfiguration(u1, s1, p1, env).processName == ResolveConfiguration(u2, s2, p2, env).processName
  {
  }
}
