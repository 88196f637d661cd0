/** The service registry, its validation, and the naming rules that turn a
    service token into a stack name, a base URL and an OpenAPI document URL;
    the client builder and the token-to-client map built from a registry. */
module ServiceConfig {
  import opened Common

  // ---------------------------------------------------------------------------
  // Registry shape (the configuration schema)
  // ---------------------------------------------------------------------------

  /** The only fields a service descriptor may have. */
  const DescriptorFields: set<string> := {"apiSubdomain", "apiVersion", "envMap", "openapiPath"}

  /** A character of the regular-expression class `\w`. */
  predicate IsWordChar(c: char) {
    ('a' <= c <= 'z') || ('A' <= c <= 'Z') || ('0' <= c <= '9') || c == '_'
  }

  /** A registry key matches `^[\w-]+$`. */
  predicate IsServiceKey(k: string) {
    |k| > 0 && forall i :: 0 <= i < |k| ==> IsWordChar(k[i]) || k[i] == '-'
  }

  /** `{ type: 'object', additionalProperties: { type: 'string' } }` */
  predicate IsStringMap(v: Value) {
    v.Obj? && forall k :: k in v.props ==> v.props[k].Str?
  }

  /** A declared property of the descriptor schema; a property whose value is
      undefined is not checked by `properties`. */
  predicate ValidField(name: string, v: Value) {
    v.Undefined? || (if name == "envMap" then IsStringMap(v) else v.Str?)
  }

  /** The descriptor schema: an object with no property outside the four names. */
  predicate ValidDescriptor(v: Value) {
    v.Obj? && forall k :: k in v.props ==> k in DescriptorFields && ValidField(k, v.props[k])
  }

  /** The registry schema: an object whose keys all match the key pattern and
      whose values are all valid descriptors. */
  predicate ValidConfig(v: Value) {
    v.Obj? && forall k :: k in v.props ==> IsServiceKey(k) && ValidDescriptor(v.props[k])
  }

  // ---------------------------------------------------------------------------
  // Descriptors and the validated configuration
  // ---------------------------------------------------------------------------

  /** A validated service descriptor; an absent (or undefined) field is None. */
  datatype Descriptor = Descriptor(
    apiSubdomain: Option<string>,
    apiVersion: Option<string>,
    envMap: Option<map<string, string>>,
    openapiPath: Option<string>)

  type Registry = map<string, Descriptor>

  /** What a `ServiceConfig` instance holds once constructed: its registry. */
  datatype Config = Config(registry: Registry)

  /** `o` is what the descriptor object `props` says for the string field `name`. */
  predicate StringFieldAgrees(props: map<string, Value>, name: string, o: Option<string>) {
    && (o.Some? <==> name in props && !props[name].Undefined?)
    && (o.Some? ==> props[name] == Str(o.value))
  }

  /** `o` is what the descriptor object `props` says for its `envMap` field. */
  predicate EnvMapAgrees(props: map<string, Value>, o: Option<map<string, string>>) {
    && (o.Some? <==> "envMap" in props && !props["envMap"].Undefined?)
    && (o.Some? ==>
          && props["envMap"].Obj?
          && props["envMap"].props.Keys == o.value.Keys
          && forall k :: k in o.value ==> props["envMap"].props[k] == Str(o.value[k]))
  }

  function StringField(props: map<string, Value>, name: string): Option<string> {
    if name in props && props[name].Str? then Some(props[name].s) else None
  }

  /** The typed reading of a descriptor object that passed the schema. */
  function DescriptorOf(v: Value): (d: Descriptor)
    requires ValidDescriptor(v)
    ensures StringFieldAgrees(v.props, "apiSubdomain", d.apiSubdomain)
    ensures StringFieldAgrees(v.props, "apiVersion", d.apiVersion)
    ensures StringFieldAgrees(v.props, "openapiPath", d.openapiPath)
    ensures EnvMapAgrees(v.props, d.envMap)
  {
    var p := v.props;
    var envMap :=
      if "envMap" in p && p["envMap"].Obj? then
        var m := p["envMap"].props;
        Some(map k | k in m && m[k].Str? :: m[k].s)
      else None;
    assert "envMap" in p && !p["envMap"].Undefined? ==> IsStringMap(p["envMap"]);
    Descriptor(StringField(p, "apiSubdomain"), StringField(p, "apiVersion"), envMap,
               StringField(p, "openapiPath"))
  }

  function StringEntry(name: string, o: Option<string>): map<string, Value> {
    if o.Some? then map[name := Str(o.value)] else map[]
  }

  /** The descriptor written back as the plain object a caller would pass. */
  function DescriptorValue(d: Descriptor): Value {
    Obj(StringEntry("apiSubdomain", d.apiSubdomain)
        + StringEntry("apiVersion", d.apiVersion)
        + StringEntry("openapiPath", d.openapiPath)
        + (if d.envMap.Some? then
             map["envMap" := Obj(map k | k in d.envMap.value :: Str(d.envMap.value[k]))]
           else map[]))
  }

  /** Every typed descriptor is the reading of a valid descriptor object. */
  lemma {:induction false} DescriptorRoundTrip(d: Descriptor)
    ensures ValidDescriptor(DescriptorValue(d))
    ensures DescriptorOf(DescriptorValue(d)) == d
  {
    var v := DescriptorValue(d);
    assert v.props.Keys <= DescriptorFields;
    if d.envMap.Some? {
      var m := v.props["envMap"].props;
      assert IsStringMap(v.props["envMap"]);
      assert (map k | k in m && m[k].Str? :: m[k].s) == d.envMap.value;
    }
  }

  /** A valid descriptor object without undefined fields is recovered exactly
      from its typed reading. */
  lemma {:induction false} DescriptorValueOf(v: Value)
    requires ValidDescriptor(v)
    requires forall k :: k in v.props ==> !v.props[k].Undefined?
    ensures DescriptorValue(DescriptorOf(v)) == v
  {
    var d := DescriptorOf(v);
    var w := DescriptorValue(d);
    forall k | k in v.props
      ensures k in w.props && w.props[k] == v.props[k]
    {
      assert k in DescriptorFields;
      if k == "envMap" {
        var m := v.props["envMap"].props;
        assert IsStringMap(v.props["envMap"]);
        assert w.props["envMap"].props == m;
      }
    }
    assert w.props.Keys == v.props.Keys;
  }

  /** `new ServiceConfig(config)`: an omitted registry is `{}`; the registry is
      checked against the schema and otherwise rejected. */
  function New(config: Value): (r: Result<Config>)
    ensures r.Ok? <==> ValidConfig(DefaultObject(config))
    ensures r.Err? ==> r.error == InvalidConfig
    ensures r.Ok? ==> r.value.registry.Keys == DefaultObject(config).props.Keys
    ensures r.Ok? ==> forall t :: t in r.value.registry ==>
                        IsServiceKey(t) && ValidDescriptor(DefaultObject(config).props[t]) &&
                        r.value.registry[t] == DescriptorOf(DefaultObject(config).props[t])
  {
    var c := DefaultObject(config);
    if ValidConfig(c) then
      Ok(Config(map t | t in c.props :: DescriptorOf(c.props[t])))
    else
      Err(InvalidConfig)
  }

  // ---------------------------------------------------------------------------
  // Naming rules
  // ---------------------------------------------------------------------------

  /** The environment variables read at resolution time. */
  datatype Env = Env(
    env: Option<string>,          // ENV
    envDomain: Option<string>,    // ENV_DOMAIN
    rootDomain: Option<string>,   // ROOT_DOMAIN
    prodEnvToken: Option<string>) // PROD_ENV_TOKEN

  /** `if (process.env.ENV_DOMAIN)`: set and not empty. */
  predicate HasEnvDomain(e: Env) {
    e.envDomain.Some? && e.envDomain.value != ""
  }

  /** `#validateServiceToken` followed by the registry lookup. */
  function ValidateServiceToken(sc: Config, token: string): (r: Result<Descriptor>)
    ensures r.Ok? <==> token in sc.registry
    ensures r.Ok? ==> r.value == sc.registry[token]
    ensures r.Err? ==> r.error == UnknownService(token)
  {
    if token in sc.registry then Ok(sc.registry[token]) else Err(UnknownService(token))
  }

  /** `envMap[ENV] ?? ENV`, with `envMap = {}` when absent; an unset ENV is
      looked up under the key "undefined", as JavaScript converts the key. */
  function EffectiveEnv(d: Descriptor, e: Env): (r: Option<string>)
    ensures Template(e.env) in d.envMap.GetOr(map[]) ==> r == Some(d.envMap.GetOr(map[])[Template(e.env)])
    ensures Template(e.env) !in d.envMap.GetOr(map[]) ==> r == e.env
  {
    var m := d.envMap.GetOr(map[]);
    var key := Template(e.env);
    if key in m then Some(m[key]) else e.env
  }

  function StackNameOf(token: string, d: Descriptor, e: Env): string {
    Template(d.apiSubdomain) + "-" + token + "-" + Template(d.apiVersion) + "-" + Template(EffectiveEnv(d, e))
  }

  /** `https://{apiSubdomain}.{domain}/{token}-{apiVersion}`. */
  function ServiceRoot(token: string, d: Descriptor, domain: string): string {
    "https://" + Template(d.apiSubdomain) + "." + domain + "/" + token + "-" + Template(d.apiVersion)
  }

  /** The environment suffix of the root-domain topology. */
  function EnvSuffix(d: Descriptor, e: Env): string {
    var env := EffectiveEnv(d, e);
    if env == e.prodEnvToken then "" else "-" + Template(env)
  }

  function BaseUrlOf(token: string, d: Descriptor, e: Env): string {
    if HasEnvDomain(e) then ServiceRoot(token, d, e.envDomain.value)
    else ServiceRoot(token, d, Template(e.rootDomain)) + EnvSuffix(d, e)
  }

  /** `getStackName`. */
  function StackName(sc: Config, token: string, e: Env): (r: Result<string>)
    ensures r.Err? <==> token !in sc.registry
    ensures r.Err? ==> r.error == UnknownService(token)
    ensures r.Ok? ==> r.value == StackNameOf(token, sc.registry[token], e)
  {
    var d :- ValidateServiceToken(sc, token);
    Ok(StackNameOf(token, d, e))
  }

  /** `getBaseUrl`. */
  function BaseUrl(sc: Config, token: string, e: Env): (r: Result<string>)
    ensures r.Err? <==> token !in sc.registry
    ensures r.Err? ==> r.error == UnknownService(token)
    ensures r.Ok? ==> r.value == BaseUrlOf(token, sc.registry[token], e)
  {
    var d :- ValidateServiceToken(sc, token);
    Ok(BaseUrlOf(token, d, e))
  }

  /** `getOpenapiUrl`: the base URL, a slash and the descriptor's document path. */
  function OpenapiUrl(sc: Config, token: string, e: Env): (r: Result<string>)
    ensures r.Err? <==> token !in sc.registry
    ensures r.Err? ==> r.error == UnknownService(token)
    ensures r.Ok? ==> BaseUrl(sc, token, e).Ok?
    ensures r.Ok? ==> var base := BaseUrl(sc, token, e).value;
                      && |base| < |r.value|
                      && r.value[..|base|] == base
                      && r.value[|base|..] == "/" + Template(sc.registry[token].openapiPath)
  {
    var d :- ValidateServiceToken(sc, token);
    Ok(BaseUrlOf(token, d, e) + "/" + Template(d.openapiPath))
  }

  /** With an environment domain the base URL carries no environment: it does
      not depend on ENV, ROOT_DOMAIN, PROD_ENV_TOKEN or the descriptor's envMap. */
  lemma EnvDomainIgnoresEnvironment(token: string, d1: Descriptor, d2: Descriptor, e1: Env, e2: Env)
    requires HasEnvDomain(e1) && e1.envDomain == e2.envDomain
    requires d1.apiSubdomain == d2.apiSubdomain && d1.apiVersion == d2.apiVersion
    ensures BaseUrlOf(token, d1, e1) == BaseUrlOf(token, d2, e2)
    ensures BaseUrlOf(token, d1, e1) == ServiceRoot(token, d1, e1.envDomain.value)
  {
  }

  /** Without an environment domain the base URL is the root-domain service
      root exactly when the effective environment is the production token;
      otherwise `-{effectiveEnv}` follows it. */
  lemma {:induction false} RootDomainSuffix(token: string, d: Descriptor, e: Env)
    requires !HasEnvDomain(e)
    ensures var root := ServiceRoot(token, d, Template(e.rootDomain));
            && (BaseUrlOf(token, d, e) == root <==> EffectiveEnv(d, e) == e.prodEnvToken)
            && (EffectiveEnv(d, e) != e.prodEnvToken ==>
                  BaseUrlOf(token, d, e) == root + "-" + Template(EffectiveEnv(d, e)))
  {
    var root := ServiceRoot(token, d, Template(e.rootDomain));
    if EffectiveEnv(d, e) != e.prodEnvToken {
      assert |BaseUrlOf(token, d, e)| > |root|;
    }
  }

  /** The string identity behind BaseUrlPathIsStackNameTail, for any parts. */
  lemma {:induction false} PathOfStack(scheme: string, sub: string, domain: string, token: string,
                                       version: string, env: string)
    ensures var stack := sub + "-" + token + "-" + version + "-" + env;
            var prefix := sub + "-";
            && |prefix| <= |stack| && stack[..|prefix|] == prefix
            && scheme + sub + "." + domain + "/" + token + "-" + version + ("-" + env)
               == scheme + sub + "." + domain + "/" + stack[|prefix|..]
  {
    var tail := token + "-" + version + "-" + env;
    var stack := sub + "-" + token + "-" + version + "-" + env;
    assert stack == (sub + "-") + tail;
    assert stack[|sub + "-"|..] == tail;
    assert token + "-" + version + ("-" + env) == tail;
  }

  /** Outside production and without an environment domain, the URL path of the
      base URL is the stack name with its leading `{apiSubdomain}-` removed. */
  lemma {:induction false} BaseUrlPathIsStackNameTail(token: string, d: Descriptor, e: Env)
    requires !HasEnvDomain(e) && EffectiveEnv(d, e) != e.prodEnvToken
    ensures var stack := StackNameOf(token, d, e);
            var prefix := Template(d.apiSubdomain) + "-";
            && |prefix| <= |stack| && stack[..|prefix|] == prefix
            && BaseUrlOf(token, d, e) ==
                 "https://" + Template(d.apiSubdomain) + "." + Template(e.rootDomain) + "/" + stack[|prefix|..]
  {
    var sub, version := Template(d.apiSubdomain), Template(d.apiVersion);
    var env, domain := Template(EffectiveEnv(d, e)), Template(e.rootDomain);
    assert EnvSuffix(d, e) == "-" + env;
    assert BaseUrlOf(token, d, e) == ServiceRoot(token, d, domain) + ("-" + env);
    assert StackNameOf(token, d, e) == sub + "-" + token + "-" + version + "-" + env;
    PathOfStack("https://", sub, domain, token, version, env);
  }

  // ---------------------------------------------------------------------------
  // The client builder
  // ---------------------------------------------------------------------------

  /** A client built from an OpenAPI document: an opaque handle and the
      operation names its document declares. */
  datatype Client = Client(handle: nat, operations: set<string>)

  /** The outcome of one build: a live client, or the empty object `{}`. */
  datatype BuildResult = Live(client: Client) | Empty

  /** What the client construction is given. */
  datatype ClientSpec = ClientSpec(definition: string, baseUrl: string, apiKey: string)

  /** The remote world at the time of a call: the API-key store queried by
      stack name, the client construction with its retries, and the client's
      operations. */
  datatype Backend = Backend(
    apiKeys: string -> seq<string>,
    construct: ClientSpec -> BuildResult,
    invoke: (Client, string, Value, Value, Value) -> Response)

  /** `getApiKey`: the first key whose name matches the stack name. */
  function ApiKey(sc: Config, token: string, e: Env, backend: Backend): (r: Result<string>)
    ensures token !in sc.registry ==> r == Err(UnknownService(token))
    ensures token in sc.registry ==>
              var keys := backend.apiKeys(StackNameOf(token, sc.registry[token], e));
              && (r.Ok? <==> keys != [])
              && (r.Ok? ==> r.value == keys[0])
              && (r.Err? ==> r.error == ApiKeyNotFound(StackNameOf(token, sc.registry[token], e)))
  {
    var stackName :- StackName(sc, token, e);
    var keys := backend.apiKeys(stackName);
    if |keys| == 0 then Err(ApiKeyNotFound(stackName)) else Ok(keys[0])
  }

  /** `getClient`: an unknown token throws before the guarded part; any failure
      of the key lookup or of the construction yields `{}`. */
  function GetClient(sc: Config, token: string, e: Env, backend: Backend): (r: Result<BuildResult>)
    ensures r.Err? <==> token !in sc.registry
    ensures r.Err? ==> r.error == UnknownService(token)
    ensures r.Ok? && ApiKey(sc, token, e, backend).Err? ==> r.value == Empty
    ensures r.Ok? && ApiKey(sc, token, e, backend).Ok? ==>
              r.value == backend.construct(ClientSpec(OpenapiUrl(sc, token, e).value,
                                                      BaseUrl(sc, token, e).value,
                                                      ApiKey(sc, token, e, backend).value))
  {
    var definition :- OpenapiUrl(sc, token, e);
    var baseUrl := BaseUrlOf(token, sc.registry[token], e);
    match ApiKey(sc, token, e, backend)
    case Err(_) => Ok(Empty)
    case Ok(key) => Ok(backend.construct(ClientSpec(definition, baseUrl, key)))
  }

  // ---------------------------------------------------------------------------
  // The token-to-client map
  // ---------------------------------------------------------------------------

  /** A map entry: a live client, or the registry descriptor when the build
      came back empty. */
  datatype Entry = Resolved(client: Client) | Fallback(descriptor: Descriptor)

  /** `entry?.api?.constructor.name === 'OpenAPIClientAxios'`. */
  predicate IsLive(entry: Entry) {
    entry.Resolved?
  }

  /** The entry stored for one registered token. */
  function ServiceEntry(sc: Config, token: string, e: Env, backend: Backend): (r: Entry)
    requires token in sc.registry
    ensures IsLive(r) <==> GetClient(sc, token, e, backend) != Ok(Empty)
    ensures IsLive(r) ==> GetClient(sc, token, e, backend) == Ok(Live(r.client))
    ensures !IsLive(r) ==> r == Fallback(sc.registry[token])
  {
    var built := GetClient(sc, token, e, backend).value;
    if built.Live? then Resolved(built.client) else Fallback(sc.registry[token])
  }

  /** `getServiceMap`: every registry token paired with its own build result. */
  function GetServiceMap(config: Value, e: Env, backend: Backend): (r: Result<map<string, Entry>>)
    ensures r.Ok? <==> ValidConfig(DefaultObject(config))
    ensures r.Err? ==> r.error == InvalidConfig
    ensures r.Ok? ==> r.value.Keys == DefaultObject(config).props.Keys
    ensures r.Ok? ==> forall t :: t in r.value ==>
              r.value[t] == ServiceEntry(New(config).value, t, e, backend)
  {
    var sc :- New(config);
    Ok(map t | t in sc.registry :: ServiceEntry(sc, t, e, backend))
  }

  /** A token whose build is live maps to that client; any other maps to the
      descriptor the registry gives it. */
  lemma ServiceMapEntries(config: Value, e: Env, backend: Backend, t: string)
    requires ValidConfig(DefaultObject(config)) && t in DefaultObject(config).props
    ensures var r := GetServiceMap(config, e, backend).value;
            var d := DescriptorOf(DefaultObject(config).props[t]);
            && t in r
            && (r[t].Resolved? <==> GetClient(New(config).value, t, e, backend).value.Live?)
            && (r[t].Fallback? ==> r[t].descriptor == d)
  {
  }

  // ---------------------------------------------------------------------------
  // The examples the test suite checks
  // ---------------------------------------------------------------------------

  function TestRegistryValue(): Value {
    Obj(map[
      "merchant" := Obj(map["apiSubdomain" := Str("api"), "apiVersion" := Str("v0"),
                            "openapiPath" := Str("doc/openapi")]),
      "user" := Obj(map["apiSubdomain" := Str("api2"), "apiVersion" := Str("v1"),
                        "openapiPath" := Str("doc/openapi2")])])
  }

  function TestEnv(env: string): Env {
    Env(Some(env), None, Some("veterancrowd.com"), Some("prod"))
  }

  /** An omitted registry is the empty one; `0` is not an object. */
  lemma ConstructorExamples()
    ensures New(Undefined) == Ok(Config(map[]))
    ensures New(Obj(map[])) == Ok(Config(map[]))
    ensures New(Num(0)) == Err(InvalidConfig)
    ensures New(Null) == Err(InvalidConfig)
  {
  }

  /** A key outside `[\w-]+` is rejected. */
  lemma BadKeyRejected()
    ensures New(Obj(map["a.b" := Obj(map[])])) == Err(InvalidConfig)
  {
    assert !IsServiceKey("a.b") by { assert "a.b"[1] == '.'; }
    assert "a.b" in Obj(map["a.b" := Obj(map[])]).props;
  }

  /** A descriptor field outside the four names is rejected. */
  lemma UnknownFieldRejected()
    ensures New(Obj(map["merchant" := Obj(map["apiKey" := Str("x")])])) == Err(InvalidConfig)
  {
    var m := Obj(map["merchant" := Obj(map["apiKey" := Str("x")])]);
    assert "merchant" in m.props && !ValidDescriptor(m.props["merchant"]) by {
      assert "apiKey" in m.props["merchant"].props;
      assert "apiKey" !in DescriptorFields by {
        assert "apiKey"[1] == 'p' && "apiSubdomain"[1] == 'p' && "apiVersion"[1] == 'p';
        assert "apiKey"[3] != "apiSubdomain"[3] && "apiKey"[3] != "apiVersion"[3];
        assert "apiKey"[0] != "envMap"[0] && "apiKey"[0] != "openapiPath"[0];
      }
    }
  }

  /** An envMap value that is not a string is rejected. */
  lemma NonStringEnvMapRejected()
    ensures New(Obj(map["merchant" := Obj(map["envMap" := Obj(map["dev" := Num(1)])])])) == Err(InvalidConfig)
  {
    var n := Obj(map["merchant" := Obj(map["envMap" := Obj(map["dev" := Num(1)])])]);
    assert "merchant" in n.props && !ValidDescriptor(n.props["merchant"]) by {
      var em := n.props["merchant"].props["envMap"];
      assert "envMap" in n.props["merchant"].props;
      assert "dev" in em.props && !em.props["dev"].Str?;
    }
  }

  /** A descriptor object with the three string fields and no envMap. */
  lemma PlainDescriptor(sub: string, version: string, path: string)
    ensures var v := Obj(map["apiSubdomain" := Str(sub), "apiVersion" := Str(version),
                             "openapiPath" := Str(path)]);
            && ValidDescriptor(v)
            && DescriptorOf(v) == Descriptor(Some(sub), Some(version), None, Some(path))
  {
    var v := Obj(map["apiSubdomain" := Str(sub), "apiVersion" := Str(version),
                     "openapiPath" := Str(path)]);
    assert v.props.Keys == {"apiSubdomain", "apiVersion", "openapiPath"};
    assert ValidDescriptor(v);
    assert "envMap" !in v.props;
    var d := DescriptorOf(v);
    assert d.apiSubdomain == Some(sub);
    assert d.apiVersion == Some(version);
    assert d.openapiPath == Some(path);
    assert d.envMap == None;
  }

  /** The typed registry of the test suite's configuration. */
  function TestConfig(): Config {
    Config(map[
      "merchant" := Descriptor(Some("api"), Some("v0"), None, Some("doc/openapi")),
      "user" := Descriptor(Some("api2"), Some("v1"), None, Some("doc/openapi2"))])
  }

  /** The constructor reads the test configuration as that typed registry. */
  lemma TestRegistry()
    ensures New(TestRegistryValue()) == Ok(TestConfig())
  {
    var v := TestRegistryValue();
    PlainDescriptor("api", "v0", "doc/openapi");
    PlainDescriptor("api2", "v1", "doc/openapi2");
    assert v.props.Keys == {"merchant", "user"};
    assert IsServiceKey("merchant") && IsServiceKey("user");
    assert ValidConfig(v);
    var r := New(v).value.registry;
    assert r.Keys == {"merchant", "user"};
    assert r["merchant"] == DescriptorOf(v.props["merchant"]);
    assert r["user"] == DescriptorOf(v.props["user"]);
    assert r == TestConfig().registry;
  }

  /** The effective environments the test suite relies on. */
  lemma TestDescriptors()
    ensures "merchant" in TestConfig().registry && "user" in TestConfig().registry
    ensures "billing" !in TestConfig().registry
    ensures var merchant := TestConfig().registry["merchant"];
            && Template(merchant.apiSubdomain) == "api" && Template(merchant.apiVersion) == "v0"
            && Template(merchant.openapiPath) == "doc/openapi"
            && EffectiveEnv(merchant, TestEnv("dev")) == Some("dev")
    ensures var user := TestConfig().registry["user"];
            && Template(user.apiSubdomain) == "api2" && Template(user.apiVersion) == "v1"
            && Template(user.openapiPath) == "doc/openapi2"
            && EffectiveEnv(user, TestEnv("prod")) == Some("prod")
  {
  }

  /** The service roots of the two test services under the test root domain. */
  lemma TestServiceRoots()
    ensures ServiceRoot("merchant", TestConfig().registry["merchant"], "veterancrowd.com")
            == "https://api.veterancrowd.com/merchant-v0"
    ensures ServiceRoot("user", TestConfig().registry["user"], "veterancrowd.com")
            == "https://api2.veterancrowd.com/user-v1"
  {
    TestDescriptors();
    assert "https://" + "api" + "." + "veterancrowd.com" == "https://api.veterancrowd.com";
    assert "https://api.veterancrowd.com" + "/" + "merchant" == "https://api.veterancrowd.com/merchant";
    assert "https://api.veterancrowd.com/merchant" + "-" + "v0" == "https://api.veterancrowd.com/merchant-v0";
    assert "https://" + "api2" + "." + "veterancrowd.com" == "https://api2.veterancrowd.com";
    assert "https://api2.veterancrowd.com" + "/" + "user" == "https://api2.veterancrowd.com/user";
    assert "https://api2.veterancrowd.com/user" + "-" + "v1" == "https://api2.veterancrowd.com/user-v1";
  }

  lemma BaseUrlDevExample()
    ensures BaseUrl(TestConfig(), "merchant", TestEnv("dev")) == Ok("https://api.veterancrowd.com/merchant-v0-dev")
  {
    TestDescriptors();
    TestServiceRoots();
    var merchant := TestConfig().registry["merchant"];
    assert Some("dev") != Some("prod") by { assert "dev"[0] != "prod"[0]; }
    assert EnvSuffix(merchant, TestEnv("dev")) == "-dev";
    assert "https://api.veterancrowd.com/merchant-v0" + "-dev" == "https://api.veterancrowd.com/merchant-v0-dev";
  }

  lemma BaseUrlProdExample()
    ensures BaseUrl(TestConfig(), "user", TestEnv("prod")) == Ok("https://api2.veterancrowd.com/user-v1")
  {
    TestDescriptors();
    TestServiceRoots();
    var user := TestConfig().registry["user"];
    assert EnvSuffix(user, TestEnv("prod")) == "";
    assert BaseUrlOf("user", user, TestEnv("prod")) == ServiceRoot("user", user, "veterancrowd.com");
  }

  lemma OpenapiUrlDevExample()
    ensures OpenapiUrl(TestConfig(), "merchant", TestEnv("dev")) == Ok("https://api.veterancrowd.com/merchant-v0-dev/doc/openapi")
  {
    TestDescriptors();
    BaseUrlDevExample();
    assert "https://api.veterancrowd.com/merchant-v0-dev" + "/" + "doc/openapi"
        == "https://api.veterancrowd.com/merchant-v0-dev/doc/openapi";
  }

  lemma OpenapiUrlProdExample()
    ensures OpenapiUrl(TestConfig(), "user", TestEnv("prod")) == Ok("https://api2.veterancrowd.com/user-v1/doc/openapi2")
  {
    TestDescriptors();
    BaseUrlProdExample();
    assert "https://api2.veterancrowd.com/user-v1" + "/" + "doc/openapi2"
        == "https://api2.veterancrowd.com/user-v1/doc/openapi2";
  }

  lemma StackNameExamples()
    ensures StackName(TestConfig(), "merchant", TestEnv("dev")) == Ok("api-merchant-v0-dev")
    ensures StackName(TestConfig(), "user", TestEnv("prod")) == Ok("api2-user-v1-prod")
    ensures StackName(TestConfig(), "billing", TestEnv("dev")) == Err(UnknownService("billing"))
  {
    TestDescriptors();
    assert "api" + "-" + "merchant" + "-" + "v0" + "-" + "dev" == "api-merchant-v0-dev";
    assert "api2" + "-" + "user" + "-" + "v1" + "-" + "prod" == "api2-user-v1-prod";
  }
}
