/** `openapiEndpoint`: argument checks, the apiKey header merged into the
    caller's config object, the split of `data` into query parameters and
    body, and the response rule applied to the abstract client call. */
module OpenApi {
  import opened Common

  /** The fields read from `options` (`config` is passed separately, as the
      object it is). */
  datatype Options = Options(
    auth: Value,
    definition: Value,
    operationId: Value,
    queryParams: Option<seq<string>>) // `queryParams = []`

  /** The arguments of `client[operationId](params, body, config)`, together
      with the definition the client is built from. */
  datatype PreparedCall = PreparedCall(
    definition: Value,
    operationId: Value,
    params: map<string, Value>,
    body: map<string, Value>,
    config: map<string, Value>)

  /** A plain JavaScript object whose own properties are updated in place. */
  class PlainObject {
    var props: map<string, Value>

    constructor (props: map<string, Value>)
      ensures this.props == props
    {
      this.props := props;
    }
  }

  // ---------------------------------------------------------------------------
  // Splitting `data`
  // ---------------------------------------------------------------------------

  /** `_.pick(data, queryParams)`: the listed keys that `data` has, with their
      values, set one path after the other. */
  function Pick(data: map<string, Value>, paths: seq<string>): (r: map<string, Value>)
    ensures forall k :: k in r <==> k in data && k in paths
    ensures forall k :: k in r ==> r[k] == data[k]
    decreases |paths|
  {
    if |paths| == 0 then
      map[]
    else
      var prior := Pick(data, paths[..|paths| - 1]);
      var path := paths[|paths| - 1];
      if path in data then prior[path := data[path]] else prior
  }

  /** `_.omit(data, queryParams)`: a copy of `data` from which the listed keys
      are unset, the last path first. */
  function Omit(data: map<string, Value>, paths: seq<string>): (r: map<string, Value>)
    ensures forall k :: k in r <==> k in data && k !in paths
    ensures forall k :: k in r ==> r[k] == data[k]
    decreases |paths|
  {
    if |paths| == 0 then
      data
    else
      Omit(data - {paths[|paths| - 1]}, paths[..|paths| - 1])
  }

  /** The query parameters and the body share no key and together are `data`. */
  lemma SplitPartition(data: map<string, Value>, paths: seq<string>)
    ensures Pick(data, paths).Keys !! Omit(data, paths).Keys
    ensures Pick(data, paths) + Omit(data, paths) == data
  {
    var p := Pick(data, paths);
    var o := Omit(data, paths);
    assert (p + o).Keys == data.Keys by {
      forall k | k in data
        ensures k in p + o
      {
        if k in paths { assert k in p; } else { assert k in o; }
      }
    }
  }

  // ---------------------------------------------------------------------------
  // Authentication and the request config
  // ---------------------------------------------------------------------------

  /** `config.headers ?? {}`, spread: the own properties of the headers object. */
  function HeadersOf(props: map<string, Value>): map<string, Value> {
    if "headers" in props then OwnProps(props["headers"]) else map[]
  }

  /** `config.headers = { ...(config.headers ?? {}), apiKey }` on the config's
      own properties. */
  function WithApiKey(props: map<string, Value>, apiKey: Value): (r: map<string, Value>)
    ensures r.Keys == props.Keys + {"headers"}
    ensures forall k :: k in props && k != "headers" ==> r[k] == props[k]
    ensures r["headers"].Obj?
    ensures r["headers"].props.Keys == HeadersOf(props).Keys + {"apiKey"}
    ensures r["headers"].props["apiKey"] == apiKey
    ensures forall h :: h in HeadersOf(props) && h != "apiKey" ==> r["headers"].props[h] == HeadersOf(props)[h]
  {
    props["headers" := Obj(HeadersOf(props)["apiKey" := apiKey])]
  }

  /** The `if (auth)` block: the config's own properties afterwards, or the
      error it throws. Only the `apiKey` type is supported; reading
      `auth.config.apiKey` throws when `auth.config` is nullish. */
  function Authorize(props: map<string, Value>, auth: Value): (r: Result<map<string, Value>>)
    ensures !Truthy(auth) ==> r == Ok(props)
    ensures Truthy(auth) && Prop(auth, "type") != Str("apiKey") ==>
              r == Err(UnsupportedAuthType(Prop(auth, "type")))
    ensures Truthy(auth) && Prop(auth, "type") == Str("apiKey") ==>
              var authConfig := Prop(auth, "config");
              && (IsNullish(authConfig) ==> r == Err(TypeError))
              && (!IsNullish(authConfig) ==> r == Ok(WithApiKey(props, Prop(authConfig, "apiKey"))))
  {
    if !Truthy(auth) then
      Ok(props)
    else if Prop(auth, "type") != Str("apiKey") then
      Err(UnsupportedAuthType(Prop(auth, "type")))
    else if IsNullish(Prop(auth, "config")) then
      Err(TypeError)
    else
      Ok(WithApiKey(props, Prop(Prop(auth, "config"), "apiKey")))
  }

  /** `{ ...config, validateStatus: null }`. */
  function CallConfig(props: map<string, Value>): (r: map<string, Value>)
    ensures r.Keys == props.Keys + {"validateStatus"}
    ensures r["validateStatus"] == Null
    ensures forall k :: k in props && k != "validateStatus" ==> r[k] == props[k]
  {
    props["validateStatus" := Null]
  }

  /** What a call of `openapiEndpoint` has done before the client is called:
      the caller's config afterwards and the call it makes. */
  datatype Prepared = Prepared(configAfter: map<string, Value>, call: PreparedCall)

  /** Everything `openapiEndpoint` does before the client call. The definition
      is checked first, then the operation id, then the auth block. */
  function Prepare(data: Option<map<string, Value>>, options: Options,
                   config: map<string, Value>): (r: Result<Prepared>)
    ensures !Truthy(options.definition) ==> r == Err(MissingDefinition)
    ensures Truthy(options.definition) && !Truthy(options.operationId) ==> r == Err(MissingOperationId)
    ensures (Truthy(options.definition) && Truthy(options.operationId)) ==>
              && (Authorize(config, options.auth).Err? ==> r == Err(Authorize(config, options.auth).error))
              && (Authorize(config, options.auth).Ok? ==>
                    (r.Ok? && r.value.configAfter == Authorize(config, options.auth).value))
    ensures r.Ok? ==>
              var d := data.GetOr(map[]);
              var qp := options.queryParams.GetOr([]);
              && r.value.call.definition == options.definition
              && r.value.call.operationId == options.operationId
              && r.value.call.params == Pick(d, qp)
              && r.value.call.body == Omit(d, qp)
              && r.value.call.config == CallConfig(r.value.configAfter)
  {
    if !Truthy(options.definition) then
      Err(MissingDefinition)
    else if !Truthy(options.operationId) then
      Err(MissingOperationId)
    else
      var after :- Authorize(config, options.auth);
      var d := data.GetOr(map[]);
      var qp := options.queryParams.GetOr([]);
      Ok(Prepared(after, PreparedCall(options.definition, options.operationId,
                                      Pick(d, qp), Omit(d, qp), CallConfig(after))))
  }

  /** `openapiEndpoint({ data, options })` with `options.config` the object
      `config` (`null` when omitted, so the default `{}` is used). The apiKey
      header is written into the caller's object itself; the client call is
      the abstract `call`. */
  method Endpoint(data: Option<map<string, Value>>, options: Options, config: PlainObject?,
                  call: PreparedCall -> Response) returns (r: Result<Value>)
    modifies config
    ensures var p := Prepare(data, options, if config == null then map[] else old(config.props));
            && (p.Err? ==> r == Err(p.error) && (config != null ==> config.props == old(config.props)))
            && (p.Ok? ==> r == Settle(call(p.value.call)) && (config != null ==> config.props == p.value.configAfter))
  {
    var cfg: PlainObject;
    if config == null {
      cfg := new PlainObject(map[]);
    } else {
      cfg := config;
    }
    if !Truthy(options.definition) {
      return Err(MissingDefinition);
    }
    if !Truthy(options.operationId) {
      return Err(MissingOperationId);
    }
    if Truthy(options.auth) {
      var authType := Prop(options.auth, "type");
      if authType != Str("apiKey") {
        return Err(UnsupportedAuthType(authType));
      }
      var authConfig := Prop(options.auth, "config");
      if IsNullish(authConfig) {
        return Err(TypeError);
      }
      cfg.props := WithApiKey(cfg.props, Prop(authConfig, "apiKey"));
    }
    var d := data.GetOr(map[]);
    var qp := options.queryParams.GetOr([]);
    var prepared := PreparedCall(options.definition, options.operationId,
                                 Pick(d, qp), Omit(d, qp), CallConfig(cfg.props));
    r := Settle(call(prepared));
  }

  // ---------------------------------------------------------------------------
  // Properties of the preparation
  // ---------------------------------------------------------------------------

  /** A missing definition is reported whatever the operation id and auth. */
  lemma DefinitionCheckedFirst(data: Option<map<string, Value>>, options: Options,
                               config: map<string, Value>, operationId: Value, auth: Value)
    requires !Truthy(options.definition)
    ensures Prepare(data, options, config) == Err(MissingDefinition)
    ensures Prepare(data, options.(operationId := operationId, auth := auth), config) == Err(MissingDefinition)
  {
  }

  /** Every argument error is a BadRequest, except a nullish `auth.config`. */
  lemma ArgumentErrorsAreBadRequests(data: Option<map<string, Value>>, options: Options,
                                     config: map<string, Value>)
    requires Prepare(data, options, config).Err?
    ensures IsBadRequest(Prepare(data, options, config).error) ||
            Prepare(data, options, config).error == TypeError
  {
  }

  /** With apiKey auth the request headers carry the key and keep every other
      header the caller had; the rest of the config is passed on. */
  lemma {:induction false} ApiKeyHeaderMerged(data: Option<map<string, Value>>, options: Options,
                                              config: map<string, Value>)
    requires Prepare(data, options, config).Ok?
    requires Truthy(options.auth) && Prop(options.auth, "type") == Str("apiKey")
    ensures var sent := Prepare(data, options, config).value.call.config;
            var authConfig := Prop(options.auth, "config");
            && !IsNullish(authConfig)
            && "headers" in sent && sent["headers"].Obj?
            && sent["headers"].props["apiKey"] == Prop(authConfig, "apiKey")
            && (forall h :: h in HeadersOf(config) ==> h in sent["headers"].props)
            && (forall h :: h in HeadersOf(config) && h != "apiKey" ==>
                  sent["headers"].props[h] == HeadersOf(config)[h])
            && (forall k :: k in config && k != "headers" && k != "validateStatus" ==> sent[k] == config[k])
  {
    var authConfig := Prop(options.auth, "config");
    assert Authorize(config, options.auth).Ok?;
    assert !IsNullish(authConfig);
    var after := WithApiKey(config, Prop(authConfig, "apiKey"));
    assert Prepare(data, options, config).value.configAfter == after;
    assert CallConfig(after)["headers"] == after["headers"];
  }

  /** Without auth the caller's config is passed on unchanged apart from
      `validateStatus`, headers included. */
  lemma NoAuthConfigUntouched(data: Option<map<string, Value>>, options: Options,
                              config: map<string, Value>)
    requires Truthy(options.definition) && Truthy(options.operationId) && !Truthy(options.auth)
    ensures Prepare(data, options, config).Ok?
    ensures Prepare(data, options, config).value.configAfter == config
    ensures Prepare(data, options, config).value.call.config == config["validateStatus" := Null]
  {
  }

  /** The call receives the whole of `data`, split into disjoint parts. */
  lemma DataSplitIntoCall(data: map<string, Value>, options: Options, config: map<string, Value>)
    requires Prepare(Some(data), options, config).Ok?
    ensures var call := Prepare(Some(data), options, config).value.call;
            && call.params.Keys !! call.body.Keys
            && call.params + call.body == data
            && forall k :: k in call.params <==> k in data && k in options.queryParams.GetOr([])
  {
    SplitPartition(data, options.queryParams.GetOr([]));
  }
}
