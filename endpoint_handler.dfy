/** `ServiceConfig.getServiceEndpointHandler`: a handler that serves a request
    from its service map, rebuilding one token's client on a miss and caching
    it, and applies the response rule to the operation's result. */
module EndpointHandler {
  import opened Common
  import opened ServiceConfig
  import ServiceMap

  /** The handler's single argument `{ config, data, operationId, params, serviceToken }`. */
  datatype Request = Request(
    config: Value,
    data: Value,
    operationId: string,
    params: Value,
    serviceToken: string)

  /** `serviceMap[serviceToken]?.api?.constructor.name === 'OpenAPIClientAxios'`. */
  predicate IsCachedLive(entries: map<string, Entry>, token: string) {
    token in entries && IsLive(entries[token])
  }

  /** `serviceConfig[serviceToken]` is truthy (a property read, so a nullish
      registry throws before this test). */
  predicate Registered(serviceConfig: Value, token: string) {
    !IsNullish(serviceConfig) && Truthy(Prop(serviceConfig, token))
  }

  /** `_.pick(serviceConfig, [serviceToken])` for a registered token. */
  function Picked(serviceConfig: Value, token: string): (r: Value)
    requires Registered(serviceConfig, token)
    ensures r.Obj? && r.props.Keys == {token}
    ensures r.props[token] == Prop(serviceConfig, token)
  {
    Obj(map[token := serviceConfig.props[token]])
  }

  /** The service map after the resolution step of one request, or the error
      that step throws. A live cached entry is used as it is; otherwise only
      the requested token is rebuilt from its own registry entry, and only a
      live rebuild is written back. */
  function Resolve(entries: map<string, Entry>, serviceConfig: Value, token: string,
                   env: Env, backend: Backend): (r: Result<map<string, Entry>>)
    ensures IsCachedLive(entries, token) ==> r == Ok(entries)
    ensures !IsCachedLive(entries, token) && IsNullish(serviceConfig) ==> r == Err(TypeError)
    ensures !IsCachedLive(entries, token) && !IsNullish(serviceConfig) && !Registered(serviceConfig, token) ==>
              r == Err(UnknownService(token))
    ensures (!IsCachedLive(entries, token) && Registered(serviceConfig, token) &&
             !ValidConfig(Picked(serviceConfig, token))) ==> r == Err(InvalidConfig)
  {
    if IsCachedLive(entries, token) then
      Ok(entries)
    else if IsNullish(serviceConfig) then
      Err(TypeError)
    else if !Registered(serviceConfig, token) then
      Err(UnknownService(token))
    else
      var single :- GetServiceMap(Picked(serviceConfig, token), env, backend);
      if IsCachedLive(single, token) then
        Ok(entries[token := single[token]])
      else
        Err(UnresolvedService(token))
  }

  /** A successful resolution leaves the token live, adds at most that token,
      and keeps every other entry as it was. */
  lemma {:induction false} ResolveFrame(entries: map<string, Entry>, serviceConfig: Value, token: string,
                                        env: Env, backend: Backend)
    requires Resolve(entries, serviceConfig, token, env, backend).Ok?
    ensures var r := Resolve(entries, serviceConfig, token, env, backend).value;
            && IsCachedLive(r, token)
            && r.Keys == entries.Keys + {token}
            && forall t :: t in entries && t != token ==> r[t] == entries[t]
  {
    if !IsCachedLive(entries, token) {
      var single := GetServiceMap(Picked(serviceConfig, token), env, backend).value;
      var r := entries[token := single[token]];
      assert Resolve(entries, serviceConfig, token, env, backend).value == r;
      assert IsCachedLive(single, token);
      assert r.Keys == entries.Keys + {token};
    }
  }

  /** On a miss for a registered token, the outcome follows the rebuild of that
      token alone: a live build is cached, any other build is an unresolved
      service. */
  lemma {:induction false} RebuildOutcome(entries: map<string, Entry>, serviceConfig: Value, token: string,
                                          env: Env, backend: Backend)
    requires !IsCachedLive(entries, token) && Registered(serviceConfig, token)
    requires ValidConfig(Picked(serviceConfig, token))
    ensures var built := GetClient(New(Picked(serviceConfig, token)).value, token, env, backend).value;
            var r := Resolve(entries, serviceConfig, token, env, backend);
            && (r.Ok? <==> built.Live?)
            && (r.Err? ==> r.error == UnresolvedService(token))
            && (r.Ok? ==> built == Live(r.value[token].client))
  {
    var picked := Picked(serviceConfig, token);
    var single := GetServiceMap(picked, env, backend);
    assert single.Ok? && token in single.value;
    assert single.value[token] == ServiceEntry(New(picked).value, token, env, backend);
  }

  /** `serviceMap[serviceToken][operationId](params, data, config)` followed by
      the response rule. Calling a member the client does not have throws. */
  function Dispatch(client: Client, req: Request, backend: Backend): (r: Result<Value>)
    ensures req.operationId !in client.operations ==> r == Err(NotAnOperation(req.operationId))
    ensures req.operationId in client.operations ==>
              var response := backend.invoke(client, req.operationId, req.params, req.data, req.config);
              && (r.Ok? <==> response.status < 400)
              && (r.Ok? ==> r.value == response.data)
              && (r.Err? ==> r.error == Upstream(response.status, response.statusText, response.data))
  {
    if req.operationId !in client.operations then
      Err(NotAnOperation(req.operationId))
    else
      Settle(backend.invoke(client, req.operationId, req.params, req.data, req.config))
  }

  /** The closure `getServiceEndpointHandler` returns, with the service map and
      registry it captured. */
  class Handler {
    const serviceMap: ServiceMap.ServiceMap
    const serviceConfig: Value

    /** `getServiceEndpointHandler(serviceMap = {}, serviceConfig = {}, options)`. */
    constructor (serviceMap: ServiceMap.ServiceMap?, serviceConfig: Value)
      ensures serviceMap != null ==> this.serviceMap == serviceMap
      ensures serviceMap == null ==> fresh(this.serviceMap) && this.serviceMap.entries == map[]
      ensures this.serviceConfig == DefaultObject(serviceConfig)
    {
      if serviceMap == null {
        this.serviceMap := new ServiceMap.ServiceMap();
      } else {
        this.serviceMap := serviceMap;
      }
      this.serviceConfig := DefaultObject(serviceConfig);
    }

    /** One call of the handler: resolve the token (writing a live rebuild into
        the shared map), then invoke the operation on the cached client. */
    method Handle(req: Request, env: Env, backend: Backend) returns (r: Result<Value>)
      modifies serviceMap
      ensures var resolved := Resolve(old(serviceMap.entries), serviceConfig, req.serviceToken, env, backend);
              && (resolved.Err? ==> r == Err(resolved.error) && serviceMap.entries == old(serviceMap.entries))
              && (resolved.Ok? ==> serviceMap.entries == resolved.value &&
                                   r == Dispatch(resolved.value[req.serviceToken].client, req, backend))
    {
      var token := req.serviceToken;
      if !IsCachedLive(serviceMap.entries, token) {
        if IsNullish(serviceConfig) {
          return Err(TypeError);
        }
        if !Registered(serviceConfig, token) {
          return Err(UnknownService(token));
        }
        var single := GetServiceMap(Picked(serviceConfig, token), env, backend);
        if single.Err? {
          return Err(single.error);
        }
        if !IsCachedLive(single.value, token) {
          return Err(UnresolvedService(token));
        }
        // A live rebuild is written back into the shared map.
        serviceMap.entries := serviceMap.entries[token := single.value[token]];
      }
      r := Dispatch(serviceMap.entries[token].client, req, backend);
    }
  }

  /** Once a token's entry is live, resolving it again builds nothing: the
      result does not depend on the backend and the map is unchanged. */
  lemma NoRebuildAfterLive(entries: map<string, Entry>, serviceConfig: Value, token: string,
                           env1: Env, backend1: Backend, env2: Env, backend2: Backend)
    requires IsCachedLive(entries, token)
    ensures Resolve(entries, serviceConfig, token, env1, backend1) == Ok(entries)
    ensures Resolve(entries, serviceConfig, token, env1, backend1) ==
            Resolve(entries, serviceConfig, token, env2, backend2)
  {
  }

  /** Resolution is idempotent: after a successful resolution a second one,
      against any backend, leaves the map as it is. */
  lemma {:induction false} ResolveIdempotent(entries: map<string, Entry>, serviceConfig: Value, token: string,
                                             env1: Env, backend1: Backend, env2: Env, backend2: Backend)
    requires Resolve(entries, serviceConfig, token, env1, backend1).Ok?
    ensures var once := Resolve(entries, serviceConfig, token, env1, backend1).value;
            Resolve(once, serviceConfig, token, env2, backend2) == Ok(once)
  {
    var once := Resolve(entries, serviceConfig, token, env1, backend1).value;
    ResolveFrame(entries, serviceConfig, token, env1, backend1);
    NoRebuildAfterLive(once, serviceConfig, token, env2, backend2, env2, backend2);
  }

  /** A live entry is never replaced or dropped by resolution of any token. */
  lemma LiveEntriesKept(entries: map<string, Entry>, serviceConfig: Value, token: string,
                        env: Env, backend: Backend, t: string)
    requires IsCachedLive(entries, t)
    requires Resolve(entries, serviceConfig, token, env, backend).Ok?
    ensures Resolve(entries, serviceConfig, token, env, backend).value[t] == entries[t]
  {
    ResolveFrame(entries, serviceConfig, token, env, backend);
  }

  /** On a miss for an unregistered token, resolution fails, and the failure
      does not depend on the key store or the client builder: it is reached
      before any build. */
  lemma UnknownTokenNeverBuilt(entries: map<string, Entry>, serviceConfig: Value, token: string,
                               env: Env, backend: Backend)
    requires !IsCachedLive(entries, token) && !Registered(serviceConfig, token)
    ensures Resolve(entries, serviceConfig, token, env, backend).Err?
    ensures Resolve(entries, serviceConfig, token, env, backend) ==
            Resolve(entries, serviceConfig, token, env, Backend(_ => [], _ => Empty, backend.invoke))
  {
  }
}
