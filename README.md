# Service resolution layer, modelled in Dafny

This project models the part of the library that resolves internal services
and calls them.

- **Registry.** A service registry maps a service token to a descriptor: `apiSubdomain`, `apiVersion`, an optional `envMap` from environment names to environment names, and `openapiPath`. It is checked against a closed schema.
- **Naming.** The naming rules turn a token and the process environment (`ENV`, `ENV_DOMAIN`, `ROOT_DOMAIN`, `PROD_ENV_TOKEN`) into a stack name, a base URL and an OpenAPI document URL.
- **Service map.** `getServiceMap` and the `ServiceMap` singleton's `init` pair every token with a live OpenAPI client. When the build comes back as `{}`, the token is paired with its registry descriptor instead.
- **Endpoint handler.** The handler returned by `getServiceEndpointHandler` serves a request from that map. On a miss it rebuilds the requested token only, and caches the client when it is live.
- **`openapiEndpoint`.** It checks its arguments, merges an `apiKey` header into the caller's config object, and splits `data` into query parameters and body. It forces `validateStatus` to null.
- **Response rule.** Both callers apply the same rule: a status of 400 or more is an error carrying status, status text and body, and otherwise only the body is returned.

Modules:

- **`Common`** (`common.dfy`)
  - JavaScript values, including `undefined`, with truthiness, nullishness, property reads and template rendering.
  - The errors the layer throws.
  - The response rule `Settle`.
- **`ServiceConfig`** (`service_config.dfy`)
  - The schema as predicates, and the constructor `New`.
  - The naming functions and the API-key lookup.
  - The client builder `GetClient`, the map entry `ServiceEntry` and `GetServiceMap`.
  - The test suite's examples as lemmas.
- **`ServiceMap`** (`service_map.dfy`)
  - The class `ServiceMap`, whose `entries` field holds the object's own properties. `Clear` removes them one at a time and `Init` re-initialises them.
  - The build loop `BuildEntries`.
  - `InstanceSlot`, which holds the static `#instance` field, and its lazy getter.
- **`EndpointHandler`** (`endpoint_handler.dfy`)
  - The resolution step as the function `Resolve`, and the operation call as `Dispatch`.
  - The class `Handler`. Its method `Handle` writes a live rebuild into the shared `ServiceMap` object and is proved against `Resolve` and `Dispatch`.
- **`OpenApi`** (`openapi.dfy`)
  - lodash `pick` and `omit` over own keys.
  - The auth block `Authorize` and the request config `CallConfig`.
  - The whole preparation as `Prepare`.
  - The method `Endpoint`, which writes the header into the caller's `PlainObject` config in place and is proved against `Prepare` and `Settle`.

The outside world is an explicit argument:

- The environment variables are an `Env` value.
- The API Gateway key store, the OpenAPI client construction with its retries, and the client's operations are the function fields of a `Backend` value.
- In `openapiEndpoint`, the client call is a function from the prepared call to a response.

Nothing else in the model depends on these.

Two consequences of the handler's code are worth noting:

- **Rebuilds.** Every request that finds a non-live entry rebuilds that token, and a non-live rebuild is never cached, so the next request builds again (`EndpointHandler.Resolve`).
- **Unregistered tokens.** The registry is consulted only on a miss, so a live entry is served even for a token the handler's registry does not list (`EndpointHandler.NoRebuildAfterLive`).

## Model

| member | source | states |
|---|---|---|
| Common.Settle | lib/ServiceConfig.js:77-87 | a status of 400 or more gives an error carrying status, status text and body; a smaller status gives exactly the response body |
| Common.Prop | lib/openapi.js:37 | a property read on a non-nullish value gives the object's own property when present and undefined otherwise (strings and arrays read as having no properties, see Left out) |
| ServiceConfig.New | lib/ServiceConfig.js:9-38 | an omitted registry is `{}`; construction succeeds iff the registry is an object whose keys match `^[\w-]+$` and whose values are objects with only the four allowed fields, each a string or undefined (envMap: undefined or an object of strings); any other registry fails with the invalid-config error; the accepted registry has exactly the given keys, each read as its descriptor |
| ServiceConfig.DescriptorOf | lib/ServiceConfig.js:12-21 | the typed descriptor agrees field by field with the validated descriptor object (absent or undefined field gives None) |
| ServiceConfig.DescriptorRoundTrip | lib/ServiceConfig.js:12-21 | every typed descriptor, written back as an object, passes the descriptor schema and reads back as itself |
| ServiceConfig.DescriptorValueOf | lib/ServiceConfig.js:12-21 | a valid descriptor object without undefined fields is reproduced exactly from its typed descriptor |
| ServiceConfig.ValidateServiceToken | lib/ServiceConfig.js:121-124 | succeeds iff the token is registered, giving its descriptor; otherwise fails with Unknown serviceToken naming the token |
| ServiceConfig.EffectiveEnv | lib/ServiceConfig.js:178-181 | the effective environment is `envMap[ENV]` when that key is present (envMap defaulting to `{}`, unset ENV looked up as "undefined") and ENV otherwise |
| ServiceConfig.StackName | lib/ServiceConfig.js:202-214 | fails with Unknown serviceToken iff the token is unregistered; otherwise `{apiSubdomain}-{token}-{apiVersion}-{effectiveEnv}` |
| ServiceConfig.BaseUrl | lib/ServiceConfig.js:172-192 | fails with Unknown serviceToken iff the token is unregistered; otherwise the base URL of the token's descriptor under the environment |
| ServiceConfig.OpenapiUrl | lib/ServiceConfig.js:194-200 | fails with Unknown serviceToken iff the token is unregistered; otherwise the base URL is a proper prefix and the rest is exactly "/" followed by openapiPath |
| ServiceConfig.EnvDomainIgnoresEnvironment | lib/ServiceConfig.js:184-185 | with ENV_DOMAIN set, the base URL is `https://{apiSubdomain}.{ENV_DOMAIN}/{token}-{apiVersion}` and does not depend on ENV, envMap, ROOT_DOMAIN or PROD_ENV_TOKEN |
| ServiceConfig.RootDomainSuffix | lib/ServiceConfig.js:187-191 | without ENV_DOMAIN, the base URL is the root-domain service root exactly when the effective environment equals PROD_ENV_TOKEN, and otherwise that root followed by `-{effectiveEnv}` |
| ServiceConfig.PathOfStack | lib/ServiceConfig.js:187-191 | the string identity these URLs rest on: the path `{token}-{apiVersion}-{env}` is the stack name without its leading `{apiSubdomain}-` |
| ServiceConfig.BaseUrlPathIsStackNameTail | lib/ServiceConfig.js:187-191 | outside production and without ENV_DOMAIN, the base URL's path is the stack name minus its `{apiSubdomain}-` prefix |
| ServiceConfig.ApiKey | lib/ServiceConfig.js:150-170 | an unregistered token fails with Unknown serviceToken; otherwise the first key found under the stack name, or Unable to find API Key naming the stack name when there is none |
| ServiceConfig.GetClient | lib/ServiceConfig.js:126-148 | an unregistered token fails before the guarded part; a failed key lookup yields `{}`; otherwise the construction is given the OpenAPI URL, the base URL and the key |
| ServiceConfig.ServiceEntry | lib/ServiceConfig.js:104 | the entry is live iff the build is not `{}`, and then holds the built client; otherwise it is the token's registry descriptor |
| ServiceConfig.GetServiceMap | lib/ServiceConfig.js:91-108 | fails with the invalid-config error iff the registry is invalid; otherwise its keys are exactly the registry's keys and each token is paired with its own build result |
| ServiceConfig.ServiceMapEntries | lib/ServiceConfig.js:96-107 | every registry token is in the map; its entry is live iff its own build came back live, and is its own descriptor otherwise |
| ServiceConfig.ConstructorExamples | lib/ServiceConfig.test.js:30-44 | an omitted registry and `{}` are accepted as empty registries; `0` and null are rejected |
| ServiceConfig.BadKeyRejected | lib/ServiceConfig.js:11-12 | a registry key with a dot is rejected |
| ServiceConfig.UnknownFieldRejected | lib/ServiceConfig.js:20 | a descriptor field outside the four names is rejected |
| ServiceConfig.NonStringEnvMapRejected | lib/ServiceConfig.js:17 | an envMap value that is not a string is rejected |
| ServiceConfig.PlainDescriptor | lib/ServiceConfig.js:13-19 | a descriptor object with the three string fields is valid and reads as the descriptor with those fields and no envMap |
| ServiceConfig.TestRegistry | lib/ServiceConfig.test.js:7-18 | the test suite's configuration is accepted and read as its merchant and user descriptors |
| ServiceConfig.TestDescriptors | lib/ServiceConfig.test.js:7-27 | the descriptor fields of the test services and their effective environments under ENV=dev and ENV=prod |
| ServiceConfig.TestServiceRoots | lib/ServiceConfig.test.js:70-87 | the root-domain service roots of merchant and user are `https://api.veterancrowd.com/merchant-v0` and `https://api2.veterancrowd.com/user-v1` |
| ServiceConfig.BaseUrlDevExample | lib/ServiceConfig.test.js:71-77 | merchant under ENV=dev has base URL `https://api.veterancrowd.com/merchant-v0-dev` |
| ServiceConfig.BaseUrlProdExample | lib/ServiceConfig.test.js:79-86 | user under ENV=prod has base URL `https://api2.veterancrowd.com/user-v1` |
| ServiceConfig.OpenapiUrlDevExample | lib/ServiceConfig.test.js:90-96 | merchant under ENV=dev has OpenAPI URL `https://api.veterancrowd.com/merchant-v0-dev/doc/openapi` |
| ServiceConfig.OpenapiUrlProdExample | lib/ServiceConfig.test.js:98-105 | user under ENV=prod has OpenAPI URL `https://api2.veterancrowd.com/user-v1/doc/openapi2` |
| ServiceConfig.StackNameExamples | lib/ServiceConfig.test.js:108-122 | the stack names `api-merchant-v0-dev` and `api2-user-v1-prod`; an unregistered token fails with Unknown serviceToken |
| ServiceMap.ServiceMap.constructor | lib/ServiceMap.js:11 | a new service map has no own properties |
| ServiceMap.ServiceMap.Clear | lib/ServiceMap.js:17 | removing own properties one at a time ends with none left |
| ServiceMap.ServiceMap.Init | lib/ServiceMap.js:15-36 | for a valid registry the map afterwards is exactly `getServiceMap` of it, so entries from before the call are gone; for an invalid one `init` fails with the invalid-config error and leaves the map empty, because clearing comes first |
| ServiceMap.BuildEntries | lib/ServiceMap.js:21-35 | the built properties have exactly the registry's keys, each paired with its own build result (live client, or its descriptor) |
| ServiceMap.SameServiceMap | lib/ServiceMap.js:21-35 | properties built that way are exactly what `getServiceMap` returns for the same registry |
| ServiceMap.SameEntries | lib/ServiceMap.js:29-35 | two token maps with the registry's keys and the same per-token entries are equal |
| ServiceMap.InstanceSlot.constructor | lib/ServiceMap.js:8 | before first access no instance exists |
| ServiceMap.InstanceSlot.Instance | lib/ServiceMap.js:10-13 | the first access creates a fresh, empty instance; every later access returns the stored instance |
| ServiceMap.AccessTwice | lib/ServiceMap.js:10-13 | two accesses return one and the same object, which is the stored one, and the second creates nothing |
| EndpointHandler.Picked | lib/ServiceConfig.js:54-55 | `_.pick(serviceConfig, [token])` of a registered token has that token as its only key, with its registry value |
| EndpointHandler.Resolve | lib/ServiceConfig.js:45-68 | a live cached entry is used without a build; otherwise a nullish registry throws a TypeError, an unregistered token fails with Unknown serviceToken before any build, and an invalid picked registry fails with the invalid-config error |
| EndpointHandler.ResolveFrame | lib/ServiceConfig.js:60-67 | after a successful resolution the token's entry is live, the map gains at most that token, and every other entry is unchanged |
| EndpointHandler.RebuildOutcome | lib/ServiceConfig.js:54-67 | on a miss for a registered token, resolution succeeds iff the rebuild of that token alone is live, caching exactly the built client; otherwise it fails with Unable to resolve |
| EndpointHandler.Dispatch | lib/ServiceConfig.js:70-87 | a member the client does not have is an error; otherwise the operation's response under the response rule |
| EndpointHandler.Handler.constructor | lib/ServiceConfig.js:40-44 | an omitted service map is a fresh empty one and an omitted registry is `{}` |
| EndpointHandler.Handler.Handle | lib/ServiceConfig.js:45-88 | a failed resolution leaves the shared map unchanged and is the handler's error; a successful one is written into the shared map, and the result is the operation's outcome on the cached client |
| EndpointHandler.NoRebuildAfterLive | lib/ServiceConfig.js:47-49 | with a live entry, resolution returns the map unchanged whatever the environment and backend |
| EndpointHandler.ResolveIdempotent | lib/ServiceConfig.js:47-67 | after a successful resolution, resolving the same token again against any backend changes nothing |
| EndpointHandler.LiveEntriesKept | lib/ServiceConfig.js:67 | a live entry of any token is never replaced or dropped by a successful resolution |
| EndpointHandler.UnknownTokenNeverBuilt | lib/ServiceConfig.js:51-52 | on a miss for an unregistered token, resolution fails and does not depend on the key store or the builder |
| OpenApi.PlainObject.constructor | lib/openapi.js:27 | a new plain object has the given properties |
| OpenApi.Pick | lib/openapi.js:54 | the query parameters hold exactly the listed keys that data has, with data's values |
| OpenApi.Omit | lib/openapi.js:55 | the body holds exactly data's keys that are not listed, with data's values |
| OpenApi.SplitPartition | lib/openapi.js:54-55 | query parameters and body have disjoint keys and together are exactly data |
| OpenApi.WithApiKey | lib/openapi.js:39-42 | the headers afterwards are the previous own headers (an absent or nullish headers value counting as none) plus `apiKey`, every other header and every other config key unchanged |
| OpenApi.Authorize | lib/openapi.js:36-50 | no auth leaves the config as it is; a type other than `apiKey` fails as a BadRequest naming the type; apiKey with a nullish `auth.config` throws a TypeError; otherwise the key is merged into the headers |
| OpenApi.CallConfig | lib/openapi.js:56 | the call config is the caller's config with `validateStatus` set to null and every other key kept |
| OpenApi.Prepare | lib/openapi.js:21-57 | a missing definition fails first, then a missing operationId, then the auth errors; on success the call gets the definition, the operationId, the picked params, the omitted body and the call config of the authorised config |
| OpenApi.Endpoint | lib/openapi.js:21-76 | an argument error leaves the caller's config untouched and is the result; otherwise the caller's config object is updated to the authorised config and the result is the client's response under the response rule |
| OpenApi.DefinitionCheckedFirst | lib/openapi.js:30-34 | a missing definition is reported whatever the operationId and auth |
| OpenApi.ArgumentErrorsAreBadRequests | lib/openapi.js:30-49 | every preparation error is a BadRequest, apart from the TypeError of a nullish `auth.config` |
| OpenApi.ApiKeyHeaderMerged | lib/openapi.js:36-44 | with apiKey auth the sent headers carry `auth.config.apiKey` and keep every header the caller had, and the other config keys are passed on |
| OpenApi.NoAuthConfigUntouched | lib/openapi.js:36 | without auth the caller's config is unchanged and is sent with only `validateStatus` added |
| OpenApi.DataSplitIntoCall | lib/openapi.js:53-55 | the call's params and body are disjoint, together are data, and the params are exactly data's listed keys |

## Left out

- The `getApiKey` body, an API Gateway SDK call, is abstract. `Backend.apiKeys` gives the keys found for a stack name, and the region setting is not modelled.
- OpenAPI client construction and the `backOff` retry are abstract: `Backend.construct` turns a client spec into a live client or `{}`. Its options are not modelled, and neither are exceptions raised outside the guarded part.
- In `openapiEndpoint`, building the client from the definition and calling its operation are abstract: `call` maps the prepared call to a response. A construction failure or a missing operation on that client is not modelled.
- Rejected operation calls are not modelled. `Backend.invoke` in the endpoint handler and `call` in `openapiEndpoint` always return a response. In the source, the operation call at lib/ServiceConfig.js:71 and at lib/openapi.js:53 can reject, and that rejection passes through both callers unchanged.
- `Promise.all` runs the builds concurrently. The model builds them one after another, and the order of JavaScript object keys is not modelled.
- Each handler call and each `init` is one step that no other call interleaves with.
  - In the source, both stop part-way. The handler tests the cache (lib/ServiceConfig.js:47-48), awaits the rebuild (:54) and only then writes (:67). `init` clears the map (lib/ServiceMap.js:17) before it awaits the builds (:24).
  - So two concurrent calls that miss on one token can both rebuild, and the later write replaces the client the earlier one cached. A handler call made during `init` sees the cleared map.
  - `EndpointHandler.NoRebuildAfterLive`, `EndpointHandler.ResolveIdempotent` and `EndpointHandler.LiveEntriesKept` hold only for calls that do not overlap.
- Logging and the X-Ray instrumentation are not part of this model, and neither is `isMochaRunning`.
- lib/getCognitoUserId.js, lib/wrapCognitoEndpointHandler.js and lib/index.js are not part of this model.
- The error objects from http-errors are not modelled. An upstream error carries the raw status, status text and body, without status normalisation or `JSON.stringify`.
- Common.Prop: a string or an array is read as having no properties. JavaScript reads their index properties and `length`. So the handler's registry is taken to be an object or nullish. For example, a registry array `[{…}]` with token `"0"` is an unknown service in the model, while the source attempts a build.
- Values are limited:
  - Numbers are integers.
  - Only own properties are seen, not inherited ones.
  - Spreading a string or an array into the headers is not modelled.
  - `data` is an object or omitted.
  - `queryParams` is an array of top-level keys or omitted. Deep paths with `.` or `[` are not modelled.
  - `options.config` is an object or omitted.
- `_.isEmpty` on a built client is reduced to the `Live`/`Empty` tag on the build result. Likewise the `constructor.name === 'OpenAPIClientAxios'` test is reduced to the `Resolved` tag on an entry.
- ServiceConfig.ServiceEntry: a fallback entry is the typed descriptor, not the raw registry object. The two differ only in fields present with the value undefined (see `DescriptorValueOf`).
- EndpointHandler.Dispatch: calling a member the client lacks is reduced to one error value, where JavaScript throws a TypeError.
- The serviceToken of a request is a string. An undefined token would be looked up under "undefined", and this is not modelled separately.
