/** JavaScript values as the resolution layer sees them, the errors it raises,
    and the response rule shared by the endpoint handler and openapiEndpoint. */
module Common {

  datatype Option<+T> = None | Some(value: T) {
    /** The value, or `default` when absent (a destructuring default). */
    function GetOr(default: T): T {
      if Some? then value else default
    }
  }

  /** A JavaScript value. Numbers are integers here. */
  datatype Value =
    | Undefined
    | Null
    | Bool(b: bool)
    | Num(n: int)
    | Str(s: string)
    | Arr(items: seq<Value>)
    | Obj(props: map<string, Value>)

  /** JavaScript truthiness: `if (v)`. */
  predicate Truthy(v: Value) {
    match v
    case Undefined => false
    case Null => false
    case Bool(b) => b
    case Num(n) => n != 0
    case Str(s) => s != ""
    case Arr(_) => true
    case Obj(_) => true
  }

  /** The values `??` replaces and on which a property read throws. */
  predicate IsNullish(v: Value) {
    v.Undefined? || v.Null?
  }

  /** Property read `v.key` on a value that is not nullish. */
  function Prop(v: Value, key: string): (r: Value)
    requires !IsNullish(v)
    ensures v.Obj? && key in v.props ==> r == v.props[key]
    ensures !(v.Obj? && key in v.props) ==> r == Undefined
  {
    if v.Obj? && key in v.props then v.props[key] else Undefined
  }

  /** The own enumerable properties that object spread `{...v}` copies. */
  function OwnProps(v: Value): map<string, Value> {
    if v.Obj? then v.props else map[]
  }

  /** A string inside a template literal: `${s}` renders undefined as "undefined". */
  function Template(s: Option<string>): string {
    if s.Some? then s.value else "undefined"
  }

  /** `x ?? {}` followed by a spread, for an optional object. */
  function DefaultObject(v: Value): Value {
    if v.Undefined? then Obj(map[]) else v
  }

  /** The errors the layer throws. */
  datatype Error =
    | InvalidConfig                          // `Invalid config: …`
    | UnknownService(token: string)          // `Unknown serviceToken '…'.`
    | UnresolvedService(token: string)       // `Unable to resolve '…' service.`
    | ApiKeyNotFound(stackName: string)      // `Unable to find API Key '…'.`
    | Upstream(status: int, statusText: string, data: Value)
    | MissingDefinition                      // BadRequest
    | MissingOperationId                     // BadRequest
    | UnsupportedAuthType(authType: Value)   // BadRequest
    | NotAnOperation(operationId: string)    // calling a missing client member
    | TypeError                              // property read on undefined or null

  /** Errors raised as http-errors BadRequest (status 400). */
  predicate IsBadRequest(e: Error) {
    e.MissingDefinition? || e.MissingOperationId? || e.UnsupportedAuthType?
  }

  datatype Result<+T> = Ok(value: T) | Err(error: Error) {
    predicate IsFailure() { Err? }
    function PropagateFailure<U>(): Result<U>
      requires Err?
    {
      Err(error)
    }
    function Extract(): T
      requires Ok?
    {
      value
    }
  }

  /** A transport response of the HTTP client (validateStatus disabled). */
  datatype Response = Response(status: int, statusText: string, data: Value)

  /** The response rule: a status of 400 or more is thrown as an error carrying
      status, status text and body; otherwise only the body is returned. */
  function Settle(response: Response): (r: Result<Value>)
    ensures r.Ok? <==> response.status < 400
    ensures r.Ok? ==> r.value == response.data
    ensures r.Err? ==> r.error == Upstream(response.status, response.statusText, response.data)
  {
    if response.status >= 400 then
      Err(Upstream(response.status, response.statusText, response.data))
    else
      Ok(response.data)
  }
}
