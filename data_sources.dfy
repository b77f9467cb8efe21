/** The data-source contract and its REST and mock variants: endpoint
    defaults, request arguments, response unwrapping, and the source's own
    state fragment (base URL and headers) with its two mutations. */
module DataSources {
  import opened Dicts
  import opened Js

  /** An endpoint declaration. `None` stands for an absent field. */
  datatype Endpoint = Endpoint(
    params: Option<Dict<Ctor>>,
    resultType: Option<Ctor>,
    url: Option<string>,
    httpMethod: Option<string>,
    mockData: Value)

  /** An endpoint object, which `apply_defaults` changes in place. */
  class EndpointObject {
    var params: Option<Dict<Ctor>>
    var resultType: Option<Ctor>
    var url: Option<string>
    var httpMethod: Option<string>
    var mockData: Value

    function View(): Endpoint
      reads this
    {
      Endpoint(params, resultType, url, httpMethod, mockData)
    }

    constructor (e: Endpoint)
      ensures View() == e
    {
      params, resultType, url, httpMethod, mockData := e.params, e.resultType, e.url, e.httpMethod, e.mockData;
    }
  }

  /** `DataSource.apply_defaults`: an absent `params` becomes `{}`, an absent
      `type` becomes `Object`. */
  function BaseDefaults(e: Endpoint): (r: Endpoint)
    ensures r.params == if e.params.Some? then e.params else Some([])
    ensures r.resultType == if e.resultType.Some? then e.resultType else Some(Object)
    ensures r.url == e.url && r.httpMethod == e.httpMethod && r.mockData == e.mockData
  {
    e.(params := if e.params.Some? then e.params else Some([]),
       resultType := if e.resultType.Some? then e.resultType else Some(Object))
  }

  /** `RestDataSource.apply_defaults`: the base defaults, then a falsy `url`
      becomes `"/" + name` and a falsy `method` becomes `"get"`. */
  function RestDefaults(name: string, e: Endpoint): (r: Endpoint)
    ensures r.params == BaseDefaults(e).params && r.resultType == BaseDefaults(e).resultType
    ensures r.url == if TruthyText(e.url) then e.url else Some("/" + name)
    ensures r.httpMethod == if TruthyText(e.httpMethod) then e.httpMethod else Some("get")
    ensures r.mockData == e.mockData
  {
    var b := BaseDefaults(e);
    b.(url := if TruthyText(b.url) then b.url else Some("/" + name),
       httpMethod := if TruthyText(b.httpMethod) then b.httpMethod else Some("get"))
  }

  /** The request record for one call of the source's module. */
  datatype MockRequest = MockRequest(endpoint: Endpoint, inputParams: Dict<Value>)

  datatype Request =
    | RestCall(httpMethod: Option<string>, baseURL: string, url: Option<string>,
               params: Dict<Value>, data: Dict<Value>, headers: Value)
    | MockCall(call: MockRequest)

  /** What a mock source calls instead of the network. */
  datatype MockModule =
    | MockData                              // the default: `({endpoint}) => endpoint.mock_data`
    | Transform(f: MockRequest -> Value)    // a user-supplied transform

  /** The source's state fragment, merged into the bind module's state. */
  datatype SourceState = SourceState(url: string, headers: Value)

  datatype DataSource =
    | Rest(state: SourceState)
    | Mock(state: SourceState, mockModule: MockModule)

  /** The constructor options `{url, headers, transform}`. */
  datatype SourceOptions = SourceOptions(url: Option<string>, headers: Option<Value>, transform: Option<MockRequest -> Value>)

  const JsonHeaders: Value := Obj([("Content-Type", Str("application/json"))])

  /** `new RestDataSource(options)`. */
  function NewRest(o: SourceOptions): (s: DataSource)
    ensures s.Rest?
    ensures s.state.url == if o.url.Some? then o.url.value else ""
    ensures s.state.headers == if o.headers.Some? then o.headers.value else JsonHeaders
  {
    Rest(SourceState(GetOrElse(o.url, ""), GetOrElse(o.headers, JsonHeaders)))
  }

  /** `new MockRestDataSource(options)`. */
  function NewMock(o: SourceOptions): (s: DataSource)
    ensures s.Mock?
    ensures s.state.url == if o.url.Some? then o.url.value else ""
    ensures s.state.headers == if o.headers.Some? then o.headers.value else Obj([])
    ensures s.mockModule == if o.transform.Some? then Transform(o.transform.value) else MockData
  {
    Mock(SourceState(GetOrElse(o.url, ""), GetOrElse(o.headers, Obj([]))),
         match o.transform case Some(f) => Transform(f) case None => MockData)
  }

  function GetOrElse<T>(o: Option<T>, fallback: T): T
  {
    match o
    case Some(v) => v
    case None => fallback
  }

  /** `apply_defaults` as each variant has it (the mock inherits the base). */
  function Defaulted(s: DataSource, name: string, e: Endpoint): Endpoint
  {
    match s
    case Rest(_) => RestDefaults(name, e)
    case Mock(_, _) => BaseDefaults(e)
  }

  /** `args(bind_state, computed_params, endpoint)`: one request record. A REST
      GET sends the parameters as `params`, any other method as `data`. */
  function Args(s: DataSource, bindState: SourceState, computed: Dict<Value>, e: Endpoint): (r: seq<Request>)
    ensures |r| == 1
    ensures s.Rest? ==> r[0].RestCall? && r[0].httpMethod == e.httpMethod && r[0].baseURL == bindState.url &&
                        r[0].url == e.url && r[0].headers == bindState.headers
    ensures s.Rest? ==> if e.httpMethod == Some("get") then r[0].params == computed && r[0].data == []
                        else r[0].params == [] && r[0].data == computed
    ensures s.Mock? ==> r[0] == MockCall(MockRequest(e, computed))
  {
    match s
    case Rest(_) =>
      var get := e.httpMethod == Some("get");
      [RestCall(e.httpMethod, bindState.url, e.url,
                if get then computed else [], if get then [] else computed, bindState.headers)]
    case Mock(_, _) => [MockCall(MockRequest(e, computed))]
  }

  /** `module(...args)`: a REST call goes to the network, whose response is
      supplied; a mock call runs the mock module. */
  function Module(s: DataSource, req: Request, response: Value): Value
  {
    match (s, req)
    case (Mock(_, MockData), MockCall(call)) => call.endpoint.mockData
    case (Mock(_, Transform(f)), MockCall(call)) => f(call)
    case _ => response
  }

  /** `assign(response)`: REST unwraps a truthy `response.data` and gives
      `null` otherwise (so `0` and `""` become `null` too); mock returns the
      result unchanged. */
  function Assign(s: DataSource, response: Value): (r: Result<Value>)
    ensures s.Mock? ==> r == Ok(response)
    ensures s.Rest? && response.Obj? ==>
              var data := GetOr(response.fields, "data", Undefined);
              r == Ok(if Truthy(data) then data else Null)
    ensures s.Rest? && (response.Undefined? || response.Null?) ==> r.Err?
  {
    match s
    case Mock(_, _) => Ok(response)
    case Rest(_) =>
      match Prop(response, "data")
      case Err(f) => Err(f)
      case Ok(data) => Ok(if Truthy(data) then data else Null)
  }

  /** The state fragment `{url, headers}` and the mutation names the source
      contributes to the bind module. */
  function StateFragment(s: DataSource): Dict<Value>
  {
    [("url", Str(s.state.url)), ("headers", s.state.headers)]
  }

  const MutationNames: seq<string> := ["update_header", "update_url"]

  /** `update_header`: `state.headers[key] = value`. Setting a property of a
      primitive, `null` or `undefined` throws in module code. */
  function WithHeader(headers: Value, key: string, value: Value): (r: Result<Value>)
    ensures headers.Obj? <==> r.Ok?
    ensures r.Ok? ==> r.value.Obj? &&
                      Get(r.value.fields, key) == Some(value) &&
                      forall k :: k != key ==> Get(r.value.fields, k) == Get(headers.fields, k)
  {
    match headers
    case Obj(fields) =>
      assert forall k :: Get(Set(fields, key, value), k) == if k == key then Some(value) else Get(fields, k) by {
        forall k { GetSet(fields, key, value, k); }
      }
      Ok(Obj(Set(fields, key, value)))
    case _ => Err(TypeError("Cannot create property '" + key + "' on a non-object"))
  }

  /** Applying the defaults twice leaves the endpoint as applying them once. */
  lemma DefaultsIdempotent(s: DataSource, name: string, e: Endpoint)
    ensures Defaulted(s, name, Defaulted(s, name, e)) == Defaulted(s, name, e)
  {
  }

  /** After the defaults every field they cover is set (truthy). */
  lemma DefaultsFillEveryField(s: DataSource, name: string, e: Endpoint)
    ensures var r := Defaulted(s, name, e);
            r.params.Some? && r.resultType.Some? &&
            (s.Rest? ==> TruthyText(r.url) && TruthyText(r.httpMethod))
  {
  }

  method ApplyBaseDefaults(endpoint: EndpointObject)
    modifies endpoint
    ensures endpoint.View() == BaseDefaults(old(endpoint.View()))
  {
    endpoint.params := if endpoint.params.Some? then endpoint.params else Some([]);
    endpoint.resultType := if endpoint.resultType.Some? then endpoint.resultType else Some(Object);
  }

  /** `apply_defaults(name, endpoint)`, filling the endpoint object in place. */
  method ApplyDefaults(s: DataSource, name: string, endpoint: EndpointObject)
    modifies endpoint
    ensures endpoint.View() == Defaulted(s, name, old(endpoint.View()))
  {
    ApplyBaseDefaults(endpoint);
    if s.Rest? {
      endpoint.url := if TruthyText(endpoint.url) then endpoint.url else Some("/" + name);
      endpoint.httpMethod := if TruthyText(endpoint.httpMethod) then endpoint.httpMethod else Some("get");
    }
  }
}
