/**
 * The JSON-RPC request envelope (src/rpc.rs): method vocabulary rendered in
 * upper case, resource type to url, a builder with defaults, and requests that
 * each carry the text of a freshly drawn UUID as their id.
 */
module Rpc {
  import opened Uuids
  import opened Wrappers
  import Schema

  /** The protocol version every request and response carries. */
  const JSONRPC: string := "2.0"

  datatype RpcMethod = Post | Put | Patch | Get | Delete

  /** Serialised name of a method (serde `rename_all = "UPPERCASE"`). */
  function MethodName(m: RpcMethod): (s: string)
  {
    match m
    case Post => "POST"
    case Put => "PUT"
    case Patch => "PATCH"
    case Get => "GET"
    case Delete => "DELETE"
  }

  /** Deserialising a method name: exactly the five upper-case names are accepted. */
  function ParseMethod(s: string): (r: Option<RpcMethod>)
    ensures r.Some? ==> MethodName(r.value) == s
  {
    if s == "POST" then Some(Post)
    else if s == "PUT" then Some(Put)
    else if s == "PATCH" then Some(Patch)
    else if s == "GET" then Some(Get)
    else if s == "DELETE" then Some(Delete)
    else None
  }

  /** Every method name parses back to its method. */
  lemma MethodNameRoundTrip(m: RpcMethod)
    ensures ParseMethod(MethodName(m)) == Some(m)
  {
  }

  /** Rendering is injective: no two methods share a name. */
  lemma MethodNamesDistinct(m: RpcMethod, n: RpcMethod)
    requires m != n
    ensures MethodName(m) != MethodName(n)
  {
    MethodNameRoundTrip(m);
    MethodNameRoundTrip(n);
  }

  /**
   * Resource types. rpc.rs has only `Network`; network.rs also reports on
   * `State`, whose url is "/state".
   */
  datatype RpcType = Network | State

  /** Serialised name of a resource type (serde `rename_all = "lowercase"`). */
  function TypeName(t: RpcType): string
  {
    match t
    case Network => "network"
    case State => "state"
  }

  /** The payload of a state report: the data string, a timestamp and the state's meta. */
  datatype RpcStateData = RpcStateData(data: string, timestamp: string, meta: Schema.Meta)

  /** Request payloads (serde-untagged): a schema, a state report, or nothing. */
  datatype RpcData = SchemaData(schema: Schema.Schema) | StateData(state: RpcStateData) | NoData

  datatype RpcParams = RpcParams(url: string, data: RpcData)

  /** `RpcParams::new`: the url is "/" followed by the type's name. */
  function ParamsNew(t: RpcType, data: RpcData): (p: RpcParams)
    ensures p.data == data
    ensures t == Network ==> p.url == "/network"
    ensures t == State ==> p.url == "/state"
  {
    RpcParams("/" + TypeName(t), data)
  }

  /** Different resource types go to different urls. */
  lemma UrlsDistinct(data: RpcData)
    ensures ParamsNew(Network, data).url != ParamsNew(State, data).url
  {
    assert ParamsNew(Network, data).url[1] != ParamsNew(State, data).url[1];
  }

  datatype RpcRequest = RpcRequest(jsonrpc: string, rpcMethod: RpcMethod, id: string, params: RpcParams)

  /** `RpcRequest::new`: version 2.0 and, as id, the text of a freshly drawn UUID. */
  function RequestNew(m: RpcMethod, t: RpcType, data: RpcData, freshId: Uuid): (r: RpcRequest)
    ensures r.jsonrpc == "2.0" && r.rpcMethod == m && r.id == UuidText(freshId)
    ensures r.params == ParamsNew(t, data)
  {
    RpcRequest(JSONRPC, m, UuidText(freshId), ParamsNew(t, data))
  }

  /** Requests built from different fresh UUIDs never share an id. */
  lemma FreshRequestIdsDiffer(m1: RpcMethod, t1: RpcType, d1: RpcData, id1: Uuid,
                              m2: RpcMethod, t2: RpcType, d2: RpcData, id2: Uuid)
    requires id1 < UUID_SPACE && id2 < UUID_SPACE && id1 != id2
    ensures RequestNew(m1, t1, d1, id1).id != RequestNew(m2, t2, d2, id2).id
  {
    UuidTextInjective(id1, id2);
  }

  /** `RpcRequestBuilder`: the three settings a request is created from. */
  datatype RequestBuilder = RequestBuilder(rpcMethod: RpcMethod, rpcType: RpcType, data: RpcData)
  {
    /** `method`: replaces only the method. */
    function Method(m: RpcMethod): (b: RequestBuilder)
      ensures b.rpcMethod == m && b.rpcType == rpcType && b.data == data
    {
      this.(rpcMethod := m)
    }

    /** `on_type`: replaces only the resource type. */
    function OnType(t: RpcType): (b: RequestBuilder)
      ensures b.rpcMethod == rpcMethod && b.rpcType == t && b.data == data
    {
      this.(rpcType := t)
    }

    /** `data`: replaces only the payload. */
    function Data(d: RpcData): (b: RequestBuilder)
      ensures b.rpcMethod == rpcMethod && b.rpcType == rpcType && b.data == d
    {
      this.(data := d)
    }

    /** `create`: the request `RpcRequest::new` builds from the three settings. */
    function Create(freshId: Uuid): (r: RpcRequest)
      ensures r == RequestNew(rpcMethod, rpcType, data, freshId)
    {
      RequestNew(rpcMethod, rpcType, data, freshId)
    }
  }

  /** `RpcRequestBuilder::new` (also `RpcRequest::builder`): POST on the network, no data. */
  function NewRequestBuilder(): (b: RequestBuilder)
    ensures b.rpcMethod == Post && b.rpcType == Network && b.data == NoData
  {
    RequestBuilder(Post, Network, NoData)
  }

  /** Setting all three fields, in any order, gives the same request as `RpcRequest::new`. */
  lemma BuilderMatchesNew(m: RpcMethod, t: RpcType, d: RpcData, freshId: Uuid)
    ensures NewRequestBuilder().Method(m).OnType(t).Data(d).Create(freshId) == RequestNew(m, t, d, freshId)
    ensures NewRequestBuilder().Data(d).OnType(t).Method(m).Create(freshId) == RequestNew(m, t, d, freshId)
  {
  }

  /**
   * The acknowledgement the reader sends back. The response record of this
   * revision of rpc.rs is empty; communication.rs builds it from the request id
   * and a success flag, which is what is kept here.
   */
  datatype RpcResponse = RpcResponse(jsonrpc: string, id: string, success: bool)

  /** `RpcResponse::new(id, success)`: echoes the id it is given. */
  function ResponseNew(id: string, success: bool): (r: RpcResponse)
    ensures r.jsonrpc == "2.0" && r.id == id && r.success == success
  {
    RpcResponse(JSONRPC, id, success)
  }
}
