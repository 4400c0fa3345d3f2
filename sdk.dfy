/** The open-API client: how a call's system parameters and form are put
    together, and which response bodies are accepted. The HTTP exchange itself
    is an input (`Reply`), and so is the signing of the system parameters. */
module Sdk {
  import opened Base
  import opened Response

  const Format: string := "json"
  const Version: string := "3.0"
  const SysParamsKey: string := "opensysparams"

  /** The SDK struct: application credentials and the user's access token. */
  datatype Client = Client(
    clientId: string,
    clientSecret: string,
    accessToken: string,
    user: string,
    password: string)

  datatype SysParams = SysParams(
    action: string,
    clientId: string,
    format: string,
    timestamp: string,
    version: string,
    accessToken: string)

  /** Builds the system parameters of one call, field by field; `now` is the
      Unix time the clock gave. */
  method NewSysParams(client: Client, action: string, now: int) returns (sys: SysParams)
    ensures sys.action == action && sys.clientId == client.clientId
    ensures sys.format == Format && sys.version == Version
    ensures sys.timestamp == Decimal(now)
    ensures client.accessToken != "" ==> sys.accessToken == client.accessToken
    ensures client.accessToken == "" ==> sys.accessToken == ""
  {
    sys := SysParams("", "", "", "", "", "");
    sys := sys.(action := action);
    sys := sys.(clientId := client.clientId);
    sys := sys.(format := Format);
    sys := sys.(timestamp := Decimal(now));
    sys := sys.(version := Version);
    if client.accessToken != "" {
      sys := sys.(accessToken := client.accessToken);
    }
  }

  /** Copies caller parameters into `url.Values`, one `Set` per key. */
  method EncodeValues(params: map<string, string>) returns (values: map<string, seq<string>>)
    ensures values.Keys == params.Keys
    ensures forall k :: k in values ==> values[k] == [params[k]]
  {
    values := map[];
    var rest := params.Keys;
    while rest != {}
      invariant rest <= params.Keys
      invariant values.Keys == params.Keys - rest
      invariant forall k :: k in values ==> values[k] == [params[k]]
      decreases rest
    {
      var k :| k in rest;
      values := values[k := [params[k]]];
      rest := rest - {k};
    }
  }

  /** What the network and the JSON decoder delivered for one call. */
  datatype Reply =
    | TransportFailed(cause: Error)                              // the request or reading the body failed
    | Received(body: seq<byte>, envelope: Result<ResponseError>) // the body and its decoded "e" object

  /** An envelope is accepted when neither of its two codes is negative. */
  predicate Accepted(e: ResponseError)
  {
    e.errorCode >= 0 && e.code >= 0
  }

  /** The acceptance rule GetBytes and PostBytes apply to a response body. */
  function CheckReply(reply: Reply): (r: Result<seq<byte>>)
    ensures r.Ok? <==> reply.Received? && reply.envelope.Ok? && Accepted(reply.envelope.value)
    ensures r.Ok? ==> r.value == reply.body
    ensures reply.TransportFailed? ==> r == Err(reply.cause)
    ensures reply.Received? && reply.envelope.Err? ==> r == Err(reply.envelope.error)
    ensures reply.Received? && reply.envelope.Ok? && !Accepted(reply.envelope.value) ==>
              r == Err(Upstream(reply.envelope.value.errorMsg))
  {
    match reply
    case TransportFailed(cause) => Err(cause)
    case Received(body, envelope) =>
      if envelope.Err? then Err(envelope.error)
      else if envelope.value.errorCode < 0 then Err(Upstream(envelope.value.errorMsg))
      else if envelope.value.code < 0 then Err(Upstream(envelope.value.errorMsg))
      else Ok(body)
  }

  /** A GET call: the signed system parameters travel as a leading
      `opensysparams=` query item, followed by the encoded caller values. */
  datatype GetRequest = GetRequest(sys: SysParams, sysJson: string, query: map<string, seq<string>>)

  /** A POST call: one form holding the caller values and `opensysparams`. */
  datatype PostRequest = PostRequest(sys: SysParams, form: map<string, seq<string>>)

  /** `sign` stands for SignParm followed by JSON encoding, which this model does
      not define. */
  method GetBytes(client: Client, action: string, params: map<string, string>, now: int,
                  sign: (SysParams, string, map<string, string>) -> string, reply: Reply)
    returns (req: GetRequest, r: Result<seq<byte>>)
    ensures req.sys.action == action && req.sys.clientId == client.clientId
    ensures req.sys.format == Format && req.sys.version == Version && req.sys.timestamp == Decimal(now)
    ensures req.sys.accessToken == client.accessToken
    ensures req.sysJson == sign(req.sys, client.clientSecret, params)
    ensures req.query.Keys == params.Keys
    ensures forall k :: k in req.query ==> req.query[k] == [params[k]]
    ensures r == CheckReply(reply)
  {
    var sys := NewSysParams(client, action, now);
    var sysJson := sign(sys, client.clientSecret, params);
    var values := EncodeValues(params);
    req := GetRequest(sys, sysJson, values);
    r := CheckReply(reply);
  }

  method PostBytes(client: Client, action: string, params: map<string, string>, now: int,
                   sign: (SysParams, string, map<string, string>) -> string, reply: Reply)
    returns (req: PostRequest, r: Result<seq<byte>>)
    ensures req.sys.action == action && req.sys.clientId == client.clientId
    ensures req.sys.format == Format && req.sys.version == Version && req.sys.timestamp == Decimal(now)
    ensures req.sys.accessToken == client.accessToken
    ensures req.form.Keys == params.Keys + {SysParamsKey}
    ensures req.form[SysParamsKey] == [sign(req.sys, client.clientSecret, params)]
    ensures forall k :: k in params && k != SysParamsKey ==> req.form[k] == [params[k]]
    ensures r == CheckReply(reply)
  {
    var sys := NewSysParams(client, action, now);
    var sysJson := sign(sys, client.clientSecret, params);
    var values := EncodeValues(params);
    values := values[SysParamsKey := [sysJson]];
    req := PostRequest(sys, values);
    r := CheckReply(reply);
  }

  /** One call the uploader makes through PostBytes: the action and the caller
      parameters it hands over. */
  datatype Request = Request(action: string, params: map<string, string>)

  /** The reply to a PostBytes call together with what `json.Unmarshal` makes
      of the accepted body. */
  datatype Answer<T> = Answer(http: Reply, decoded: Result<T>)

  /** PostBytes' acceptance rule followed by decoding the body. */
  function Receive<T>(a: Answer<T>): Result<T>
  {
    if CheckReply(a.http).Err? then Err(CheckReply(a.http).error) else a.decoded
  }
}
