/** The request handler of lambda/test-function/main.go: it answers every
    API Gateway proxy request with a JSON greeting that echoes the caller's
    authorization header.

    `json.Marshal` is a library whose encoding rules are not part of this
    model, so the handler takes the encoder as a parameter (`Marshaller`);
    what the model fixes is the record handed to it, the JSON object view of
    that record given by its struct tags, and the response built around the
    encoder's result on each of its two outcomes. */
module Handler {
  import opened Wrappers
  import Precedence
  import Authorization

  /** The fields of an `events.APIGatewayProxyRequest` the handler can see. */
  datatype Request = Request(httpMethod: string, path: string, headers: Authorization.Headers)

  /** The `Response` record serialised into the body. */
  datatype Response = Response(message: string, status: string, authorization: string)

  /** The fields of an `events.APIGatewayProxyResponse` the handler sets;
      `headers` is `None` when the handler leaves Go's map nil. */
  datatype ProxyResponse = ProxyResponse(statusCode: int, headers: Option<map<string, string>>, body: string)

  /** The handler's Go result pair `(response, error)`; `err` is `None` for a nil error. */
  datatype Outcome = Outcome(response: ProxyResponse, err: Option<string>)

  /** An encoder in the role of `json.Marshal`: the encoded text or an error message. */
  type Marshaller = Response -> Result<string, string>

  const Greeting := "Hello from test-function!"
  const SuccessStatus := "success"
  const MarshalFailureBody := "{\"error\": \"failed to marshal response\"}"
  const JsonContentType := map["Content-Type" := "application/json"]

  /** JSON member names of the three fields, from the struct tags. */
  const MessageName := "message"
  const StatusName := "status"
  const AuthorizationName := "authorization"
  const MemberNames := {MessageName, StatusName, AuthorizationName}

  /** The JSON object a `Response` stands for: one string member per field,
      named by its tag. */
  function JsonObject(r: Response): (obj: map<string, string>)
    ensures obj.Keys == MemberNames
    ensures obj[MessageName] == r.message
    ensures obj[StatusName] == r.status
    ensures obj[AuthorizationName] == r.authorization
  {
    map[MessageName := r.message, StatusName := r.status, AuthorizationName := r.authorization]
  }

  /** Reads a `Response` back from a JSON object with string members; `None`
      when one of the three members is missing. Members with other names are
      skipped. */
  function ResponseOf(obj: map<string, string>): (r: Option<Response>)
    ensures r.Some? <==> MemberNames <= obj.Keys
    ensures r.Some? ==>
              && r.value.message == obj[MessageName]
              && r.value.status == obj[StatusName]
              && r.value.authorization == obj[AuthorizationName]
  {
    if MessageName in obj && StatusName in obj && AuthorizationName in obj then
      Some(Response(obj[MessageName], obj[StatusName], obj[AuthorizationName]))
    else
      None
  }

  /** `ResponseOf` inverts `JsonObject`, and on objects with exactly the three
      members `JsonObject` inverts `ResponseOf`. */
  lemma JsonObjectRoundTrip(r: Response, obj: map<string, string>)
    ensures ResponseOf(JsonObject(r)) == Some(r)
    ensures obj.Keys == MemberNames && ResponseOf(obj) == Some(r) ==> JsonObject(r) == obj
  {
  }

  /** The record the handler serialises: the fixed greeting and status, and
      the request's authorization header. */
  function BuildResponse(req: Request): (r: Response)
    ensures r.message == Greeting && r.status == SuccessStatus
    ensures r.authorization == Authorization.ExtractAuthorizationHeader(req.headers)
  {
    Response(Greeting, SuccessStatus, Authorization.ExtractAuthorizationHeader(req.headers))
  }

  /** The handler. When the encoder succeeds the answer is 200 with exactly
      one header, `Content-Type: application/json`, and the encoded record as
      body, and the error is nil; when it fails the answer is 500 with no
      headers and a fixed error body, and the encoder's error is returned. */
  function Handle(req: Request, marshal: Marshaller): (out: Outcome)
    ensures out.err.None? <==> marshal(BuildResponse(req)).Success?
    ensures out.err.None? ==>
              && out.response.statusCode == 200
              && out.response.headers == Some(JsonContentType)
              && out.response.body == marshal(BuildResponse(req)).value
    ensures out.err.Some? ==>
              && out.response == ProxyResponse(500, None, MarshalFailureBody)
              && out.err.value == marshal(BuildResponse(req)).error
  {
    match marshal(BuildResponse(req))
    case Failure(e) => Outcome(ProxyResponse(500, None, MarshalFailureBody), Some(e))
    case Success(body) => Outcome(ProxyResponse(200, Some(JsonContentType), body), None)
  }

  /** True when two header maps are both nil, or both non-nil and agree on
      the two authorization names. */
  predicate SameAuthorizationEntries(h1: Authorization.Headers, h2: Authorization.Headers)
  {
    || (h1.None? && h2.None?)
    || (h1.Some? && h2.Some? && Precedence.AgreeOn(Authorization.AuthorizationKeys, h1.value, h2.value))
  }

  /** The handler's result depends on the request only through the
      authorization entries of its headers: method, path and every other
      header are ignored. */
  lemma HandleDependsOnlyOnAuthorization(r1: Request, r2: Request, marshal: Marshaller)
    requires SameAuthorizationEntries(r1.headers, r2.headers)
    ensures Handle(r1, marshal) == Handle(r2, marshal)
  {
    if r1.headers.Some? {
      Authorization.OnlyAuthorizationEntriesMatter(r1.headers.value, r2.headers.value);
    }
    assert BuildResponse(r1) == BuildResponse(r2);
  }

  /** The handler sees the request only through the header lookup: requests
      whose headers give the same authorization value, a nil map and a map
      without either name included, get identical results. */
  lemma HandleDependsOnlyOnHeaderLookup(r1: Request, r2: Request, marshal: Marshaller)
    requires Authorization.ExtractAuthorizationHeader(r1.headers) == Authorization.ExtractAuthorizationHeader(r2.headers)
    ensures Handle(r1, marshal) == Handle(r2, marshal)
  {
  }

  /** With an encoder that never fails and whose output decodes to the
      record's JSON object, every request is answered with 200 and
      `Content-Type: application/json`, and the body decodes to an object
      with exactly the members message, status and authorization, holding
      the greeting, "success" and the request's authorization header. */
  lemma BodyRoundTrip(req: Request, marshal: Marshaller, unmarshal: string -> Option<map<string, string>>)
    requires forall x :: marshal(x).Success? && unmarshal(marshal(x).value) == Some(JsonObject(x))
    ensures Handle(req, marshal).err.None?
    ensures Handle(req, marshal).response.statusCode == 200
    ensures Handle(req, marshal).response.headers == Some(JsonContentType)
    ensures unmarshal(Handle(req, marshal).response.body).Some?
    ensures unmarshal(Handle(req, marshal).response.body).value.Keys == MemberNames
    ensures ResponseOf(unmarshal(Handle(req, marshal).response.body).value)
              == Some(Response(Greeting, SuccessStatus, Authorization.ExtractAuthorizationHeader(req.headers)))
  {
  }

  /** A GET of /test carrying "Authorization: Bearer test-token" is answered
      with 200, JSON content type, and a record echoing the token. */
  lemma ExactCaseTokenEchoed(marshal: Marshaller)
    requires forall x :: marshal(x).Success?
    ensures var req := Request("GET", "/test", Some(map["Authorization" := "Bearer test-token"]));
            && BuildResponse(req) == Response(Greeting, SuccessStatus, "Bearer test-token")
            && Handle(req, marshal).err.None?
            && Handle(req, marshal).response.statusCode == 200
            && Handle(req, marshal).response.headers.value["Content-Type"] == "application/json"
  {
  }

  /** A request carrying only "authorization: Bearer lowercase-token" has that
      token echoed. */
  lemma LowercaseTokenEchoed()
    ensures var req := Request("", "", Some(map["authorization" := "Bearer lowercase-token"]));
            BuildResponse(req) == Response(Greeting, SuccessStatus, "Bearer lowercase-token")
  {
  }

  /** A request with a nil or an empty header map is still answered, with an
      empty authorization. */
  lemma MissingHeadersGiveEmptyAuthorization(httpMethod: string, path: string)
    ensures BuildResponse(Request(httpMethod, path, None)).authorization == ""
    ensures BuildResponse(Request(httpMethod, path, Some(map[]))).authorization == ""
  {
  }
}
