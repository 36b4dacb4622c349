# local-gateway test-function, modelled in Dafny

The repository's `test-function` is an AWS Lambda handler behind API Gateway.
It answers every proxy request with a JSON record that holds a fixed greeting,
the status `"success"` and the caller's authorization header, echoed unchanged.
The header is looked up under the exact-case name `Authorization` first and the
lower-case name `authorization` second. A nil map or a map with neither name
gives the empty string.

The model has four modules:

- `Wrappers`: `Option` (a Go nil map, an absent value) and `Result` (a value or a Go `error`).
- `Precedence`: a reference definition of "look the keys up in priority
  order", together with the proof that only the listed keys affect the result.
- `Authorization`: `extractAuthorizationHeader` as written. Header maps are
  `Option<map<string, string>>`, so a nil map is distinct from an empty one.
  The module also proves that this function is the priority lookup over
  `["Authorization", "authorization"]`.
- `Handler`: the request, the `Response` record, the proxy response and the
  handler. `json.Marshal` is an external library, so the handler takes the
  encoder as a parameter (`Marshaller`). The model shows both of the handler's
  branches: 200 with `Content-Type: application/json` when encoding succeeds,
  and 500 with no headers and the literal body
  `{"error": "failed to marshal response"}` when it fails. The JSON view of
  the record is the object its struct tags name (`JsonObject`). `ResponseOf`
  is a left inverse of that view, and an inverse on objects with exactly the three members.

## Model

| member | source | states |
|---|---|---|
| Precedence.FirstIndex | lambda/test-function/main.go:22-25 | the position of the first priority key the map holds: every earlier key is absent; `None` exactly when no listed key is present |
| Precedence.LookupFirst | lambda/test-function/main.go:22-25 | the value under the first listed key the map holds, even when a later listed key is also present; the "absent" value when no listed key is present |
| Precedence.FirstIndexAgrees | lambda/test-function/main.go:22-25 | two maps that hold the same entries for the priority keys have the same first present position |
| Precedence.LookupFirstAgrees | lambda/test-function/main.go:22-25 | two maps that hold the same entries for the priority keys give the same lookup value, whatever their other keys hold |
| Authorization.ExtractAuthorizationHeader | lambda/test-function/main.go:18-26 | nil map gives ""; a present "Authorization" wins, even with an empty value; otherwise a present "authorization" is used; neither present gives ""; the result is "" or one of the map's values |
| Authorization.MatchesPriorityLookup | lambda/test-function/main.go:18-26 | the lookup equals the priority lookup over ["Authorization", "authorization"] with "" for "absent"; a nil map behaves as an empty one |
| Authorization.OnlyAuthorizationEntriesMatter | lambda/test-function/main.go:22-25 | two header maps that agree on "Authorization" and "authorization" give the same value |
| Authorization.OtherHeaderUpdateIgnored | lambda/test-function/main.go:22-25 | adding or changing any other header, "AUTHORIZATION" included, does not change the value |
| Authorization.OtherHeaderRemovalIgnored | lambda/test-function/main.go:22-25 | removing any other header does not change the value |
| Authorization.CaseSensitive | lambda/test-function/main.go:22-25 | "AUTHORIZATION" is not found; with both spellings present, an empty exact-case value still wins over the lower-case one |
| Handler.JsonObject | lambda/test-function/main.go:12-16 | the record's JSON object has exactly the members message, status and authorization, each holding the matching field |
| Handler.ResponseOf | lambda/test-function/main.go:12-16 | a record is read back from a JSON object exactly when all three tagged members are present, and its fields are those members' values, whatever other members the object holds |
| Handler.JsonObjectRoundTrip | lambda/test-function/main.go:12-16 | reading back the JSON object of a record gives the record; on objects with exactly the three members, the converse also holds |
| Handler.BuildResponse | lambda/test-function/main.go:31-35 | for every request the record holds "Hello from test-function!" and "success", and its authorization is the header lookup of the request's headers |
| Handler.Handle | lambda/test-function/main.go:28-52 | nil error exactly when encoding succeeds; then 200, headers exactly {"Content-Type": "application/json"}, body the encoded record; otherwise 500, nil headers, the fixed error body, and the encoder's error |
| Handler.HandleDependsOnlyOnAuthorization | lambda/test-function/main.go:28-52 | requests whose headers agree on the two authorization names get identical results, whatever their method, path or other headers |
| Handler.HandleDependsOnlyOnHeaderLookup | lambda/test-function/main.go:19-34 | requests whose headers give the same authorization value get identical results, so a nil header map and an empty one are answered alike |
| Handler.BodyRoundTrip | lambda/test-function/main_test.go:27-63 | with an encoder that never fails and decodes back to the record's object, the answer is 200 with JSON content type, and the body decodes to exactly the three members holding the greeting, "success" and the echoed header |
| Handler.ExactCaseTokenEchoed | lambda/test-function/main_test.go:12-34 | GET /test with "Authorization: Bearer test-token" gives a nil error, 200, JSON content type and a record echoing "Bearer test-token" |
| Handler.LowercaseTokenEchoed | lambda/test-function/main_test.go:36-42 | a request with only "authorization: Bearer lowercase-token" gets that token echoed |
| Handler.MissingHeadersGiveEmptyAuthorization | lambda/test-function/main.go:19-25 | a nil or an empty header map gives an empty authorization, whatever the method and path |

## Left out

- `log.Printf` of the incoming event (main.go:29): a logging side effect with no functional content.
- `main` and `lambda.Start` (main.go:54-56): hosting-runtime plumbing.
- The `context.Context` parameter: the handler never uses it.
- The encoding rules of `json.Marshal` (string escaping, member order): it is an external library. The encoder is a parameter of `Handler.Handle`, and the body is whatever text it produces.
- The real `json.Unmarshal` used by the tests: the round-trip lemma takes the decoder as a parameter. Go's case-insensitive matching of member names when decoding into a struct is not modelled.
- Handler.ResponseOf: a strict reader that returns `None` when one of the three members is missing, where Go's `json.Unmarshal` into `Response` succeeds and leaves that field as `""`; only the member-presence checks of the second test require all three members.
- Go's `error` value is modelled by its message, a `string`.
- Fields of `events.APIGatewayProxyRequest` other than method, path and headers, and fields of `events.APIGatewayProxyResponse` other than status code, headers and body: the handler neither reads nor sets them.
- Concurrent invocation by the runtime: each call is independent and stateless.
