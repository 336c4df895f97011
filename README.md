# Raven request pipeline in Dafny

Raven is a small Swift HTTP client. A caller describes one API operation as an
endpoint: its method, its relative path, an optional body, URL parameters and
the type of response it expects. The client turns the endpoint into a
request, hands the request to the network, and turns the reply into a decoded
value or an error. This project models the decisions the client makes along
the way and proves what they guarantee:

- **Endpoint resolution** (`Endpoints`). The relative path is trimmed of `/`
  on both ends and appended to the base URL. The parameter dictionary is then
  expanded into query items: a nil value gives nothing, a list gives one item
  per element in list order, and any other value gives one item holding its
  description. The URL-construction primitive may reject the result.
- **Request building** (`Client.GenerateUrlRequest`, `Client.ApplyHeaders`).
  The request takes the endpoint's method. `Accept: text/plain` is set unless
  the endpoint expects `EmptyResponse`. A body gets the JSON content type and
  its encoded bytes; an encoding error that is thrown leaves the body empty
  instead of failing the request. The delegate's header fields are then laid over the request.
- **Response interpretation** (`Client.InterpretResponse`). A reply without a
  recognised HTTP status is an unknown error. On success the payload is
  chosen in priority order: `EmptyResponse` without decoding, then nil for an
  Optional type on 204 No Content, then the decoded body (a decode failure is
  a parsing error). Any other status becomes the delegate's error.
- **Delegate defaults** (`Delegates`). With the defaults there are no extra
  header fields, the error is a response error carrying the status code, and
  decoration is the identity.

Foundation's pieces are inputs, collected in `Foundation.Platform`:
JSONSerialization, the default JSONEncoder, URLComponents' acceptance of a
URL, and the status classification table (`responseType`). The network
exchange is a parameter `transport: Request -> Exchange` of
`Client.PerformRequest`. The delegate's JSON decoder is a per-call parameter
`decode`, because it is generic over the target type.
Body values and URLs, which both the endpoint and Foundation's pieces
mention, are declared once in `Values`, below both.

Runtime type tests on the generic response type are replaced by an explicit
tag, `Expectation = ExpectEmpty | ExpectOptional | ExpectValue`.

Where the files disagree, the model follows the code that runs:

- `Raven.swift` names the types `RavenDelegate`, `RavenEndpoint` and
  `RavenResponse`, while `RavenDelegate.swift` and `RavenResponse.swift`
  declare `Raven.Delegate` and `Raven.Response`. They are treated as the same
  types. `DefaultRavenDelegate` (Raven.swift:10) and `Raven.DefaultDelegate`
  (RavenDelegate.swift:12) are both `Delegates.DefaultDelegate`.
- `RavenError.responseError` is declared without a payload
  (RavenError.swift:11), but the default error hook passes it the status code
  (RavenDelegate.swift:34). The model gives it the status code.
- The delegate has a `decorate(request:)` hook, but `performRequest` never
  calls it. The model keeps the hook in `Delegates.Delegate` and does not
  apply it.
- `performRequest` passes the URL, the status and the body to
  `generateError` (Raven.swift:90-93); the default hook uses only the status
  (RavenDelegate.swift:33-35), and so does the model.
- `networkRequestHandler` is never used: `performRequest` calls
  `URLSession.shared` directly (Raven.swift:60).

## Model

| member | source | states |
|---|---|---|
| `Endpoints.WithDictionaryBody` | Sources/Raven/RavenEndpoint.swift:25-37 | the dictionary initialiser gives a `.dict` body and binds method, path, parameters and response type as given |
| `Endpoints.WithoutBody` | Sources/Raven/RavenEndpoint.swift:39-50 | the initialiser without a body gives no body and binds the other fields as given |
| `Endpoints.WithEncodableBody` | Sources/Raven/RavenEndpoint.swift:52-64 | the Encodable initialiser gives an `.encodable` body and binds the other fields as given |
| `Endpoints.InitialisersDefaultToEmptyResponse` | Sources/Raven/RavenEndpoint.swift:25-64 | left to their defaults, all three initialisers expect `EmptyResponse` and have no URL parameters |
| `Endpoints.LeadingSlashes` | Sources/Raven/RavenEndpoint.swift:67 | the count is the whole run of `/` that starts the path: all counted characters are `/` and the next one is not |
| `Endpoints.TrailingSlashes` | Sources/Raven/RavenEndpoint.swift:67 | the count is the whole run of `/` that ends the path |
| `Endpoints.Trim` | Sources/Raven/RavenEndpoint.swift:67 | the trimmed path neither starts nor ends with `/` and is no longer than the path |
| `Endpoints.TrimKeepsInterior` | Sources/Raven/RavenEndpoint.swift:67 | the trimmed path is a contiguous infix of the path, in order, with only `/` cut off on either side |
| `Endpoints.TrimUnique` | Sources/Raven/RavenEndpoint.swift:67 | for any string without a border `/` surrounded by runs of `/`, trimming returns exactly that string |
| `Endpoints.TrimIdempotent` | Sources/Raven/RavenEndpoint.swift:67 | trimming an already trimmed path changes nothing |
| `Endpoints.LoginPathExample` | Sources/Raven/RavenEndpoint.swift:67-68 | base `https://api.example.com/` and path `/login/` join to `https://api.example.com/login` |
| `Endpoints.AppendingPathComponent` | Sources/Raven/RavenEndpoint.swift:68 | the joined address starts with the whole base address, ends with the whole component, and adds at most one character between them |
| `Endpoints.JoinedPathHasOneSeparator` | Sources/Raven/RavenEndpoint.swift:67-68 | for every base and path, the result is the base less one trailing `/`, then a single `/`, then the trimmed path, which does not start with `/` |
| `Endpoints.QueryItems` | Sources/Raven/RavenEndpoint.swift:71-79 | every query item is named by a key whose value is not nil |
| `Endpoints.ItemsFor` | Sources/Raven/RavenEndpoint.swift:73-79 | a scalar gives exactly one item holding its description; a list gives one item per element, all with the parameter's name, values in list order |
| `Endpoints.Present` | Sources/Raven/RavenEndpoint.swift:72 | the filter keeps exactly the entries whose value is not nil: none of the kept entries is nil, each comes from the dictionary, and every non-nil entry is kept |
| `Endpoints.AbsentContributesNothing` | Sources/Raven/RavenEndpoint.swift:72 | inserting a nil-valued entry anywhere leaves the query items unchanged |
| `Endpoints.QueryItemsCount` | Sources/Raven/RavenEndpoint.swift:71-79 | the number of query items is the sum over entries of 0 for nil, the length for a list, and 1 otherwise |
| `Endpoints.QueryItemNamesAreKeys` | Sources/Raven/RavenEndpoint.swift:71-79 | every query item is named by a key of the parameter dictionary |
| `Endpoints.QueryItemsPerKey` | Sources/Raven/RavenEndpoint.swift:73-79 | for each key, the values of the items with that name are exactly its expansion (none for nil, the description, or the list in order); a name that is not a key has no items |
| `Endpoints.UrlFromBase` | Sources/Raven/RavenEndpoint.swift:66-82 | resolution fails exactly when URL construction rejects the joined URL; otherwise the address is the base joined with the trimmed path, and the query is exactly the expanded items, replacing any base query |
| `Client.NewRaven` | Sources/Raven/Raven.swift:19-22 | the client keeps the base URL and the given delegate, or the default delegate when none is given |
| `Client.GenerateUrlRequest` | Sources/Raven/Raven.swift:24-46 | no request exactly when the endpoint does not resolve; otherwise the endpoint's method, `Accept: text/plain` if and only if the response type is not `EmptyResponse`, the JSON content type if and only if there is a body, no other field, and the body encoded by JSONSerialization or the delegate's encoder, absent when encoding fails |
| `Client.EncodedBody` | Sources/Raven/Raven.swift:37-42 | no body gives no bytes; a dictionary body is what JSONSerialization gives, an Encodable body what the delegate's encoder gives, absent when either fails |
| `Client.BuiltForIsUnique` | Sources/Raven/Raven.swift:27-43 | the rules for a built request determine it completely |
| `Client.ApplyHeaders` | Sources/Raven/Raven.swift:54-58 | every delegate field is set to its value, replacing an earlier one; all other fields, the URL, the method and the body are unchanged |
| `Client.OverlayIsUnion` | Sources/Raven/Raven.swift:56-58 | the overlaid header map is the request's map updated with the delegate's map |
| `Client.DefaultOverlayIsIdentity` | Sources/Raven/RavenDelegate.swift:29-31 | with the default delegate the overlay leaves the headers unchanged |
| `Client.InterpretResponse` | Sources/Raven/Raven.swift:62-94 | a success always comes from an HTTP response with a classified successful status, and its envelope carries that status and the response's header fields verbatim |
| `Client.UnclassifiedIsUnknownError` | Sources/Raven/Raven.swift:62-67 | a reply that is not an HTTP response, or has no recognised status, is `unknownError` |
| `Client.EmptyResponseIgnoresBody` | Sources/Raven/Raven.swift:72-73 | on success an `EmptyResponse` endpoint yields `EmptyResponse()` for any body and any decoder |
| `Client.OptionalNoContentIsNil` | Sources/Raven/Raven.swift:74-76 | on a successful 204 an Optional endpoint yields nil, whatever the decoder would do with the body |
| `Client.OtherwiseBodyIsDecoded` | Sources/Raven/Raven.swift:77-83 | in every other successful case the payload is the decoded body, and a decode failure is `parsingError` with the decoder's error |
| `Client.NonSuccessIsDelegateError` | Sources/Raven/Raven.swift:89-94 | a status that is not a success yields exactly the delegate's error for URL, status and body, and the decoder plays no part |
| `Client.Complete` | Sources/Raven/Raven.swift:60 | a transport error is passed on unchanged; a received reply is interpreted |
| `Client.PerformRequest` | Sources/Raven/Raven.swift:48-95 | an unresolvable endpoint is `invalidEndpoint` and nothing is sent; otherwise the sent request is the built one with the delegate's header fields over it, without decoration, and the result is the transport's error or the interpreted reply |
| `Client.Payload` | Sources/Raven/Raven_Public_Interface.swift:14-16 | `request(_:)` succeeds exactly when the full request does, with the envelope's payload, and fails with the same error |
| `Client.LoginScenario` | Sources/Raven/Raven.swift:69-94 | a 200 reply whose body decodes to a token yields that token; a 401 under the default delegate yields a response error carrying 401 |
| `Delegates.DefaultGetHttpHeader` | Sources/Raven/RavenDelegate.swift:29-31 | the default header hook returns no fields |
| `Delegates.DefaultGenerateError` | Sources/Raven/RavenDelegate.swift:33-35 | the default error hook returns a response error carrying the status code |
| `Delegates.DefaultErrorIgnoresUrlAndBody` | Sources/Raven/RavenDelegate.swift:33-35 | the default error does not depend on the URL or the body |
| `Delegates.DefaultDecorate` | Sources/Raven/RavenDelegate.swift:37 | the default decoration returns the request unchanged |
| `Delegates.DefaultDelegateHooks` | Sources/Raven/RavenDelegate.swift:10-42 | the default delegate, which overrides nothing, has no header fields, the default error, the identity decoration and a plain JSON encoder |

## Left out

- Network transport: `URLSession.shared.data(for:)` (Raven.swift:60) and the continuation bridge `data(forRequest:)` (Raven.swift:97-115) are I/O. The exchange is the parameter `transport` of `Client.PerformRequest`.
- Calling-convention adapters (Raven_Public_Interface.swift): the async, callback and Combine variants differ only in delivery and concurrency. Only `request(_:)` is modelled, as `Client.Payload`; `fullRequest(_:)` is `Client.PerformRequest` itself.
- Foundation codecs: JSONSerialization, JSONEncoder and JSONDecoder are foreign calls. They are uninterpreted functions returning `Option` or `Result`.
- URL parsing and percent-encoding by `URL` and `URLComponents` are foreign. A URL is an address string plus a list of query items. Rejection by URLComponents is the uninterpreted predicate `componentsAccept`.
- `Endpoints.AppendingPathComponent` joins with exactly one `/`; Foundation's escaping of special characters in the component is not modelled.
- `HTTPStatusCode` and its `responseType` table are not part of this model. The table is the uninterpreted `responseType`, and a transport reply carries its status already recognised or absent.
- Header field names are compared exactly. Foundation treats them case-insensitively, so a delegate field `Content-Type` would replace `content-type` there but not in the model.
- Dictionary iteration order is unspecified in Swift. The parameter dictionary is a sequence in some iteration order, and only per-key order and set-like properties are stated. The header overlay iterates its map in an arbitrary order.
- An abort inside JSONSerialization is not modelled. A dictionary body whose top level is a plain String, Int, Float, Double or Bool, or that holds a NaN or infinite number, makes `JSONSerialization.data(withJSONObject:)` raise an Objective-C exception, which `try?` does not catch, so the program stops. The model treats every serialisation failure as an ordinary "no body bytes" result.
- A URL cannot tell an absent query from an empty one. Assigning an empty `queryItems` list, as happens when there are no parameters, may leave a trailing `?` on the URL Foundation produces; the model's URL has an empty item list either way.
- `Float` and `Double` body values are represented by `real`; floating point is not modelled.
- Runtime type introspection through `OptionalProtocol` (Helpers/OptionalProtocol.swift) is replaced by the expectation tag.
- A list parameter is a list of descriptions. A Swift array holding a nil element fails the cast to `[CustomStringConvertible]` and becomes a scalar with the array's description; the model expects the caller to state which case applies.
- An Encodable body is named by `Values.EncodableValue`, the JSON tree (objects, arrays, strings, numbers, booleans, null) it encodes as. A custom `encode(to:)` that throws is an encoder returning `None`. The encoders are uninterpreted, so no property depends on the tree's shape.
- The verbs of `Endpoints.HttpMethod` are the model's choice. The HTTPMethod type the endpoint uses is not part of this model.
- The request's method is kept as the enumeration value, not its raw string.
- The unowned delegate reference, the `jsonEncoder`/`jsonDecoder`/`networkRequestHandler` accessors as objects, `example.swift` (demo code that matches no initialiser) and `Package.swift` (the build manifest) hold no behaviour to model.
