/**
 * The client (Raven.swift): it owns a delegate and a base URL, builds a
 * request from an endpoint, overlays the delegate's header fields, hands the
 * request to the transport and interprets the reply.
 */
module Client {
  import opened Wrappers
  import opened Values
  import opened Endpoints
  import opened Foundation
  import opened Errors
  import opened Envelope
  import opened Requests
  import opened Delegates

  const JsonContentType: string := "application/json; charset=utf-8"

  datatype Raven = Raven(delegate: Delegate, baseUrl: Url)

  /** `init(delegate:baseURL:)`: without a delegate the client uses DefaultDelegate. */
  function NewRaven(platform: Platform, baseUrl: Url, delegate: Option<Delegate> := None): (r: Raven)
    ensures r.baseUrl == baseUrl
    ensures delegate.Some? ==> r.delegate == delegate.value
    ensures delegate.None? ==> r.delegate == DefaultDelegate(platform)
  {
    Raven(if delegate.Some? then delegate.value else DefaultDelegate(platform), baseUrl)
  }

  // ---------------------------------------------------------------------------
  // Request building

  /** The body bytes: a dictionary body through JSONSerialization, an Encodable
      body through the delegate's encoder; a failure of either gives no bytes. */
  function EncodedBody(body: Option<RequestBody>, platform: Platform, delegate: Delegate): (r: Option<Bytes>)
    ensures body.None? ==> r.None?
    ensures body.Some? && body.value.Dict? ==> r == platform.jsonSerialization(body.value.dictionary)
    ensures body.Some? && body.value.Encodable? ==> r == delegate.jsonEncoder(body.value.encodable)
  {
    match body
    case None => None
    case Some(Dict(d)) => platform.jsonSerialization(d)
    case Some(Encodable(v)) => delegate.jsonEncoder(v)
  }

  /** The rules a built request follows: the endpoint's method; `Accept:
      text/plain` exactly when a response body is expected; the JSON
      content type exactly when there is a body; no other header field; and
      the encoded body, if any. */
  ghost predicate BuiltFor(r: Request, url: Url, e: Endpoint, raven: Raven, platform: Platform) {
    && r.url == url
    && r.httpMethod == e.httpMethod
    && ("Accept" in r.headers <==> e.responseDataType != ExpectEmpty)
    && ("Accept" in r.headers ==> r.headers["Accept"] == "text/plain")
    && ("content-type" in r.headers <==> e.requestBody.Some?)
    && ("content-type" in r.headers ==> r.headers["content-type"] == JsonContentType)
    && r.headers.Keys <= {"Accept", "content-type"}
    && r.httpBody == EncodedBody(e.requestBody, platform, raven.delegate)
  }

  /** The rules leave no freedom: two requests built for the same endpoint and URL are equal. */
  lemma BuiltForIsUnique(r1: Request, r2: Request, url: Url, e: Endpoint, raven: Raven, platform: Platform)
    requires BuiltFor(r1, url, e, raven, platform) && BuiltFor(r2, url, e, raven, platform)
    ensures r1 == r2
  {
    assert r1.headers.Keys == r2.headers.Keys;
    assert r1.headers == r2.headers;
  }

  /** `generateURLRequest(forEndpoint:)`: None exactly when the endpoint does
      not resolve against the base URL; otherwise a request following the rules. */
  method GenerateUrlRequest(raven: Raven, e: Endpoint, platform: Platform) returns (r: Option<Request>)
    ensures r.Some? <==> UrlFromBase(e, raven.baseUrl, platform.componentsAccept).Some?
    ensures r.Some? ==> BuiltFor(r.value, UrlFromBase(e, raven.baseUrl, platform.componentsAccept).value, e, raven, platform)
  {
    var url := UrlFromBase(e, raven.baseUrl, platform.componentsAccept);
    if url.None? {
      return None;
    }
    var request := NewRequest(url.value);
    request := request.(httpMethod := e.httpMethod);
    if e.responseDataType != ExpectEmpty {
      request := request.SetValue("text/plain", "Accept");
    }
    if e.requestBody.Some? {
      request := request.SetValue(JsonContentType, "content-type");
      match e.requestBody.value
      case Dict(dictionary) =>
        request := request.(httpBody := platform.jsonSerialization(dictionary));
      case Encodable(encodable) =>
        request := request.(httpBody := raven.delegate.jsonEncoder(encodable));
    }
    return Some(request);
  }

  /** The header loop of `performRequest`: every field of the delegate's map
      is set on the request, replacing an earlier value; every other field,
      the URL, the method and the body are left as they were. */
  method ApplyHeaders(request: Request, headerConfiguration: map<string, string>) returns (r: Request)
    ensures r.url == request.url && r.httpMethod == request.httpMethod && r.httpBody == request.httpBody
    ensures r.headers.Keys == request.headers.Keys + headerConfiguration.Keys
    ensures forall field :: field in headerConfiguration ==> r.headers[field] == headerConfiguration[field]
    ensures forall field :: field in request.headers && field !in headerConfiguration ==> r.headers[field] == request.headers[field]
  {
    r := request;
    var pending := headerConfiguration.Keys;
    while pending != {}
      invariant pending <= headerConfiguration.Keys
      invariant r.url == request.url && r.httpMethod == request.httpMethod && r.httpBody == request.httpBody
      invariant r.headers.Keys == request.headers.Keys + (headerConfiguration.Keys - pending)
      invariant forall field :: field in headerConfiguration && field !in pending ==> r.headers[field] == headerConfiguration[field]
      invariant forall field :: field in request.headers && field !in headerConfiguration ==> r.headers[field] == request.headers[field]
      decreases pending
    {
      var fieldName :| fieldName in pending;
      r := r.SetValue(headerConfiguration[fieldName], fieldName);
      pending := pending - {fieldName};
    }
  }

  /** The overlay stated as a map union: the delegate's fields win. */
  lemma OverlayIsUnion(request: Request, r: Request, headerConfiguration: map<string, string>)
    requires r.headers.Keys == request.headers.Keys + headerConfiguration.Keys
    requires forall field :: field in headerConfiguration ==> r.headers[field] == headerConfiguration[field]
    requires forall field :: field in request.headers && field !in headerConfiguration ==> r.headers[field] == request.headers[field]
    ensures r.headers == request.headers + headerConfiguration
  {
  }

  /** With the default delegate the overlay adds nothing. */
  lemma DefaultOverlayIsIdentity(platform: Platform, e: Endpoint, request: Request)
    ensures request.headers + DefaultDelegate(platform).getHttpHeader(e) == request.headers
  {
  }

  // ---------------------------------------------------------------------------
  // Response interpretation

  /** Interprets the transport's reply for a request to `url`: an unknown
      error without a classified HTTP status; on success the payload chosen
      in priority order (EmptyResponse without decoding; nil for an Optional
      type on 204 No Content; otherwise the decoded body, a decode failure
      becoming a parsing error) in an envelope with the status and the
      response's header fields; on any other status the delegate's error. */
  function InterpretResponse<V>(delegate: Delegate, platform: Platform, url: Url, expectation: Expectation,
                                decode: Bytes -> Result<V, DecodeError>,
                                data: Bytes, response: UrlResponse): (r: Result<Response<V>, Error>)
    ensures r.Success? ==> response.HttpUrlResponse? && response.status.Some?
    ensures r.Success? ==> platform.responseType(response.status.value) == Successful
    ensures r.Success? ==> r.value.statusCode == response.status.value && r.value.header == response.allHeaderFields
  {
    if response.OtherResponse? || response.status.None? then
      Failure(FromRaven(UnknownError))
    else
      var httpStatus := response.status.value;
      if platform.responseType(httpStatus) == Successful then
        var returnData: Result<ResponseData<V>, Error> :=
          if expectation == ExpectEmpty then Success(EmptyResponse)
          else if expectation == ExpectOptional && httpStatus == NoContent then Success(Nil)
          else match decode(data)
            case Success(v) => Success(Decoded(v))
            case Failure(err) => Failure(FromRaven(ParsingError(err)));
        match returnData
        case Success(payload) => Success(Response(httpStatus, response.allHeaderFields, payload))
        case Failure(err) => Failure(err)
      else
        Failure(delegate.generateError(url, httpStatus, data))
  }

  /** Not an HTTP response, or no recognised status: an unknown error. */
  lemma UnclassifiedIsUnknownError<V>(delegate: Delegate, platform: Platform, url: Url, expectation: Expectation,
                                      decode: Bytes -> Result<V, DecodeError>, data: Bytes, response: UrlResponse)
    requires response.OtherResponse? || response.status.None?
    ensures InterpretResponse(delegate, platform, url, expectation, decode, data, response) == Failure(FromRaven(UnknownError))
  {
  }

  /** EmptyResponse is produced without decoding: the result is the same for
      any two bodies and any two decoders. */
  lemma EmptyResponseIgnoresBody<V>(delegate: Delegate, platform: Platform, url: Url,
                                    decode: Bytes -> Result<V, DecodeError>, decode': Bytes -> Result<V, DecodeError>,
                                    data: Bytes, data': Bytes, status: StatusCode, fields: map<string, string>)
    requires platform.responseType(status) == Successful
    ensures InterpretResponse(delegate, platform, url, ExpectEmpty, decode, data, HttpUrlResponse(Some(status), fields))
         == Success(Response(status, fields, EmptyResponse))
    ensures InterpretResponse(delegate, platform, url, ExpectEmpty, decode, data, HttpUrlResponse(Some(status), fields))
         == InterpretResponse(delegate, platform, url, ExpectEmpty, decode', data', HttpUrlResponse(Some(status), fields))
  {
  }

  /** An Optional type on 204 No Content gives nil without decoding, even from
      a body the decoder would reject. */
  lemma OptionalNoContentIsNil<V>(delegate: Delegate, platform: Platform, url: Url,
                                  decode: Bytes -> Result<V, DecodeError>, data: Bytes, fields: map<string, string>)
    requires platform.responseType(NoContent) == Successful
    ensures InterpretResponse(delegate, platform, url, ExpectOptional, decode, data, HttpUrlResponse(Some(NoContent), fields))
         == Success(Response(NoContent, fields, Nil))
  {
  }

  /** In every other successful case the body is decoded; a decode failure is
      a parsing error carrying the decoder's error. */
  lemma OtherwiseBodyIsDecoded<V>(delegate: Delegate, platform: Platform, url: Url, expectation: Expectation,
                                  decode: Bytes -> Result<V, DecodeError>, data: Bytes, status: StatusCode,
                                  fields: map<string, string>)
    requires platform.responseType(status) == Successful
    requires expectation == ExpectValue || (expectation == ExpectOptional && status != NoContent)
    ensures InterpretResponse(delegate, platform, url, expectation, decode, data, HttpUrlResponse(Some(status), fields))
         == match decode(data)
            case Success(v) => Success(Response(status, fields, Decoded(v)))
            case Failure(err) => Failure(FromRaven(ParsingError(err)))
  {
  }

  /** A status that is not a success is exactly the delegate's error for the
      URL, status and body; the decoder plays no part. */
  lemma NonSuccessIsDelegateError<V>(delegate: Delegate, platform: Platform, url: Url, expectation: Expectation,
                                     decode: Bytes -> Result<V, DecodeError>, decode': Bytes -> Result<V, DecodeError>,
                                     data: Bytes, status: StatusCode, fields: map<string, string>)
    requires platform.responseType(status) != Successful
    ensures InterpretResponse(delegate, platform, url, expectation, decode, data, HttpUrlResponse(Some(status), fields))
         == Failure(delegate.generateError(url, status, data))
    ensures InterpretResponse(delegate, platform, url, expectation, decode, data, HttpUrlResponse(Some(status), fields))
         == InterpretResponse(delegate, platform, url, expectation, decode', data, HttpUrlResponse(Some(status), fields))
  {
  }

  // ---------------------------------------------------------------------------
  // The whole pipeline

  /** The reply of the transport, interpreted: a transport error is passed on unmapped. */
  function Complete<V>(delegate: Delegate, platform: Platform, url: Url, expectation: Expectation,
                       decode: Bytes -> Result<V, DecodeError>, exchange: Exchange): (r: Result<Response<V>, Error>)
    ensures exchange.TransportFailure? ==> r == Failure(TransportError(exchange.description))
    ensures exchange.Received? ==> r == InterpretResponse(delegate, platform, url, expectation, decode, exchange.data, exchange.response)
  {
    match exchange
    case TransportFailure(description) => Failure(TransportError(description))
    case Received(data, response) => InterpretResponse(delegate, platform, url, expectation, decode, data, response)
  }

  /** `performRequest`. `transport` is the network exchange for a request and
      `decode` the delegate's JSON decoder for the endpoint's response type.
      `built` is the request generated from the endpoint and `sent` the one
      handed to the transport: there is none when the endpoint does not
      resolve, and the result is then an invalid-endpoint error. The sent
      request is the built one with the delegate's header fields laid over
      it; the decoration hook is not applied. */
  method PerformRequest<V>(raven: Raven, e: Endpoint, platform: Platform,
                           transport: Request -> Exchange, decode: Bytes -> Result<V, DecodeError>)
    returns (result: Result<Response<V>, Error>, ghost built: Option<Request>, ghost sent: Option<Request>)
    ensures UrlFromBase(e, raven.baseUrl, platform.componentsAccept).None? ==> result == Failure(FromRaven(InvalidEndpoint))
    ensures result.Success? ==> UrlFromBase(e, raven.baseUrl, platform.componentsAccept).Some?
    ensures built.None? <==> UrlFromBase(e, raven.baseUrl, platform.componentsAccept).None?
    ensures built.None? ==> sent.None? && result == Failure(FromRaven(InvalidEndpoint))
    ensures built.Some? ==> BuiltFor(built.value, UrlFromBase(e, raven.baseUrl, platform.componentsAccept).value, e, raven, platform)
    ensures built.Some? ==> sent == Some(built.value.(headers := built.value.headers + raven.delegate.getHttpHeader(e)))
    ensures sent.Some? ==> result == Complete(raven.delegate, platform, sent.value.url, e.responseDataType, decode, transport(sent.value))
  {
    var generated := GenerateUrlRequest(raven, e, platform);
    built := generated;
    if generated.None? {
      return Failure(FromRaven(InvalidEndpoint)), built, None;
    }
    var request := generated.value;
    var headerConfiguration := raven.delegate.getHttpHeader(e);
    request := ApplyHeaders(request, headerConfiguration);
    OverlayIsUnion(generated.value, request, headerConfiguration);
    assert request == generated.value.(headers := generated.value.headers + headerConfiguration);
    sent := Some(request);
    var exchange := transport(request);
    match exchange
    case TransportFailure(description) =>
      result := Failure(TransportError(description));
    case Received(data, response) =>
      result := InterpretResponse(raven.delegate, platform, request.url, e.responseDataType, decode, data, response);
  }

  /** `request(_:)`: the payload of `performRequest`'s envelope, or its error. */
  function Payload<V>(full: Result<Response<V>, Error>): (r: Result<ResponseData<V>, Error>)
    ensures r.Success? <==> full.Success?
    ensures r.Success? ==> r.value == full.value.data
    ensures r.Failure? ==> r.error == full.error
  {
    match full
    case Success(response) => Success(response.data)
    case Failure(err) => Failure(err)
  }

  /** The login scenario: a POST whose reply is 200 with a body the decoder
      reads as `token` gives that payload; a 401 reply under the default
      delegate gives a response error carrying 401. */
  lemma LoginScenario<V>(platform: Platform, url: Url, decode: Bytes -> Result<V, DecodeError>, token: V,
                         body: Bytes, errorBody: Bytes, fields: map<string, string>)
    requires platform.responseType(200) == Successful && platform.responseType(401) == Unsuccessful
    requires decode(body) == Success(token)
    ensures Payload(InterpretResponse(DefaultDelegate(platform), platform, url, ExpectValue, decode, body,
                                      HttpUrlResponse(Some(200), fields))) == Success(Decoded(token))
    ensures InterpretResponse(DefaultDelegate(platform), platform, url, ExpectValue, decode, errorBody,
                              HttpUrlResponse(Some(401), fields)) == Failure(FromRaven(ResponseError(401)))
  {
  }
}
