/**
 * The customisation delegate (RavenDelegate.swift): per-endpoint header
 * fields, the error hook for non-success responses, the request decoration
 * hook and the JSON encoder, with the protocol's default implementations.
 */
module Delegates {
  import opened Wrappers
  import opened Values
  import opened Endpoints
  import opened Foundation
  import opened Errors
  import opened Requests

  datatype Delegate = Delegate(
    getHttpHeader: Endpoint -> map<string, string>,
    generateError: (Url, StatusCode, Bytes) -> Error,
    decorate: Request -> Request,
    jsonEncoder: EncodableValue -> Option<Bytes>)

  /** Default `getHttpHeader`: no extra header fields. */
  function DefaultGetHttpHeader(endpoint: Endpoint): (fields: map<string, string>)
    ensures |fields| == 0
  {
    map[]
  }

  /** Default `generateError`: a response error carrying the status code. */
  function DefaultGenerateError(url: Url, statusCode: StatusCode, responseData: Bytes): (e: Error)
    ensures e.FromRaven? && e.ravenError.ResponseError? && e.ravenError.statusCode == statusCode
  {
    FromRaven(ResponseError(statusCode))
  }

  /** Default `decorate`: the request as given. */
  function DefaultDecorate(request: Request): (r: Request)
    ensures r == request
  {
    request
  }

  /** DefaultDelegate, which overrides nothing: every hook is the protocol's
      default, and its encoder is a plain JSONEncoder. */
  function DefaultDelegate(platform: Platform): Delegate {
    Delegate(DefaultGetHttpHeader, DefaultGenerateError, DefaultDecorate, platform.jsonEncoder)
  }

  /** The hooks of DefaultDelegate behave as the defaults, whatever the
      endpoint, URL, status, body or request. */
  lemma DefaultDelegateHooks(platform: Platform, e: Endpoint, url: Url, status: StatusCode, data: Bytes, request: Request)
    ensures DefaultDelegate(platform).getHttpHeader(e) == map[]
    ensures DefaultDelegate(platform).generateError(url, status, data) == FromRaven(ResponseError(status))
    ensures DefaultDelegate(platform).decorate(request) == request
    ensures DefaultDelegate(platform).jsonEncoder == platform.jsonEncoder
  {
  }

  /** The default error hook ignores the URL and the body. */
  lemma DefaultErrorIgnoresUrlAndBody(url: Url, url': Url, status: StatusCode, data: Bytes, data': Bytes)
    ensures DefaultGenerateError(url, status, data) == DefaultGenerateError(url', status, data')
  {
  }
}
