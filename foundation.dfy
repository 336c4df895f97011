/**
 * The Foundation collaborators the client relies on, as uninterpreted inputs:
 * the JSON serialiser for dictionary bodies, the default JSON encoder,
 * URLComponents' acceptance of a joined URL, the status classification table
 * and the transport's reply.
 */
module Foundation {
  import opened Wrappers
  import opened Values

  type Bytes = seq<bv8>

  /** A recognised HTTP status code, by its numeric value. */
  type StatusCode = int

  /** 204 No Content, the one status the decoder treats specially. */
  const NoContent: StatusCode := 204

  /** The classification of a status (`responseType`); only success matters. */
  datatype ResponseType = Successful | Unsuccessful

  /** What the transport returned besides the body: either a response that is
      not an HTTP response, or an HTTP response whose status is absent when
      its numeric code is not a recognised status. */
  datatype UrlResponse =
    | OtherResponse
    | HttpUrlResponse(status: Option<StatusCode>, allHeaderFields: map<string, string>)

  /** One exchange with the transport: it failed, or it returned a body and a response. */
  datatype Exchange = TransportFailure(description: string) | Received(data: Bytes, response: UrlResponse)

  datatype Platform = Platform(
    /** `try? JSONSerialization.data(withJSONObject:)`: None when serialisation throws. */
    jsonSerialization: BodyValue -> Option<Bytes>,
    /** `try? JSONEncoder().encode(_:)`, the encoder of the default delegate. */
    jsonEncoder: EncodableValue -> Option<Bytes>,
    /** Whether URLComponents accepts the URL and yields a `url`. */
    componentsAccept: Url -> bool,
    /** `HTTPStatusCode.responseType`. */
    responseType: StatusCode -> ResponseType)
}
