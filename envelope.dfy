/** The response envelope (RavenResponse.swift). */
module Envelope {
  import opened Foundation

  /** The payload: EmptyResponse(), nil for an Optional type, or a decoded value. */
  datatype ResponseData<V> = EmptyResponse | Nil | Decoded(value: V)

  datatype Response<V> = Response(statusCode: StatusCode, header: map<string, string>, data: ResponseData<V>)
}
