/**
 * The plain values shared by the endpoint description and the Foundation
 * collaborators: body values handed to the JSON codecs, and URLs with their
 * query items. They sit below both, so that neither depends on the other.
 */
module Values {
  /** A value of a dictionary body (the BodyDictionary conformances: String,
      Int, Float/Double, Bool and string-keyed dictionaries of these). */
  datatype BodyValue =
    | Text(text: string)
    | Integer(integer: int)
    | Number(number: real)
    | Flag(flag: bool)
    | Dictionary(entries: map<string, BodyValue>)

  /** An Encodable value, named by the JSON value tree its `encode(to:)`
      produces through an encoder: objects, arrays, strings, numbers,
      booleans and null. The encoders that consume it are uninterpreted, so
      the model relies only on which tree is given, not on its shape. */
  datatype EncodableValue =
    | JsonNull
    | JsonString(text: string)
    | JsonInteger(integer: int)
    | JsonNumber(number: real)
    | JsonBool(flag: bool)
    | JsonArray(elements: seq<EncodableValue>)
    | JsonObject(members: map<string, EncodableValue>)

  datatype QueryItem = QueryItem(name: string, value: string)

  /** A URL: everything before the query (scheme, host and path), and its query items. */
  datatype Url = Url(address: string, queryItems: seq<QueryItem>)
}
