/** A URLRequest value: URL, method, header fields and optional body. */
module Requests {
  import opened Wrappers
  import opened Values
  import opened Endpoints
  import opened Foundation

  datatype Request = Request(url: Url, httpMethod: HttpMethod, headers: map<string, string>, httpBody: Option<Bytes>)
  {
    /** `setValue(_:forHTTPHeaderField:)`: sets the field, replacing an earlier value. */
    function SetValue(value: string, field: string): Request {
      this.(headers := headers[field := value])
    }
  }

  /** `URLRequest(url:)`: a GET request with no header fields and no body. */
  function NewRequest(url: Url): Request {
    Request(url, Get, map[], None)
  }
}
