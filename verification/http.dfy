/**
 * The parts of Go's net/http and net/url that the client library relies on,
 * reduced to plain values: the header map (http.Header, several values per
 * key), the form (url.Values, one value per key, as the client fills it), URLs,
 * the request record the client builds, and the outcome of one round trip.
 */
module Http {

  datatype Option<+T> = None | Some(value: T)

  datatype Result<+T, +E> = Success(value: T) | Failure(error: E)

  /** A header map (http.Header): each key holds an ordered list of values. */
  type Header = map<string, seq<string>>

  /** http.Header.Add: the value is appended to those the key already holds. */
  function Add(h: Header, key: string, value: string): Header
  {
    h[key := (if key in h then h[key] else []) + [value]]
  }

  /** A form (url.Values) as url.Values.Set leaves it: each key present holds
      exactly one value. */
  type Form = map<string, string>

  /** url.Values.Get, as used by Request.FormValue: the value of the key, or ""
      when the key is absent. */
  function FormValue(v: Form, key: string): string
  {
    if key in v then v[key] else ""
  }

  /** The user name and password of HTTP Basic authentication. */
  datatype Credentials = Credentials(username: string, password: string)

  /** A base URL reduced to its scheme and host. */
  datatype Origin = Origin(scheme: string, host: string)

  datatype Url = Url(scheme: string, host: string, path: string)

  /** An outgoing request: method (verb), target, header map, Basic credentials and
      the form body (None for a request without a body). */
  datatype Request = Request(
    verb: string,
    url: Url,
    header: Header,
    basicAuth: Option<Credentials>,
    body: Option<Form>)

  /** What one round trip over the network produced: a transport failure, or a
      response with its status code and body text. */
  datatype Reply = TransportError(reason: string) | Response(status: int, body: string)

  /** A JSON decoder for a target of type T: the body text either decodes to a
      value or fails with a message. */
  type Decoder<T> = string -> Result<T, string>
}
