/**
 Values shared by every part of the model: optional values, the errors the
 Go code builds or passes on, results, the OAuth2 token kept in the session,
 and the HTTP response shape the adapters read.
 */
module Base {

  datatype Option<+T> = None | Some(value: T)

  /** The errors of the modelled code. Errors that come from a library or the
      network are not interpreted: `Vendor` carries their text. */
  datatype Error =
    | InvalidProvider(provider: string)
    | NotImplemented
    | TrackNotFound
    | Detail(detail: string)
    | ItemsRetrieval(cause: Error)
    | NullSelection
    | EmptySelection
    | Vendor(text: string)

  /** The text `err.Error()` yields for each error. */
  function Message(e: Error): string
    decreases e
  {
    match e
    case InvalidProvider(p) => "invalid provider " + p
    case NotImplemented => "not implemented"
    case TrackNotFound => "track not found"
    case Detail(d) => d
    case ItemsRetrieval(c) => "error retrieving playlist items: " + Message(c)
    case NullSelection => "cannot import: list is null"
    case EmptySelection => "cannot import: list is empty"
    case Vendor(t) => t
  }

  /** A value or the error that replaced it (Go's `(T, error)` pair). */
  datatype Result<+T> = Ok(value: T) | Err(error: Error) {
    predicate IsFailure() { Err? }

    function PropagateFailure<U>(): Result<U>
      requires Err?
    {
      Err(error)
    }

    function Extract(): T
      requires Ok?
    {
      value
    }
  }

  /** A Go `error` return on its own: nil or an error. */
  datatype Outcome = Pass | Fail(error: Error)

  /** An OAuth2 token; `expiry` is the expiry instant in Unix seconds. */
  datatype Token = Token(accessToken: string, refreshToken: string, tokenType: string, expiry: int)

  /** An API client, identified by the token it was authorised with. */
  datatype Client = Client(token: Token)

  /** An HTTP response whose JSON body is read as a flat object of strings. */
  datatype HttpResponse = HttpResponse(status: int, body: map<string, string>)

  /** Decoding a JSON body into a Go struct leaves a missing field at its zero
      value, so reading an absent key yields the empty string. */
  function Field(body: map<string, string>, key: string): (v: string)
    ensures key in body ==> v == body[key]
    ensures key !in body ==> v == ""
  {
    if key in body then body[key] else ""
  }
}
