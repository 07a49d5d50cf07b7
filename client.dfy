/** What the client's operations share: the API base paths, the path
    normalisation of application and pod identifiers, and the HTTP transport,
    which is a parameter of every operation rather than something modelled. */
module Client {
  import opened Wrappers
  import opened GoJson

  /** The base paths of the pods and queue resources. They are declared in a
      file that is not part of this model; no property below depends on their
      values. */
  const MarathonApiPods: string := "v2/pods"
  const MarathonApiQueue: string := "v2/queue"

  /** trimRootPath: an identifier given as "/x" is the same as "x". Its
      definition is not part of this model; it is taken to strip exactly one
      leading '/'. */
  function TrimRootPath(path: string): (r: string)
    ensures path == r || path == "/" + r
    ensures (|path| > 0 && path[0] == '/') <==> path == "/" + r
  {
    if |path| > 0 && path[0] == '/' then path[1..] else path
  }

  lemma TrimRootPathOfSlash(name: string)
    requires |name| == 0 || name[0] != '/'
    ensures TrimRootPath("/" + name) == name && TrimRootPath(name) == name
  {
    assert ("/" + name)[1..] == name;
  }

  datatype Verb = Get | Delete

  /** One HTTP request of the client: the verb, the path relative to the API
      root, and the JSON the request body is marshalled to, if it has one. */
  datatype Request = Request(verb: Verb, path: string, body: Option<Json>)

  /** A failed call: the transport's own error, passed through unchanged, or a
      response that does not decode into the result type. */
  datatype ApiError = TransportError(message: string) | DecodeFailure(cause: DecodeError)

  /** apiGet / apiDelete: one request and the JSON body of its response, or the
      transport's error. Decoding that body into the caller's target is done by
      the operations themselves. */
  type Transport = Request -> Result<Json, ApiError>

  /** The (value, error) a call returns once the response body is decoded into
      the caller's result target: the transport error unchanged, a decode
      failure, or the decoded value. */
  function CallInto<T>(send: Transport, req: Request, dec: Decoder<T>): (r: Result<T, ApiError>)
    ensures send(req).Err? ==> r == Err(send(req).error)
    ensures send(req).Ok? && dec(send(req).value).Err? ==> r == Err(DecodeFailure(dec(send(req).value).error))
    ensures r.Ok? <==> send(req).Ok? && dec(send(req).value).Ok?
    ensures r.Ok? ==> Ok(r.value) == dec(send(req).value)
  {
    match send(req)
    case Err(e) => Err(e)
    case Ok(body) =>
      match dec(body)
      case Err(d) => Err(DecodeFailure(d))
      case Ok(v) => Ok(v)
  }
}
