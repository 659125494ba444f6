/**
 * The response resolver, `try_deserializing` (src/lib.rs). It reads the body
 * of a completed response and classifies it: the endpoint's success shape
 * first, the service's error envelope second, and a JSON error when neither
 * fits. serde_json is an oracle here: each shape is a parser passed in.
 */
module Resolver {
  import opened Prelude
  import opened Errors

  /** `HttpErrorInner`: the envelope the service sends instead of a result. */
  datatype Envelope = HttpErrorInner(statusCode: u16, error: string, message: string)

  /** `HTTPResponse`: the body read as a success payload or as an error envelope. */
  datatype HttpResponse<T> = HttpOk(inner: T) | HttpErrorBody(envelope: Envelope)

  /**
   * `reqwest::Response`, for the resolver's purposes: its status code, and what
   * `res.bytes()` yields, the full body or a failure while reading it.
   */
  datatype Response = Response(status: u16, body: Result<seq<byte>, TransportError>)

  /** `serde_json::from_slice` at one target type. */
  type Parser<T> = seq<byte> -> Result<T, JsonError>

  /** Lines 178-183: the success shape is tried, and only when it fails the envelope. */
  function Classify<T>(full: seq<byte>, parseT: Parser<T>, parseErr: Parser<Envelope>): Result<HttpResponse<T>, Error>
  {
    if parseT(full).Ok? then Ok(HttpOk(parseT(full).value))
    else match parseErr(full)
      case Ok(err) => Ok(HttpErrorBody(err))
      case Err(e) => Err(FromJson(e))
  }

  /** `try_deserializing`. */
  function TryDeserializing<T>(res: Response, parseT: Parser<T>, parseErr: Parser<Envelope>): (r: Result<T, Error>)
    // a failed body read is a transport error
    ensures res.body.Err? ==> r == Err(Reqwest(res.body.error))
    // success exactly when the success shape parses, with the parsed value and nothing else
    ensures res.body.Ok? ==> (r.Ok? <==> parseT(res.body.value).Ok?)
    ensures r.Ok? ==> res.body.Ok? && r.value == parseT(res.body.value).value
    // a service error exactly when only the envelope parses, its three fields copied verbatim
    ensures forall s, e, m :: r == Err(HttpError(s, e, m)) <==>
      res.body.Ok? && parseT(res.body.value).Err? && parseErr(res.body.value) == Ok(HttpErrorInner(s, e, m))
    // a JSON error exactly when neither parses, carrying the envelope parser's error
    ensures r.Err? && r.error.SerdeJson? <==>
      res.body.Ok? && parseT(res.body.value).Err? && parseErr(res.body.value).Err?
    ensures r.Err? && r.error.SerdeJson? ==> r.error.json == parseErr(res.body.value).error
    ensures r.Err? ==> r.error.Reqwest? || r.error.HttpError? || r.error.SerdeJson?
  {
    match res.body
    case Err(e) => Err(FromTransport(e))
    case Ok(full) =>
      match Classify(full, parseT, parseErr)
      case Err(e) => Err(e)
      case Ok(HttpOk(inner)) => Ok(inner)
      case Ok(HttpErrorBody(HttpErrorInner(statusCode, error, message))) => Err(HttpError(statusCode, error, message))
  }

  /** No status code is read: the outcome depends on the body alone. */
  lemma StatusCodeIgnored<T>(res: Response, status: u16, parseT: Parser<T>, parseErr: Parser<Envelope>)
    ensures TryDeserializing(res.(status := status), parseT, parseErr) == TryDeserializing(res, parseT, parseErr)
  {
  }

  /** When the success shape parses, the envelope parser is never consulted. */
  lemma SuccessSkipsEnvelope<T>(res: Response, parseT: Parser<T>, parseErr: Parser<Envelope>, otherErr: Parser<Envelope>)
    requires res.body.Ok? && parseT(res.body.value).Ok?
    ensures TryDeserializing(res, parseT, parseErr) == TryDeserializing(res, parseT, otherErr)
    ensures TryDeserializing(res, parseT, parseErr) == Ok(parseT(res.body.value).value)
  {
  }

  /** When the success shape fails, why it failed is discarded: only the fact of failure matters. */
  lemma FirstParseErrorDiscarded<T>(res: Response, parseT: Parser<T>, otherT: Parser<T>, parseErr: Parser<Envelope>)
    requires res.body.Ok? && parseT(res.body.value).Err? && otherT(res.body.value).Err?
    ensures TryDeserializing(res, parseT, parseErr) == TryDeserializing(res, otherT, parseErr)
  {
  }

  /**
   * Success wins when both shapes match. For a schema-free target such as
   * `serde_json::Value`, which accepts every well-formed JSON document, any
   * body the envelope parser accepts is also a success, so such a target never
   * yields a service error; a body the target refuses yields a JSON error.
   */
  lemma SchemaFreeTargetNeverServiceError<T>(res: Response, wellFormed: seq<byte> -> bool,
                                             parseT: Parser<T>, parseErr: Parser<Envelope>)
    requires res.body.Ok?
    requires parseT(res.body.value).Ok? <==> wellFormed(res.body.value)
    requires parseErr(res.body.value).Ok? ==> wellFormed(res.body.value)
    ensures var r := TryDeserializing(res, parseT, parseErr);
      && !(r.Err? && r.error.HttpError?)
      && (parseErr(res.body.value).Ok? ==> r == Ok(parseT(res.body.value).value))
      && (!wellFormed(res.body.value) ==> r.Err? && r.error.SerdeJson?)
  {
  }
}
