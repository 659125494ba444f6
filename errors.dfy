/**
 * The crate's single error type (src/error.rs). Every failure that any
 * operation of the client reports is exactly one of its nine variants.
 *
 * The payloads that come from foreign crates (reqwest, serde_json, url, std::io,
 * toml, a boxed trait object) are known to the model only by a description:
 * the model never looks inside them, it only carries them.
 */
module Errors {
  import opened Prelude

  /** `std::result::Result`, used with `Error` as its error type throughout the crate. */
  datatype Result<T, E> = Ok(value: T) | Err(error: E)

  /** `reqwest::Error`: a transport failure (connect, send or body read). */
  datatype TransportError = TransportError(description: string)

  /** `serde_json::Error`: a body that does not deserialize into the requested shape. */
  datatype JsonError = JsonError(description: string)

  /** `url::ParseError`: a base URL or a relative reference the url crate refuses. */
  datatype UrlParseError = UrlParseError(description: string)

  /** `std::io::Error`. */
  datatype IoError = IoError(description: string)

  /** `toml::de::Error`. */
  datatype TomlError = TomlError(description: string)

  /** `Box<dyn std::error::Error + Send + Sync>`. */
  datatype BoxedError = BoxedError(description: string)

  /** `enum Error`, one constructor per variant, in declaration order. */
  datatype Error =
    | Reqwest(transport: TransportError)
    | SerdeJson(json: JsonError)
    | Url(url: UrlParseError)
    | Config(field: string)
    | FileRead(io: IoError)
    | Toml(toml: TomlError)
    | EvaluateTxResult(cause: BoxedError)
    | EvaluateTxFailure(reason: string)
    | HttpError(statusCode: u16, error: string, message: string)

  /** The three `#[from]` conversions that `?` applies. */
  function FromTransport(e: TransportError): Error { Reqwest(e) }

  function FromJson(e: JsonError): Error { SerdeJson(e) }

  function FromUrl(e: UrlParseError): Error { Url(e) }

  /** How many variant tests hold of `e`. */
  function ActiveVariants(e: Error): nat
  {
    (if e.Reqwest? then 1 else 0) + (if e.SerdeJson? then 1 else 0) + (if e.Url? then 1 else 0)
    + (if e.Config? then 1 else 0) + (if e.FileRead? then 1 else 0) + (if e.Toml? then 1 else 0)
    + (if e.EvaluateTxResult? then 1 else 0) + (if e.EvaluateTxFailure? then 1 else 0)
    + (if e.HttpError? then 1 else 0)
  }

  /** The set is closed and the variants exclude each other: every error is exactly one kind. */
  lemma ExactlyOneVariant(e: Error)
    ensures ActiveVariants(e) == 1
  {
  }

  /**
   * `?` sends each foreign error to its own variant, keeps the payload, and
   * no two foreign errors meet in one value.
   */
  lemma FromConversionsKeepTheirCause(t: TransportError, j: JsonError, u: UrlParseError)
    ensures FromTransport(t).Reqwest? && FromTransport(t).transport == t
    ensures FromJson(j).SerdeJson? && FromJson(j).json == j
    ensures FromUrl(u).Url? && FromUrl(u).url == u
    ensures FromTransport(t) != FromJson(j) && FromJson(j) != FromUrl(u) && FromUrl(u) != FromTransport(t)
  {
  }

  /**
   * The variants an HTTP call can produce. `Config`, `FileRead` and `Toml` belong
   * to key loading; `EvaluateTxResult` and `EvaluateTxFailure` are declared and
   * never constructed.
   */
  predicate FromHttpCall(e: Error)
  {
    e.Reqwest? || e.SerdeJson? || e.Url? || e.HttpError?
  }

  /** The service-error variant's status code is a 16-bit unsigned number. */
  lemma HttpStatusCodeIsU16(e: Error)
    requires e.HttpError?
    ensures 0 <= e.statusCode as int <= 65535
  {
  }
}
