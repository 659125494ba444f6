# blockfrost-http-client, modelled in Dafny

The crate is a thin asynchronous client for the Blockfrost Cardano API. This
model covers the parts of its own logic that are deterministic:

- **The response resolver** (`try_deserializing`). It reads a response body.
  It first tries the endpoint's success shape. If that fails, it tries the
  service's error envelope `{status_code, error, message}`. If that also
  fails, it reports a JSON error.
- **The request each endpoint builds**: the method, the relative `./…` path,
  the query pairs, the headers and the body. It also covers how URL, transport
  and resolver failures reach the caller, through `get_endpoint` /
  `get_endpoint_with_params` and the two inlined POSTs.
- **The error taxonomy** of `src/error.rs`: nine variants, and the three
  `#[from]` conversions that `?` uses.
- Two side models, each backing one finding below:
  - reference resolution of the `./…` paths against the two base-URL
    constants;
  - `load_key_from_file`, with file reading and TOML parsing given as outcomes.

Foreign code appears mostly as parameters:

- `Url::parse` and `Url::join` are the `parse` and `join` fields of
  `Client.Net`.
- The transport's `send` is the `send` field. It returns a
  `Resolver.Response`: a status code, plus what `res.bytes()` yields.
- serde_json at each target type is a `Resolver.Parser<T>`.
- For key loading, the file read is an outcome and toml parsing is a function.

Three foreign behaviours are instead given concrete definitions, because the
properties depend on them:

- `hex::encode` is `Hex.HexEncode`.
- `Display` for integers is `Decimal.DecimalString`.
- `Url::join` is `UrlJoin.Join`, on a restricted domain and used only for the
  base-URL finding. `Client.Call` still takes `join` as a parameter.

Files:

- `prelude.dfy`: the fixed-width integers and `Option`.
- `errors.dfy`: module `Errors`.
- `resolver.dfy`: module `Resolver`.
- `decimal.dfy`: module `Decimal`, `Display` for integers.
- `hex.dfy`: module `Hex`, `hex::encode`.
- `client.dfy`: module `Client`.
- `urljoin.dfy`: module `UrlJoin`.
- `config.dfy`: module `Config`.

## Model

| member | source | states |
|---|---|---|
| Errors.ExactlyOneVariant | src/error.rs:7-30 | The error set is closed: exactly one of the nine variant tests holds of any error. |
| Errors.FromConversionsKeepTheirCause | src/error.rs:8-13 | The `#[from]` conversions send a reqwest, serde_json or url error to `Reqwest`, `SerdeJson` or `Url`. Each keeps its payload, and no two of them coincide. |
| Errors.HttpStatusCodeIsU16 | src/error.rs:25-29 | The service-error variant carries a 16-bit status code (0..65535), next to the free-form `error` and `message`. |
| Resolver.TryDeserializing | src/lib.rs:174-196 | A failed body read gives `Reqwest`. The result is `Ok` exactly when the success shape parses, and then holds the parsed value, so there is no default. `HttpError(s, e, m)` comes back exactly when only the envelope parses as `(s, e, m)`. `SerdeJson` comes back exactly when neither parses, and it carries the envelope parser's error. No other variant comes out. |
| Resolver.StatusCodeIgnored | src/lib.rs:174-179 | Changing the response's status code never changes the outcome: only the body is read. |
| Resolver.SuccessSkipsEnvelope | src/lib.rs:178-179 | When the success shape parses, the outcome is `Ok` of it, whatever the envelope parser would say. |
| Resolver.FirstParseErrorDiscarded | src/lib.rs:178-181 | When the success shape fails, its parser's error has no influence on the outcome. |
| Resolver.SchemaFreeTargetNeverServiceError | src/lib.rs:178-183 | Take a target that accepts every well-formed document, with every envelope also well-formed. Then no service error can come out: an envelope body is `Ok`, and a malformed body is `SerdeJson`. |
| Decimal.DecimalString | src/lib.rs:67 | `Display` of an integer: a nonempty digit string with no leading zero, and "0" exactly for zero. |
| Decimal.DecimalRoundTrip | src/lib.rs:80 | `ParseDecimal` reads back every number `DecimalString` writes. |
| Decimal.ParseDecimalRoundTrip | src/lib.rs:80 | Every string `ParseDecimal` accepts is exactly what `DecimalString` writes for its value. With `DecimalRoundTrip`, the two are inverse bijections between numbers and canonical digit strings. |
| Decimal.DecimalInjective | src/lib.rs:67 | Distinct numbers get distinct decimal strings. |
| Hex.HexEncode | src/lib.rs:112 | `hex::encode` gives `2*n` characters, all from `0-9a-f`. |
| Hex.HexEncodeAt | src/lib.rs:112 | Byte `i` is written at positions `2i` (high nibble) and `2i+1` (low nibble). |
| Hex.HexRoundTrip | src/lib.rs:112 | Decoding the hex text gives back the bytes. |
| Hex.HexDecodeRoundTrip | src/lib.rs:112 | Any string that decodes is the encoding of what it decodes to. |
| Hex.HexEncodeInjective | src/lib.rs:112 | Different byte strings get different hex text. |
| Hex.AsciiInjective | src/lib.rs:117 | The `String` body goes out as its UTF-8 bytes, one byte per ASCII character. Distinct ASCII strings give distinct bodies. |
| Client.NewDefersChecksToCalls | src/lib.rs:142-149 | `new` validates nothing. The key reaches every request unchanged as the only `project_id` value, and the path does not depend on the key. A URL the url crate refuses is reported at call time, as a `Url` error carrying that crate's error. |
| Client.RequestFor | src/lib.rs:61-138 | Only `execution_units` and `submit_tx` are POSTs, and only POSTs have a body. Every path starts with `./`. Only `utxos` has query pairs. |
| Client.PathTemplates | src/lib.rs:61-125 | Each operation's path is its fixed template with the argument spliced in verbatim: `./genesis`, `./epochs/{e}/parameters`, `./addresses/{a}`, `./addresses/{a}/utxos`, `./scripts/datum/{h}`, `./accounts/{s}/addresses`, `./accounts/{b}/addresses/total`, `./utils/txs/evaluate`, `./tx/submit`. |
| Client.EpochSegmentIsDecimal | src/lib.rs:66-67 | The epoch segment of the `protocol_params` path reads back as the epoch, in decimal. |
| Client.UtxosQuery | src/lib.rs:76-89 | `order=desc` always comes first. With no count the query is exactly `[("order","desc")]`. `count` is present exactly when a count is given, as the second pair, and its value reads back as the count. |
| Client.HeadersByMethod | src/lib.rs:113-166 | Every request carries exactly one `project_id` header, holding the key. A GET carries no other header the crate sets (reqwest's own default headers are not modelled). A POST carries exactly one `Content-Type`, `application/cbor`. |
| Client.ExecutionUnitsBody | src/lib.rs:107-117 | The `execution_units` body is the hex text of the bytes, as ASCII. It is twice as long, and different inputs give different bodies. |
| Client.SubmitTxBodyIsRaw | src/lib.rs:124-133 | The `submit_tx` body is the bytes unchanged. For any nonempty input, it differs from the `execution_units` body. |
| Client.RequestDeterminesArguments | src/lib.rs:61-138 | Within one operation, equal requests mean equal arguments (epoch, address, count, bytes). |
| Client.UnescapedArgumentsCollide | src/lib.rs:71-77 | Arguments are not escaped. `address_info` on `a + "/utxos"` names the `utxos` path of `a`, and only the `utxos` query tells the two apart. |
| Client.ResolveUrl | src/lib.rs:160 | The result fails exactly when parsing the base or joining the path fails. The failure is a `Url` error carrying the error of whichever step failed first. On success the result is the joined URL. |
| Client.Call | src/lib.rs:107-171 | An operation end to end. A `Url` error comes out exactly when resolving the URL fails. A GET send failure is `Reqwest`. Once a response arrives, the resolver decides. Only `Reqwest`, `SerdeJson`, `Url` and `HttpError` ever come out. The POST `.unwrap()` is a precondition. |
| Client.UrlFailureSkipsSend | src/lib.rs:160-168 | When the URL fails, the transport is not consulted: any other `send` gives the same `Url` error. |
| Client.DatumNeverServiceError | src/lib.rs:92-94 | `datum` targets a schema-free JSON value, so it never returns a service error: when the URL resolves, the send succeeds and the body reads, a well-formed envelope comes back as `Ok` holding the value the target parser gives for that body. |
| UrlJoin.Join | src/lib.rs:160 | For a plain-text `./tail` and base path, resolution keeps the base's scheme and authority and merges only the path. The url crate follows the WHATWG URL Standard, which on this domain agrees with section 5.2.2 of RFC 3986. |
| UrlJoin.TrailingSlashExtends | src/lib.rs:160 | For a base path ending in `/`, joining `./tail` gives base path + tail. |
| UrlJoin.MissingSlashDropsLastSegment | src/lib.rs:160 | For a base path not ending in `/`, joining `./tail` replaces the last segment. The result is never base path + `/` + tail. |
| UrlJoin.MainnetDropsVersionSegment | src/lib.rs:18-19 | `MAINNET_URL` joined with `./genesis` has path `/api/genesis`. `PREPROD_NETWORK_URL` gives `/api/v0/genesis`. |
| UrlJoin.IntendedMainnetKeepsVersionSegment | src/lib.rs:18-19 | With the trailing slash that the preprod constant has, every mainnet path lands under `/api/v0/`. |
| Config.LoadKeyFromFile | src/lib.rs:21-31 | As written, defined where `config[field]` does not panic. A read failure is `FileRead` and a TOML failure is `Toml`. The result is `Ok` exactly when the field is a string, and it holds that string. Otherwise it is `Config("project_id")`. |
| Config.MissingFieldPanics | src/lib.rs:26 | A document parsed to an empty table falls outside that domain: as written, the code panics on it. |
| Config.LoadKey | src/lib.rs:21-31 | The intended behaviour. The three failures stay distinct. `Ok(s)` comes back exactly when `project_id` holds the string `s`. `Config("project_id")` comes back exactly when the field is missing or not a string. |
| Config.LoadKeyAgreesWhereDefined | src/lib.rs:21-31 | Wherever the code as written returns, the intended version returns the same value. |

## Findings

| source | as written | input that shows it | evidently intended | confidence | as-written member | corrected member |
|---|---|---|---|---|---|---|
| src/lib.rs:18 | `MAINNET_URL` has no trailing slash, so joining `./…` replaces `v0`, under the WHATWG URL Standard the url crate follows as under section 5.2.3 of RFC 3986 | `genesis()` on a client built with `MAINNET_URL` resolves to `https://cardano-mainnet.blockfrost.io/api/genesis` | `…/api/v0/genesis`, as `PREPROD_NETWORK_URL` (line 19) gives | high for the resolution rule; not executed | UrlJoin.MainnetDropsVersionSegment | UrlJoin.IntendedMainnetKeepsVersionSegment |
| src/lib.rs:26 | `config[field]` indexes `toml::Value` | a readable file whose TOML has no `project_id` (the empty file) | `Err(Config("project_id"))`, which the variant's text "Config field not found" describes | medium: rests on toml's `Index` panicking on a missing key; not executed | Config.MissingFieldPanics | Config.LoadKey |

## Left out

- HTTP transport, async and `async_trait`: network I/O. The model keeps only
  what `send` and `res.bytes()` return, and one `reqwest::Client` per call
  has no observable effect.
- JSON deserialization and the shapes in the `models` module, which is not
  part of this model. The parsers are parameters, and the result types are
  the type parameter `T`.
- `Url::parse`, `Url::join` and query serialization (`query_pairs_mut`) in
  general are parameters of `Client.Call`. The model does not decide
  whether an empty `extend_pairs` leaves a bare `?`.
- UrlJoin.Join: covers only `./tail` references and base paths whose
  characters are ASCII letters, digits, `-`, `_`, `~` and `/`. Arguments with
  other characters are outside its domain: `?` and `#` split off a query or
  fragment, `\` becomes `/`, and space and non-ASCII characters are
  percent-encoded. So is `.`, and with it dot segments. Dot-segment removal
  (section 5.2.4 of RFC 3986) is not modelled beyond dropping the leading `./`.
- HTTP headers that reqwest adds by itself are not modelled. `Request.headers`
  holds only those the crate sets.
- Client.Call: a POST whose send fails panics in the source (`.unwrap()`).
  It appears only as the precondition `PostSendSucceeds`, not as an outcome.
- Config.LoadKeyFromFile: the file read and the TOML parser are parameters.
  The panic on a missing field is a precondition, not an outcome.
- The `Display`/`Debug` text of the error variants: foreign formatting.
- `EvaluateTxResult` and `EvaluateTxFailure` are declared and never
  constructed. They appear only in the datatype, and `Client.Call` proves
  that no call returns them.
- Hex.HexDecodeRoundTrip: `HexDecode` accepts only lowercase digits, the
  encoder's alphabet. It is not the hex crate's decoder, which the source
  does not use.
- `usize` is taken as 64 bits wide. A `count` of 0 is accepted, as the source
  accepts it.
