/**
 * The endpoint client, `BlockFrostHttp` (src/lib.rs). Each operation of
 * `BlockFrostHttpTrait` is described by the request it builds (method,
 * relative path, query pairs, headers, body); `Call` then runs that request
 * through an abstract network and hands the response to the resolver.
 */
module Client {
  import opened Prelude
  import opened Errors
  import opened Resolver
  import opened Decimal
  import opened Hex

  const MAINNET_URL: string := "https://cardano-mainnet.blockfrost.io/api/v0"
  const PREPROD_NETWORK_URL: string := "https://cardano-preprod.blockfrost.io/api/v0/"

  /** The client: a base URL and the `project_id` key, both fixed at construction. */
  datatype BlockFrostHttp = BlockFrostHttp(parentUrl: string, apiKey: string)

  /** `BlockFrostHttp::new`: never fails and checks nothing; a bad URL or key surfaces at call time. */
  function New(url: string, key: string): BlockFrostHttp
  {
    BlockFrostHttp(url, key)
  }

  /** The nine methods of `BlockFrostHttpTrait`, with their arguments. */
  datatype Operation =
    | Genesis
    | ProtocolParams(epoch: u32)
    | AddressInfo(address: string)
    | Utxos(utxoAddress: string, maybeCount: Option<usize>)
    | Datum(datumHash: string)
    | AssocAddresses(stakeAddress: string)
    | AccountAssociatedAddressesTotal(baseAddr: string)
    | ExecutionUnits(cbor: seq<byte>)
    | SubmitTx(tx: seq<byte>)

  datatype Method = Get | Post

  type Pair = (string, string)

  /** What is sent: `ext` is joined to the base URL, `params` become the query. */
  datatype Request = Request(verb: Method, ext: string, params: seq<Pair>, headers: seq<Pair>, body: Option<seq<byte>>)

  /** `get_endpoint_with_params`, up to the send: a GET with only the `project_id` header. */
  function GetEndpointWithParams(c: BlockFrostHttp, ext: string, params: seq<Pair>): Request
  {
    Request(Get, ext, params, [("project_id", c.apiKey)], None)
  }

  /** `get_endpoint`: the same with no query pairs. */
  function GetEndpoint(c: BlockFrostHttp, ext: string): Request
  {
    GetEndpointWithParams(c, ext, [])
  }

  /** The POST both `execution_units` and `submit_tx` build: a CBOR content type, the key, a body. */
  function PostCbor(c: BlockFrostHttp, ext: string, body: seq<byte>): Request
  {
    Request(Post, ext, [], [("Content-Type", "application/cbor"), ("project_id", c.apiKey)], Some(body))
  }

  /** The query of `utxos`: `order=desc` first, then `count` only when one is given. */
  function UtxosParams(maybeCount: Option<usize>): seq<Pair>
  {
    match maybeCount
    case Some(count) => [("order", "desc"), ("count", DecimalString(count as nat))]
    case None => [("order", "desc")]
  }

  /** The request each trait method builds. */
  function RequestFor(c: BlockFrostHttp, op: Operation): (r: Request)
    ensures r.verb == Post <==> op.ExecutionUnits? || op.SubmitTx?
    ensures |r.ext| > 2 && r.ext[..2] == "./"
    ensures r.body.Some? <==> r.verb == Post
    ensures r.params != [] <==> op.Utxos?
  {
    match op
    case Genesis => GetEndpoint(c, "./genesis")
    case ProtocolParams(epoch) => GetEndpoint(c, "./epochs/" + DecimalString(epoch as nat) + "/parameters")
    case AddressInfo(address) => GetEndpoint(c, "./addresses/" + address)
    case Utxos(address, maybeCount) =>
      GetEndpointWithParams(c, "./addresses/" + address + "/utxos", UtxosParams(maybeCount))
    case Datum(datumHash) => GetEndpoint(c, "./scripts/datum/" + datumHash)
    case AssocAddresses(stakeAddress) => GetEndpoint(c, "./accounts/" + stakeAddress + "/addresses")
    case AccountAssociatedAddressesTotal(baseAddr) =>
      GetEndpoint(c, "./accounts/" + baseAddr + "/addresses/total")
    case ExecutionUnits(bytes) => PostCbor(c, "./utils/txs/evaluate", Ascii(HexEncode(bytes)))
    case SubmitTx(bytes) => PostCbor(c, "./tx/submit", bytes)
  }

  /** The values of every header named `name`, in order; each one was set under that name. */
  function HeaderValues(headers: seq<Pair>, name: string): (vs: seq<string>)
    ensures forall v :: v in vs ==> (name, v) in headers
    decreases |headers|
  {
    if headers == [] then []
    else (if headers[0].0 == name then [headers[0].1] else []) + HeaderValues(headers[1..], name)
  }

  /** The keys of a query, in order. */
  function ParamKeys(params: seq<Pair>): (ks: seq<string>)
    ensures |ks| == |params|
    ensures forall i :: 0 <= i < |params| ==> ks[i] == params[i].0
    decreases |params|
  {
    if params == [] then [] else [params[0].0] + ParamKeys(params[1..])
  }

  /** The relative path of each operation: a fixed `./` template, the argument spliced in verbatim. */
  lemma PathTemplates(c: BlockFrostHttp, op: Operation)
    ensures op.Genesis? ==> RequestFor(c, op).ext == "./genesis"
    ensures op.ProtocolParams? ==> RequestFor(c, op).ext == "./epochs/" + DecimalString(op.epoch as nat) + "/parameters"
    ensures op.AddressInfo? ==> RequestFor(c, op).ext == "./addresses/" + op.address
    ensures op.Utxos? ==> RequestFor(c, op).ext == "./addresses/" + op.utxoAddress + "/utxos"
    ensures op.Datum? ==> RequestFor(c, op).ext == "./scripts/datum/" + op.datumHash
    ensures op.AssocAddresses? ==> RequestFor(c, op).ext == "./accounts/" + op.stakeAddress + "/addresses"
    ensures op.AccountAssociatedAddressesTotal? ==>
      RequestFor(c, op).ext == "./accounts/" + op.baseAddr + "/addresses/total"
    ensures op.ExecutionUnits? ==> RequestFor(c, op).ext == "./utils/txs/evaluate"
    ensures op.SubmitTx? ==> RequestFor(c, op).ext == "./tx/submit"
  {
  }

  /** The epoch segment of `protocol_params` reads back as the epoch, in decimal. */
  lemma EpochSegmentIsDecimal(c: BlockFrostHttp, epoch: u32)
    ensures var ext := RequestFor(c, ProtocolParams(epoch)).ext;
      |ext| > 20 && ParseDecimal(ext[9..|ext| - 11]) == Some(epoch as nat)
  {
    var d := DecimalString(epoch as nat);
    var ext := "./epochs/" + d + "/parameters";
    assert ext[9..|ext| - 11] == d;
    DecimalRoundTrip(epoch as nat);
  }

  /** `utxos`: exactly `[("order","desc")]` without a count, `order` then `count` with one. */
  lemma UtxosQuery(c: BlockFrostHttp, address: string, maybeCount: Option<usize>)
    ensures var p := RequestFor(c, Utxos(address, maybeCount)).params;
      && p[0] == ("order", "desc")
      && (maybeCount.None? <==> p == [("order", "desc")])
      && ("count" in ParamKeys(p) <==> maybeCount.Some?)
      && (maybeCount.Some? ==> |p| == 2 && p[1].0 == "count" && ParseDecimal(p[1].1) == Some(maybeCount.value as nat))
  {
    var p := UtxosParams(maybeCount);
    if maybeCount.Some? {
      DecimalRoundTrip(maybeCount.value as nat);
      assert ParamKeys(p)[1] == "count";
    } else {
      assert ParamKeys(p) == ["order"];
    }
  }

  /** Every request carries the key exactly once; only the POSTs set a content type, `application/cbor`. */
  lemma HeadersByMethod(c: BlockFrostHttp, op: Operation)
    ensures var r := RequestFor(c, op);
      && HeaderValues(r.headers, "project_id") == [c.apiKey]
      && (r.verb == Get ==> r.headers == [("project_id", c.apiKey)])
      && (r.verb == Post ==> HeaderValues(r.headers, "Content-Type") == ["application/cbor"])
      && (r.verb == Get ==> HeaderValues(r.headers, "Content-Type") == [])
  {
    var r := RequestFor(c, op);
    if r.verb == Post {
      assert r.headers == [("Content-Type", "application/cbor"), ("project_id", c.apiKey)];
      assert r.headers[1..] == [("project_id", c.apiKey)];
      assert "Content-Type"[0] != "project_id"[0];
      assert HeaderValues(r.headers[1..], "project_id") == [c.apiKey];
      assert HeaderValues(r.headers[1..], "Content-Type") == [];
    } else {
      assert r.headers == [("project_id", c.apiKey)];
    }
  }

  /**
   * `execution_units` sends the hex text of its bytes: twice as long, and a
   * different body for every different input (the hex text decodes back, see
   * `Hex.HexRoundTrip`).
   */
  lemma ExecutionUnitsBody(c: BlockFrostHttp, bytes: seq<byte>)
    ensures RequestFor(c, ExecutionUnits(bytes)).body == Some(Ascii(HexEncode(bytes)))
    ensures |RequestFor(c, ExecutionUnits(bytes)).body.value| == 2 * |bytes|
    ensures forall b :: b != bytes ==> RequestFor(c, ExecutionUnits(b)).body != RequestFor(c, ExecutionUnits(bytes)).body
  {
    forall b | b != bytes
      ensures RequestFor(c, ExecutionUnits(b)).body != RequestFor(c, ExecutionUnits(bytes)).body
    {
      HexEncodeInjective(b, bytes);
      AsciiInjective(HexEncode(b), HexEncode(bytes));
    }
  }

  /**
   * `submit_tx` sends the bytes themselves, so for any nonempty input the two
   * POST bodies differ.
   */
  lemma SubmitTxBodyIsRaw(c: BlockFrostHttp, bytes: seq<byte>)
    ensures RequestFor(c, SubmitTx(bytes)).body == Some(bytes)
    ensures bytes != [] ==> RequestFor(c, ExecutionUnits(bytes)).body != RequestFor(c, SubmitTx(bytes)).body
  {
  }

  lemma SpliceInjective(prefix: string, a: string, b: string, suffix: string)
    requires prefix + a + suffix == prefix + b + suffix
    ensures a == b
  {
    var s := prefix + a + suffix;
    assert |a| == |b|;
    assert a == s[|prefix|..|prefix| + |a|];
    assert b == (prefix + b + suffix)[|prefix|..|prefix| + |b|];
  }

  /** Within one operation, different arguments always give different requests. */
  lemma RequestDeterminesArguments(c: BlockFrostHttp, op1: Operation, op2: Operation)
    requires RequestFor(c, op1) == RequestFor(c, op2)
    requires op1.Genesis? == op2.Genesis? && op1.ProtocolParams? == op2.ProtocolParams?
    requires op1.AddressInfo? == op2.AddressInfo? && op1.Utxos? == op2.Utxos? && op1.Datum? == op2.Datum?
    requires op1.AssocAddresses? == op2.AssocAddresses?
    requires op1.AccountAssociatedAddressesTotal? == op2.AccountAssociatedAddressesTotal?
    requires op1.ExecutionUnits? == op2.ExecutionUnits? && op1.SubmitTx? == op2.SubmitTx?
    ensures op1 == op2
  {
    match op1
    case Genesis =>
    case ProtocolParams(e1) =>
      SpliceInjective("./epochs/", DecimalString(e1 as nat), DecimalString(op2.epoch as nat), "/parameters");
      DecimalInjective(e1 as nat, op2.epoch as nat);
    case AddressInfo(a) => SpliceInjective("./addresses/", a, op2.address, "");
    case Utxos(a, m) =>
      SpliceInjective("./addresses/", a, op2.utxoAddress, "/utxos");
      if m.Some? {
        DecimalInjective(m.value as nat, op2.maybeCount.value as nat);
      }
    case Datum(h) => SpliceInjective("./scripts/datum/", h, op2.datumHash, "");
    case AssocAddresses(s) => SpliceInjective("./accounts/", s, op2.stakeAddress, "/addresses");
    case AccountAssociatedAddressesTotal(b) =>
      SpliceInjective("./accounts/", b, op2.baseAddr, "/addresses/total");
    case ExecutionUnits(bytes) =>
      AsciiInjective(HexEncode(bytes), HexEncode(op2.cbor));
      HexEncodeInjective(bytes, op2.cbor);
    case SubmitTx(bytes) =>
  }

  /**
   * Arguments are spliced in without escaping: `address_info` on `a + "/utxos"`
   * names the very path `utxos` on `a` names, and only the query of `utxos`
   * tells the two requests apart.
   */
  lemma UnescapedArgumentsCollide(c: BlockFrostHttp, a: string)
    ensures RequestFor(c, AddressInfo(a + "/utxos")).ext == RequestFor(c, Utxos(a, None)).ext
    ensures RequestFor(c, AddressInfo(a + "/utxos")).params == []
    ensures RequestFor(c, Utxos(a, None)).params == [("order", "desc")]
  {
  }

  /** A `url::Url`, known to the model only by its serialization. */
  datatype ParsedUrl = ParsedUrl(serialization: string)

  /**
   * The foreign collaborators of one call: `Url::parse`, `Url::join`, and the
   * transport's `send`, which gets the joined URL and the request (whose query
   * pairs it appends) and yields a response or a transport error.
   */
  datatype Net = Net(
    parse: string -> Result<ParsedUrl, UrlParseError>,
    join: (ParsedUrl, string) -> Result<ParsedUrl, UrlParseError>,
    send: (ParsedUrl, Request) -> Result<Response, TransportError>)

  /** `Url::parse(&self.parent_url)?.join(ext)?`. */
  function ResolveUrl(c: BlockFrostHttp, ext: string, net: Net): (r: Result<ParsedUrl, Error>)
    ensures r.Err? <==> net.parse(c.parentUrl).Err? || net.join(net.parse(c.parentUrl).value, ext).Err?
    ensures r.Err? ==> r.error.Url?
    ensures r.Err? && net.parse(c.parentUrl).Err? ==> r.error.url == net.parse(c.parentUrl).error
    ensures r.Err? && net.parse(c.parentUrl).Ok? ==> r.error.url == net.join(net.parse(c.parentUrl).value, ext).error
    ensures r.Ok? ==> r.value == net.join(net.parse(c.parentUrl).value, ext).value
  {
    match net.parse(c.parentUrl)
    case Err(e) => Err(FromUrl(e))
    case Ok(base) =>
      match net.join(base, ext)
      case Err(e) => Err(FromUrl(e))
      case Ok(u) => Ok(u)
  }

  /** The POST send is `.unwrap()`ed: a call is defined only when that send would succeed. */
  predicate PostSendSucceeds(c: BlockFrostHttp, req: Request, net: Net)
  {
    match ResolveUrl(c, req.ext, net)
    case Err(_) => true
    case Ok(u) => net.send(u, req).Ok?
  }

  /** One trait method, end to end: build, resolve the URL, send, resolve the body. */
  function Call<T>(c: BlockFrostHttp, op: Operation, net: Net, parseT: Parser<T>, parseErr: Parser<Envelope>): (r: Result<T, Error>)
    requires RequestFor(c, op).verb == Post ==> PostSendSucceeds(c, RequestFor(c, op), net)
    // a URL failure is reported before any request is made
    ensures (r.Err? && r.error.Url?) <==> ResolveUrl(c, RequestFor(c, op).ext, net).Err?
    ensures ResolveUrl(c, RequestFor(c, op).ext, net).Err? ==> r == Err(ResolveUrl(c, RequestFor(c, op).ext, net).error)
    // a GET that cannot be sent is a transport error
    ensures ResolveUrl(c, RequestFor(c, op).ext, net).Ok? && net.send(ResolveUrl(c, RequestFor(c, op).ext, net).value, RequestFor(c, op)).Err?
      ==> r == Err(Reqwest(net.send(ResolveUrl(c, RequestFor(c, op).ext, net).value, RequestFor(c, op)).error))
    // once a response arrives, the resolver alone decides
    ensures ResolveUrl(c, RequestFor(c, op).ext, net).Ok? && net.send(ResolveUrl(c, RequestFor(c, op).ext, net).value, RequestFor(c, op)).Ok?
      ==> r == TryDeserializing(net.send(ResolveUrl(c, RequestFor(c, op).ext, net).value, RequestFor(c, op)).value, parseT, parseErr)
    // only the four HTTP-call variants ever come out
    ensures r.Err? ==> FromHttpCall(r.error)
  {
    var req := RequestFor(c, op);
    match ResolveUrl(c, req.ext, net)
    case Err(e) => Err(e)
    case Ok(u) =>
      match net.send(u, req)
      case Err(e) => Err(FromTransport(e))
      case Ok(res) => TryDeserializing(res, parseT, parseErr)
  }

  /** A URL failure never consults the transport: two networks that differ only in `send` agree. */
  lemma UrlFailureSkipsSend<T>(c: BlockFrostHttp, op: Operation, net: Net, send: (ParsedUrl, Request) -> Result<Response, TransportError>,
                               parseT: Parser<T>, parseErr: Parser<Envelope>)
    requires ResolveUrl(c, RequestFor(c, op).ext, net).Err?
    ensures Call(c, op, net, parseT, parseErr) == Call(c, op, net.(send := send), parseT, parseErr)
    ensures Call(c, op, net, parseT, parseErr).error.Url?
  {
  }

  /**
   * `datum` asks for a `serde_json::Value`, which accepts every well-formed
   * document; so a well-formed service-error envelope comes back as `Ok`
   * holding the parsed value, never as a service error.
   */
  lemma DatumNeverServiceError<T>(c: BlockFrostHttp, datumHash: string, net: Net, wellFormed: seq<byte> -> bool,
                                  parseValue: Parser<T>, parseErr: Parser<Envelope>)
    requires forall b :: parseValue(b).Ok? <==> wellFormed(b)
    requires forall b :: parseErr(b).Ok? ==> wellFormed(b)
    ensures var r := Call(c, Datum(datumHash), net, parseValue, parseErr);
      !(r.Err? && r.error.HttpError?)
    ensures var r := Call(c, Datum(datumHash), net, parseValue, parseErr);
      var req := RequestFor(c, Datum(datumHash));
      var u := ResolveUrl(c, req.ext, net);
      u.Ok? && net.send(u.value, req).Ok? && net.send(u.value, req).value.body.Ok?
        && parseErr(net.send(u.value, req).value.body.value).Ok? ==>
      r == Ok(parseValue(net.send(u.value, req).value.body.value).value)
  {
  }

  /**
   * `new` validates nothing: the key reaches the wire unchanged as the only
   * `project_id` value (a bad key surfaces only at call time: as the
   * service's answer, or as a send failure when it is not a valid header value),
   * the path does not depend on the key, and a malformed URL is reported by
   * the first call, as a `Url` error carrying the url crate's error.
   */
  lemma NewDefersChecksToCalls<T>(url: string, key: string, otherKey: string, op: Operation, net: Net,
                                  parseT: Parser<T>, parseErr: Parser<Envelope>)
    requires RequestFor(New(url, key), op).verb == Post ==>
      PostSendSucceeds(New(url, key), RequestFor(New(url, key), op), net)
    ensures HeaderValues(RequestFor(New(url, key), op).headers, "project_id") == [key]
    ensures RequestFor(New(url, otherKey), op).ext == RequestFor(New(url, key), op).ext
    ensures net.parse(url).Err? ==> Call(New(url, key), op, net, parseT, parseErr) == Err(Url(net.parse(url).error))
  {
    HeadersByMethod(New(url, key), op);
  }
}
