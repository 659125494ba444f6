/**
 * Reference resolution as the url crate performs it, following the WHATWG URL
 * Standard, which on the domain below agrees with section 5.2 of RFC 3986.
 * The case modelled is the one the client uses: an absolute base URL with no
 * query or fragment, joined with a relative reference `./tail` whose tail,
 * like the base's path, is plain path text (see `PlainPath`). Merging (section
 * 5.2.3 of RFC 3986) keeps the base path up to and including its last '/' and
 * appends the reference; removing dot segments (section 5.2.4) then only
 * drops the leading "./".
 */
module UrlJoin {
  import Client

  /** `origin` is the scheme, "://" and the authority, which resolution copies from the base. */
  datatype AbsoluteUrl = AbsoluteUrl(origin: string, path: string)

  function Serialize(u: AbsoluteUrl): string
  {
    u.origin + u.path
  }

  /** Everything in `p` up to and including its right-most '/'; empty without one. */
  function UpToLastSlash(p: string): (r: string)
    ensures |r| <= |p| && r == p[..|r|]
    ensures r != [] ==> r[|r| - 1] == '/'
    ensures forall i :: |r| <= i < |p| ==> p[i] != '/'
    decreases |p|
  {
    if p == [] then [] else if p[|p| - 1] == '/' then p else UpToLastSlash(p[..|p| - 1])
  }

  /** Section 5.2.3: an empty base path becomes "/"; otherwise its last segment is replaced. */
  function Merge(basePath: string, refPath: string): string
  {
    if basePath == [] then "/" + refPath else UpToLastSlash(basePath) + refPath
  }

  /**
   * The unreserved characters of section 2.3 of RFC 3986 other than '.', and
   * '/'. On such text resolution neither splits off a query or a fragment,
   * nor rewrites a character (a backslash becomes '/' in the url crate), nor
   * percent-encodes one, nor meets a dot segment.
   */
  predicate IsPlainPathChar(c: char)
  {
    'a' <= c <= 'z' || 'A' <= c <= 'Z' || '0' <= c <= '9' || c == '-' || c == '_' || c == '~' || c == '/'
  }

  predicate PlainPath(s: string) { forall i :: 0 <= i < |s| ==> IsPlainPathChar(s[i]) }

  /** A reference of the form `./tail` whose tail is plain path text. */
  predicate DotSlashReference(r: string) { |r| >= 2 && r[..2] == "./" && PlainPath(r[2..]) }

  /** `Url::join` for the references the client builds. */
  function Join(base: AbsoluteUrl, reference: string): (u: AbsoluteUrl)
    requires DotSlashReference(reference) && PlainPath(base.path)
    ensures u.origin == base.origin
  {
    AbsoluteUrl(base.origin, Merge(base.path, reference[2..]))
  }

  /** With a trailing slash the reference extends the base path. */
  lemma TrailingSlashExtends(base: AbsoluteUrl, tail: string)
    requires PlainPath(base.path) && PlainPath(tail)
    requires |base.path| >= 1 && base.path[|base.path| - 1] == '/'
    ensures assert ("./" + tail)[2..] == tail; Join(base, "./" + tail).path == base.path + tail
  {
  }

  /**
   * Without one, the base's last segment is dropped, so the result is never
   * what appending `/tail` would give.
   */
  lemma MissingSlashDropsLastSegment(base: AbsoluteUrl, tail: string)
    requires PlainPath(base.path) && PlainPath(tail)
    requires |base.path| >= 1 && base.path[|base.path| - 1] != '/'
    ensures assert ("./" + tail)[2..] == tail; Join(base, "./" + tail).path == UpToLastSlash(base.path) + tail
    ensures Join(base, "./" + tail).path != base.path + "/" + tail
  {
  }

  /** `MAINNET_URL` as written, split into its parts. */
  const Mainnet := AbsoluteUrl("https://cardano-mainnet.blockfrost.io", "/api/v0")

  /** `PREPROD_NETWORK_URL`, split into its parts. */
  const Preprod := AbsoluteUrl("https://cardano-preprod.blockfrost.io", "/api/v0/")

  /** What `MAINNET_URL` is evidently meant to be: the mainnet host with the `/api/v0/` the preprod constant has. */
  const MAINNET_URL_INTENDED: string := "https://cardano-mainnet.blockfrost.io/api/v0/"

  const MainnetIntended := AbsoluteUrl("https://cardano-mainnet.blockfrost.io", "/api/v0/")

  lemma MainnetSplit()
    ensures Serialize(Mainnet) == Client.MAINNET_URL
  {
  }

  lemma PreprodSplit()
    ensures Serialize(Preprod) == Client.PREPROD_NETWORK_URL
  {
  }

  lemma MainnetIntendedSplit()
    ensures Serialize(MainnetIntended) == MAINNET_URL_INTENDED
  {
  }

  /**
   * As written, every mainnet request loses the `v0` segment: `genesis` goes to
   * `/api/genesis` on the mainnet host, while on preprod it reaches `/api/v0/genesis`.
   */
  lemma MainnetDropsVersionSegment()
    ensures Serialize(Mainnet) == Client.MAINNET_URL && Serialize(Preprod) == Client.PREPROD_NETWORK_URL
    ensures Join(Mainnet, "./genesis").path == "/api/genesis"
    ensures Join(Preprod, "./genesis").path == "/api/v0/genesis"
    ensures Join(Mainnet, "./genesis").origin == "https://cardano-mainnet.blockfrost.io"
  {
    assert ("./" + "genesis") == "./genesis";
    MissingSlashDropsLastSegment(Mainnet, "genesis");
    assert UpToLastSlash("/api/v0") == "/api/" by {
      assert "/api/v0"[..6] == "/api/v";
      assert "/api/v"[..5] == "/api/";
    }
    TrailingSlashExtends(Preprod, "genesis");
    MainnetSplit();
    PreprodSplit();
  }

  /** With the trailing slash, every relative path lands under `/api/v0/`, as on preprod. */
  lemma IntendedMainnetKeepsVersionSegment(tail: string)
    requires PlainPath(tail)
    ensures Serialize(MainnetIntended) == MAINNET_URL_INTENDED
    ensures assert ("./" + tail)[2..] == tail;
      Join(MainnetIntended, "./" + tail).path == "/api/v0/" + tail
  {
  }
}
