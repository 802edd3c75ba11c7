/**
 * URL validity and resolution (`is_valid_url`, `normalize_url`). The URL
 * library itself (`urlparse`, and `urljoin`, which resolves a reference
 * against a base as in section 5.2 of RFC 3986) is not modelled: it is a
 * parameter, a pair of total functions that may each raise.
 */
module Urls {

  /** What `urlparse` yields: the scheme and network location, or an exception. */
  datatype Parsed = Parsed(scheme: string, netloc: string) | ParseRaised

  /** What `urljoin(base, reference)` yields: the resolved URL, or an exception. */
  datatype Joined = Joined(url: string) | JoinRaised

  /** The URL library the scraper calls into. */
  datatype UrlLib = UrlLib(parse: string -> Parsed, join: (string, string) -> Joined)

  /**
   * A URL is valid exactly when parsing it succeeds with a non-empty scheme
   * and a non-empty network location; a parse that raises makes it invalid.
   */
  predicate IsValidUrl(lib: UrlLib, url: string)
    ensures IsValidUrl(lib, url) ==> lib.parse(url).Parsed?
  {
    match lib.parse(url)
    case Parsed(scheme, netloc) => scheme != "" && netloc != ""
    case ParseRaised => false
  }

  /** The two halves of validity, stated against the parser. */
  lemma ValidUrlParts(lib: UrlLib, url: string)
    ensures IsValidUrl(lib, url) <==>
              lib.parse(url).Parsed? && lib.parse(url).scheme != "" && lib.parse(url).netloc != ""
    ensures lib.parse(url).ParseRaised? ==> !IsValidUrl(lib, url)
  {
  }

  /**
   * Resolves `url` against `base`; when the library raises, the reference
   * is kept as it was given.
   */
  function NormalizeUrl(lib: UrlLib, base: string, url: string): (r: string)
    ensures lib.join(base, url).Joined? ==> r == lib.join(base, url).url
    ensures lib.join(base, url).JoinRaised? ==> r == url
  {
    match lib.join(base, url)
    case Joined(u) => u
    case JoinRaised => url
  }
}
