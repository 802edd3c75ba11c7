/**
 * What `scrape_url` extracts from a fetched page: the title, the meta
 * description, the resolved links and images (filtered, validated and
 * capped) and the capped HTML snapshot. HTML parsing is not modelled: a
 * parsed page is given as the sequences of tags the parser would find, in
 * document order.
 */
module Extraction {
  import opened Wrappers
  import opened Urls
  import opened Models

  /** Links stored per result. */
  const LinkCap: nat := 100
  /** Images stored per result. */
  const ImageCap: nat := 50
  /** Characters of HTML stored per result. */
  const HtmlCap: nat := 100000

  /** The `<title>` tag; `text` is its `.string`, absent when it has no single string child. */
  datatype TitleTag = TitleTag(text: Option<string>)

  /** A `<meta>` tag's `name`, `property` and `content` attributes. */
  datatype MetaTag = MetaTag(name: Option<string>, property: Option<string>, content: Option<string>)

  /**
   * A parsed page: its first `<title>` (if any), its `<meta>` tags, the
   * `href` of every `<a>` that has one and the `src` of every `<img>` that
   * has one.
   */
  datatype Page = Page(title: Option<TitleTag>, metas: seq<MetaTag>, hrefs: seq<string>, srcs: seq<string>)

  /** Anchor references are filtered by scheme; image sources are not. */
  datatype RefKind = Anchor | Image

  function Min(a: nat, b: nat): nat { if a <= b then a else b }

  predicate StartsWith(s: string, prefix: string) {
    |prefix| <= |s| && s[..|prefix|] == prefix
  }

  /** `href.startswith(('javascript:', 'mailto:', 'tel:'))` */
  predicate HasExcludedScheme(href: string) {
    StartsWith(href, "javascript:") || StartsWith(href, "mailto:") || StartsWith(href, "tel:")
  }

  /** A reference worth resolving: non-empty and, for anchors, not a script, mail or phone link. */
  predicate Candidate(kind: RefKind, ref: string) {
    ref != "" && (kind == Anchor ==> !HasExcludedScheme(ref))
  }

  /** A reference that is kept: a candidate whose resolution against `base` is a valid URL. */
  predicate Kept(lib: UrlLib, base: string, kind: RefKind, ref: string) {
    Candidate(kind, ref) && IsValidUrl(lib, NormalizeUrl(lib, base, ref))
  }

  /**
   * The resolved URLs of the kept references, in document order. Every one
   * is valid, and there are no more of them than references.
   */
  function Resolved(lib: UrlLib, base: string, kind: RefKind, refs: seq<string>): (r: seq<string>)
    ensures |r| <= |refs|
    ensures forall k :: 0 <= k < |r| ==> IsValidUrl(lib, r[k])
    decreases |refs|
  {
    if refs == [] then []
    else
      var prev := Resolved(lib, base, kind, refs[..|refs| - 1]);
      var ref := refs[|refs| - 1];
      if Kept(lib, base, kind, ref) then prev + [NormalizeUrl(lib, base, ref)] else prev
  }

  /**
   * `Resolved` keeps exactly the kept references, in order: its k-th entry
   * is the resolution of the reference at `idx[k]`, the indices increase,
   * and every kept reference has its index among them.
   */
  lemma {:induction false} ResolvedIndices(lib: UrlLib, base: string, kind: RefKind, refs: seq<string>)
    returns (idx: seq<nat>)
    ensures |idx| == |Resolved(lib, base, kind, refs)|
    ensures forall k :: 0 <= k < |idx| ==>
              idx[k] < |refs| && Kept(lib, base, kind, refs[idx[k]])
              && Resolved(lib, base, kind, refs)[k] == NormalizeUrl(lib, base, refs[idx[k]])
    ensures forall k, k' :: 0 <= k < k' < |idx| ==> idx[k] < idx[k']
    ensures forall i :: 0 <= i < |refs| && Kept(lib, base, kind, refs[i]) ==> i in idx
    decreases |refs|
  {
    if refs == [] {
      idx := [];
    } else {
      var n := |refs| - 1;
      var init := refs[..n];
      var p := ResolvedIndices(lib, base, kind, init);
      assert forall i :: 0 <= i < n ==> init[i] == refs[i];
      if Kept(lib, base, kind, refs[n]) {
        idx := p + [n];
      } else {
        idx := p;
      }
    }
  }

  /** The `for` loop over anchors (or images): append each kept reference's resolution. */
  method CollectUrls(lib: UrlLib, base: string, kind: RefKind, refs: seq<string>) returns (urls: seq<string>)
    ensures urls == Resolved(lib, base, kind, refs)
  {
    urls := [];
    var i := 0;
    while i < |refs|
      invariant 0 <= i <= |refs|
      invariant urls == Resolved(lib, base, kind, refs[..i])
    {
      var ref := refs[i];
      assert refs[..i + 1][..i] == refs[..i];
      if ref != "" && (kind == Anchor ==> !HasExcludedScheme(ref)) {
        var normalized := NormalizeUrl(lib, base, ref);
        if IsValidUrl(lib, normalized) {
          urls := urls + [normalized];
        }
      }
      i := i + 1;
    }
    assert refs[..i] == refs;
  }

  /** The first `n` elements of `s`, or all of them when there are fewer (`s[:n]`). */
  function Prefix<T>(s: seq<T>, n: nat): (r: seq<T>)
    ensures |r| == Min(|s|, n)
    ensures r == s[..|r|]
  {
    if |s| <= n then s else s[..n]
  }

  // ---------------------------------------------------------------- meta description

  predicate NamedDescription(t: MetaTag) { t.name == Some("description") }
  predicate OgDescription(t: MetaTag) { t.property == Some("og:description") }

  /** Whether `k` is the position of the first tag `soup.find` would return for the query. */
  ghost predicate FirstAt(metas: seq<MetaTag>, og: bool, k: nat) {
    && k < |metas|
    && (if og then OgDescription(metas[k]) else NamedDescription(metas[k]))
    && forall j :: 0 <= j < k ==> !(if og then OgDescription(metas[j]) else NamedDescription(metas[j]))
  }

  /**
   * `soup.find("meta", attrs=...)`: the first tag whose `property` is
   * `og:description` (when `og`) or whose `name` is `description`.
   */
  function FindMeta(metas: seq<MetaTag>, og: bool): (r: Option<MetaTag>)
    ensures r.None? ==> forall j :: 0 <= j < |metas| ==> !(if og then OgDescription(metas[j]) else NamedDescription(metas[j]))
    ensures r.Some? ==> exists k: nat :: FirstAt(metas, og, k) && r.value == metas[k]
  {
    if metas == [] then None
    else if (if og then OgDescription(metas[0]) else NamedDescription(metas[0])) then
      assert FirstAt(metas, og, 0);
      Some(metas[0])
    else
      var rest := FindMeta(metas[1..], og);
      assert forall k: nat :: FirstAt(metas[1..], og, k) ==> FirstAt(metas, og, k + 1) && metas[1..][k] == metas[k + 1];
      rest
  }

  /** A tag's `content` attribute, or `""` when it is missing or empty. */
  function ContentOf(t: MetaTag): string {
    if t.content.Some? && t.content.value != "" then t.content.value else ""
  }

  /**
   * The meta description: from the first `name="description"` tag; only when
   * the page has none, from the first `og:description` tag; otherwise `""`.
   */
  function MetaDescription(metas: seq<MetaTag>): (d: string)
    ensures d == "" || exists k :: 0 <= k < |metas| && (NamedDescription(metas[k]) || OgDescription(metas[k]))
                                   && d == ContentOf(metas[k])
  {
    var tag := match FindMeta(metas, false)
               case Some(t) => Some(t)
               case None => FindMeta(metas, true);
    if tag.Some? then ContentOf(tag.value) else ""
  }

  /** The preference order of the meta description, stated by position. */
  lemma MetaDescriptionPreference(metas: seq<MetaTag>)
    ensures forall k: nat :: FirstAt(metas, false, k) ==> MetaDescription(metas) == ContentOf(metas[k])
    ensures (forall j :: 0 <= j < |metas| ==> !NamedDescription(metas[j])) ==>
              forall k: nat :: FirstAt(metas, true, k) ==> MetaDescription(metas) == ContentOf(metas[k])
    ensures (forall j :: 0 <= j < |metas| ==> !NamedDescription(metas[j]) && !OgDescription(metas[j])) ==>
              MetaDescription(metas) == ""
  {
  }

  // ---------------------------------------------------------------- the stored content

  /**
   * The stored title: `""` when the page has no `<title>`, otherwise the
   * tag's `.string`, which is absent (stored as null) when the tag has no
   * single string child.
   */
  function Title(page: Page): (t: Option<string>)
    ensures t.None? <==> page.title.Some? && page.title.value.text.None?
    ensures t == Some("") <==> page.title.None? || page.title.value.text == Some("")
    ensures page.title.Some? && page.title.value.text.Some? ==> t == page.title.value.text
  {
    match page.title
    case None => Some("")
    case Some(tag) => tag.text
  }

  /** The `content` document stored for a page fetched from `base`. */
  function Extract(lib: UrlLib, base: string, page: Page): (c: Content)
    ensures c.url == base && c.title == Title(page) && c.metaDescription == MetaDescription(page.metas)
    ensures c.linksCount == |Resolved(lib, base, Anchor, page.hrefs)|
    ensures c.imagesCount == |Resolved(lib, base, Image, page.srcs)|
    ensures |c.links| == Min(c.linksCount, LinkCap) && c.links == Resolved(lib, base, Anchor, page.hrefs)[..|c.links|]
    ensures |c.images| == Min(c.imagesCount, ImageCap) && c.images == Resolved(lib, base, Image, page.srcs)[..|c.images|]
  {
    var links := Resolved(lib, base, Anchor, page.hrefs);
    var images := Resolved(lib, base, Image, page.srcs);
    Content(Title(page), MetaDescription(page.metas), base,
            |links|, |images|, Prefix(links, LinkCap), Prefix(images, ImageCap))
  }

  /**
   * Every stored link is the resolution of an anchor `href` that is
   * non-empty, is not a `javascript:`, `mailto:` or `tel:` link, and resolves
   * to a valid URL; the stored links keep the anchors' document order.
   */
  lemma StoredLinksAreFiltered(lib: UrlLib, base: string, page: Page) returns (idx: seq<nat>)
    ensures var c := Extract(lib, base, page);
      && |idx| == |c.links| <= LinkCap
      && (forall k, k' :: 0 <= k < k' < |idx| ==> idx[k] < idx[k'])
      && forall k :: 0 <= k < |idx| ==>
           && idx[k] < |page.hrefs|
           && page.hrefs[idx[k]] != ""
           && !HasExcludedScheme(page.hrefs[idx[k]])
           && c.links[k] == NormalizeUrl(lib, base, page.hrefs[idx[k]])
           && IsValidUrl(lib, c.links[k])
  {
    var c := Extract(lib, base, page);
    var all := ResolvedIndices(lib, base, Anchor, page.hrefs);
    idx := all[..|c.links|];
  }

  /**
   * Every stored image is the resolution of a non-empty `src` that resolves
   * to a valid URL, in document order; no scheme is excluded.
   */
  lemma StoredImagesAreFiltered(lib: UrlLib, base: string, page: Page) returns (idx: seq<nat>)
    ensures var c := Extract(lib, base, page);
      && |idx| == |c.images| <= ImageCap
      && (forall k, k' :: 0 <= k < k' < |idx| ==> idx[k] < idx[k'])
      && forall k :: 0 <= k < |idx| ==>
           && idx[k] < |page.srcs|
           && page.srcs[idx[k]] != ""
           && c.images[k] == NormalizeUrl(lib, base, page.srcs[idx[k]])
           && IsValidUrl(lib, c.images[k])
  {
    var c := Extract(lib, base, page);
    var all := ResolvedIndices(lib, base, Image, page.srcs);
    idx := all[..|c.images|];
  }
}
