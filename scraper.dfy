/** What the scraper makes of a page once it has been fetched and parsed:
    the page-content string (title, a blank line, the body text, capped at
    2,000 characters) and the list of anchor targets. The HTTP request and
    the HTML parser are outside the model; a parsed page is given as its
    title element, its body text and its anchors' `href` values. */
module Scraper {
  import opened Wrappers
  import opened Text

  /** The cap on the page-content string, in characters. */
  const ContentLimit: nat := 2000

  /** The title used when the page has none. */
  const NoTitle: string := "No title found"

  /** The separator between the title and the body text. */
  const TitleSeparator: string := "\n\n"

  /** A `<title>` element; its string is absent when the element has no
      single string child. */
  datatype TitleTag = TitleTag(str: Option<string>)

  /** A parsed page: its `<title>` element if any, the newline-separated,
      stripped text of its `<body>` (with scripts, styles, images and inputs
      removed) if it has a body, and the `href` of every `<a>` element in
      document order, absent where the anchor has none. */
  datatype Page = Page(title: Option<TitleTag>, bodyText: Option<string>, hrefs: seq<Option<string>>)

  /** The page has a title element whose string is present and non-empty. */
  predicate HasTitle(p: Page)
  {
    p.title.Some? && p.title.value.str.Some? && p.title.value.str.value != ""
  }

  /** The title the content string starts with: the page's own title, or
      the sentinel when the element is missing, has no string, or its
      string is empty. */
  function Title(p: Page): (t: string)
    ensures t != ""
    ensures p.title.None? ==> t == NoTitle
    ensures p.title.Some? && p.title.value.str.None? ==> t == NoTitle
    ensures p.title.Some? && p.title.value.str == Some("") ==> t == NoTitle
    ensures p.title.Some? && p.title.value.str.Some? && p.title.value.str.value != "" ==> t == p.title.value.str.value
  {
    if HasTitle(p) then p.title.value.str.value else NoTitle
  }

  /** The body text, empty when the page has no body. */
  function BodyText(p: Page): string
  {
    if p.bodyText.Some? then p.bodyText.value else ""
  }

  /** The untruncated content string: title, blank line, body text. */
  function FullContents(p: Page): string
  {
    Title(p) + TitleSeparator + BodyText(p)
  }

  /** `fetch_website_contents` after the parse: the title, a blank line and
      the body text, cut to the first 2,000 characters. */
  function Contents(p: Page): (r: string)
    ensures |r| <= ContentLimit
    ensures r <= FullContents(p)
    ensures |FullContents(p)| <= ContentLimit ==> r == FullContents(p)
    ensures |FullContents(p)| > ContentLimit ==> |r| == ContentLimit
  {
    Truncate(FullContents(p), ContentLimit)
  }

  /** A title that fits the cap appears whole at the start of the content
      string, followed by the blank line. */
  lemma ContentsStartWithTitle(p: Page)
    requires |Title(p)| + |TitleSeparator| <= ContentLimit
    ensures Title(p) + TitleSeparator <= Contents(p)
  {
    TruncateKeepsShortPrefix(Title(p) + TitleSeparator, FullContents(p), ContentLimit);
  }

  /** Without a body, the content string is a prefix of the title and the
      blank line. */
  lemma ContentsWithoutBody(p: Page)
    requires p.bodyText.None?
    ensures Contents(p) <= Title(p) + TitleSeparator
  {
  }

  /** A page with neither title nor body yields exactly the sentinel and the
      blank line. */
  lemma ContentsOfEmptyPage(p: Page)
    requires !HasTitle(p) && p.bodyText.None?
    ensures Contents(p) == "No title found\n\n"
  {
  }

  /** An `href` that the link filter keeps: present and non-empty. */
  predicate Kept(h: Option<string>)
  {
    h.Some? && h.value != ""
  }

  /** `fetch_website_links` after the parse: the `href` of every anchor that
      has a non-empty one, in anchor order, unresolved and not deduplicated. */
  function Links(hrefs: seq<Option<string>>): (r: seq<string>)
    ensures |r| <= |hrefs|
    ensures forall i :: 0 <= i < |r| ==> r[i] != "" && Some(r[i]) in hrefs
    decreases |hrefs|
  {
    if hrefs == [] then []
    else (if Kept(hrefs[0]) then [hrefs[0].value] else []) + Links(hrefs[1..])
  }

  /** The filter works anchor by anchor: filtering two runs of anchors one
      after the other gives the two filtered runs one after the other, so
      no link moves past another. */
  lemma {:induction false} LinksAppend(a: seq<Option<string>>, b: seq<Option<string>>)
    ensures Links(a + b) == Links(a) + Links(b)
    decreases |a|
  {
    if a == [] {
      assert a + b == b;
    } else {
      assert (a + b)[1..] == a[1..] + b;
      LinksAppend(a[1..], b);
    }
  }

  /** One anchor gives its `href` when kept and nothing otherwise. */
  lemma LinksOfOne(h: Option<string>)
    ensures Links([h]) == if Kept(h) then [h.value] else []
  {
  }

  /** The wrapping of each string of `s` as a present `href`. */
  function AsHrefs(s: seq<string>): seq<Option<string>>
  {
    seq(|s|, i requires 0 <= i < |s| => Some(s[i]))
  }

  /** Anchors whose targets are all non-empty come back exactly as they
      are: nothing is rewritten, reordered or deduplicated. */
  lemma {:induction false} LinksKeepAllNonEmpty(s: seq<string>)
    requires forall i :: 0 <= i < |s| ==> s[i] != ""
    ensures Links(AsHrefs(s)) == s
    decreases |s|
  {
    if s != [] {
      assert AsHrefs(s)[1..] == AsHrefs(s[1..]);
      LinksKeepAllNonEmpty(s[1..]);
      assert [s[0]] + s[1..] == s;
    }
  }

  /** Every anchor without a usable target is dropped, so a page whose
      anchors all lack one yields no links. */
  lemma {:induction false} LinksOfUnkept(hrefs: seq<Option<string>>)
    requires forall i :: 0 <= i < |hrefs| ==> !Kept(hrefs[i])
    ensures Links(hrefs) == []
    decreases |hrefs|
  {
    if hrefs != [] {
      LinksOfUnkept(hrefs[1..]);
    }
  }

  /** The number of kept anchors. */
  function KeptCount(hrefs: seq<Option<string>>): nat
    decreases |hrefs|
  {
    if hrefs == [] then 0 else (if Kept(hrefs[0]) then 1 else 0) + KeptCount(hrefs[1..])
  }

  /** There is one link per kept anchor: the links are exactly as many as
      the present, non-empty `href`s. */
  lemma {:induction false} LinksCount(hrefs: seq<Option<string>>)
    ensures |Links(hrefs)| == KeptCount(hrefs)
    decreases |hrefs|
  {
    if hrefs != [] {
      LinksCount(hrefs[1..]);
    }
  }
}
