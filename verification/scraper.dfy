/** `get_title_from_url`: the page's `<title>` text (stripped) or a fallback built from
    the url, paired with the classifier's guess; any failure to fetch gives None.
    The HTTP request and the HTML parser are not modelled: their outcome is an input. */
module Scraper {
  import opened JsonValues
  import opened Text
  import opened Classifier
  import CategoryOptions

  /** What fetching and parsing the page gave. `Fetched(title)` carries the `.string` of
      the first `<title>` tag, or None when the page has no such tag or the tag's
      content is not a single string. `FetchFailed` stands for every exception raised
      while requesting or parsing (HTTP error status, connection error, timeout, ...). */
  datatype Page = FetchFailed | Fetched(title: Option<string>)

  const NoTitlePrefix := "Título no disponible para: "

  /** The title used when the page has no usable `<title>`. */
  function FallbackTitle(url: string): (r: string)
    ensures StartsWith(r, NoTitlePrefix)
    ensures |r| == |NoTitlePrefix| + (if |url| < 50 then |url| else 50) + 3
    ensures r[|NoTitlePrefix|..|r| - 3] == url[..|r| - 3 - |NoTitlePrefix|]
    ensures r[|r| - 3..] == "..."
  {
    NoTitlePrefix + Take(url, 50) + "..."
  }

  /** `get_title_from_url(url)`. A url that is not a string never reaches the network:
      the HTTP library rejects it (no scheme, or no adapter for it) and the function's
      catch-all handler returns None. */
  function GetTitleFromUrl(url: Json, page: Page, py: PyText): (r: Option<(string, string)>)
    ensures r.None? <==> !url.Str? || page.FetchFailed?
    ensures r.Some? && page.title.Some? && page.title.value != "" ==>
      IsStripOf(page.title.value, r.value.0, py.isSpace)
    ensures r.Some? && !(page.title.Some? && page.title.value != "") ==>
      r.value.0 == FallbackTitle(url.s)
    ensures r.Some? ==> r.value.1 == ClassifyTextSimple(r.value.0, py)
    ensures r.Some? ==> CategoryOptions.IsOption(r.value.1)
  {
    if !url.Str? then None
    else match page
      case FetchFailed => None
      case Fetched(tag) =>
        var title := if tag.Some? && tag.value != "" then Strip(tag.value, py.isSpace) else FallbackTitle(url.s);
        Some((title, ClassifyTextSimple(title, py)))
  }

  /** The title the server reports for a failed scrape, which the client's analysis
      merge ignores. */
  const NoTitle := "Título no disponible"

  /** The fallback title is never the sentinel the client ignores, so a page without
      a `<title>` overwrites the user's title in the client's analysis merge. */
  lemma FallbackIsNotSentinel(url: string)
    ensures FallbackTitle(url) != NoTitle
  {
    assert |FallbackTitle(url)| > |NoTitle|;
  }

  /** A title made only of whitespace is truthy before stripping, so it is kept and
      becomes the empty string. */
  lemma BlankTitleBecomesEmpty(url: string, raw: string, py: PyText)
    requires raw != [] && forall i :: 0 <= i < |raw| ==> py.isSpace(raw[i])
    ensures var r := GetTitleFromUrl(Str(url), Fetched(Some(raw)), py);
      r.Some? && r.value.0 == ""
  {
  }
}
