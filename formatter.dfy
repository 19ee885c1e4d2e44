/** The composition shared by every version: an info list of key and summary,
    joined with the separator, bracketed by prefix and suffix when non-empty,
    followed by the optional URL block, plus an optional HTML anchor. */
module Formatter {
  import opened Strings

  /** What is written to the clipboard: the `text/plain` payload and, for a
      clickable profile, the `text/html` payload. */
  datatype Clipboard = Clipboard(plain: string, html: Option<string>)

  /** The info list of versions 2.2 and 3.1: a field is pushed only when its
      checkbox is set and the field is non-empty; key before summary. */
  function FilteredInfo(incId: bool, id: string, incName: bool, name: string): (info: seq<string>)
    ensures |info| == (if incId && id != "" then 1 else 0) + (if incName && name != "" then 1 else 0)
    ensures incId && id != "" ==> info[0] == id
    ensures incName && name != "" ==> info[|info| - 1] == name
    ensures forall k :: 0 <= k < |info| ==> info[k] != ""
  {
    (if incId && id != "" then [id] else []) + (if incName && name != "" then [name] else [])
  }

  /** The info list of versions 1 and 2.1 and of the settings previews: a field
      is pushed whenever its checkbox is set, even when it is empty. */
  function PushedInfo(incId: bool, id: string, incName: bool, name: string): (info: seq<string>)
    ensures |info| == (if incId then 1 else 0) + (if incName then 1 else 0)
    ensures incId ==> info[0] == id
    ensures incName ==> info[|info| - 1] == name
  {
    (if incId then [id] else []) + (if incName then [name] else [])
  }

  /** The text part of a pushed list: key and summary around the separator
      when both boxes are checked, the one checked field alone, or "". */
  lemma PushedTextPart(incId: bool, id: string, incName: bool, name: string, sep: string)
    ensures Join(PushedInfo(incId, id, incName, name), sep) ==
      if incId && incName then id + sep + name
      else if incId then id
      else if incName then name
      else ""
  {
    JoinTwo(id, name, sep);
  }

  /** The text part of a filtered list: the same shape, where a field counts
      only when its box is checked and it is non-empty. */
  lemma FilteredTextPart(incId: bool, id: string, incName: bool, name: string, sep: string)
    ensures Join(FilteredInfo(incId, id, incName, name), sep) ==
      if incId && id != "" && incName && name != "" then id + sep + name
      else if incId && id != "" then id
      else if incName && name != "" then name
      else ""
  {
    JoinTwo(id, name, sep);
  }

  /** `textPart ? prefix + textPart + suffix : ""`: empty exactly for an
      empty text part; otherwise the text part sits between the decorators and nothing else is added. */
  function Bracket(textPart: string, prefix: string, suffix: string): (r: string)
    ensures r == "" <==> textPart == ""
    ensures textPart != "" ==> StartsWith(r, prefix + textPart) && EndsWith(r, textPart + suffix)
    ensures textPart != "" ==> |r| == |prefix| + |textPart| + |suffix|
  {
    if textPart != "" then
      PrefixOfConcat(prefix + textPart, suffix);
      SuffixOfConcat(prefix, textPart + suffix);
      assert prefix + (textPart + suffix) == prefix + textPart + suffix;
      prefix + textPart + suffix
    else ""
  }

  /** `incUrl ? urlPrefix + url + urlSuffix : ""`: nothing when the box is
      unchecked; otherwise the URL between its decorators. */
  function UrlBlock(incUrl: bool, urlPrefix: string, url: string, urlSuffix: string): (r: string)
    ensures !incUrl ==> r == ""
    ensures incUrl ==> StartsWith(r, urlPrefix + url) && EndsWith(r, url + urlSuffix)
    ensures incUrl ==> |r| == |urlPrefix| + |url| + |urlSuffix|
  {
    if incUrl then
      PrefixOfConcat(urlPrefix + url, urlSuffix);
      SuffixOfConcat(urlPrefix, url + urlSuffix);
      assert urlPrefix + (url + urlSuffix) == urlPrefix + url + urlSuffix;
      urlPrefix + url + urlSuffix
    else ""
  }

  /** The plain-text payload: the bracketed info block immediately followed by
      the URL block, with nothing in between. */
  function PlainText(textPart: string, prefix: string, suffix: string,
                     incUrl: bool, urlPrefix: string, url: string, urlSuffix: string): (r: string)
    ensures r == Bracket(textPart, prefix, suffix) + UrlBlock(incUrl, urlPrefix, url, urlSuffix)
    ensures textPart != "" ==> StartsWith(r, prefix + textPart + suffix)
    ensures incUrl ==> EndsWith(r, urlPrefix + url + urlSuffix)
    ensures textPart == "" ==> r == UrlBlock(incUrl, urlPrefix, url, urlSuffix)
    ensures !incUrl ==> r == Bracket(textPart, prefix, suffix)
  {
    PrefixOfConcat(Bracket(textPart, prefix, suffix), UrlBlock(incUrl, urlPrefix, url, urlSuffix));
    SuffixOfConcat(Bracket(textPart, prefix, suffix), UrlBlock(incUrl, urlPrefix, url, urlSuffix));
    Bracket(textPart, prefix, suffix) + UrlBlock(incUrl, urlPrefix, url, urlSuffix)
  }

  /** The anchor, built without any escaping: the opening tag carries `href`
      verbatim and the element ends with `text`, with nothing else in between. */
  function Anchor(href: string, text: string): (a: string)
    ensures StartsWith(a, "<a href=\"" + href + "\">")
    ensures EndsWith(a, text + "</a>")
    ensures |a| == |href| + |text| + 15
  {
    var open := "<a href=\"" + href + "\">";
    PrefixOfConcat(open, text + "</a>");
    SuffixOfConcat(open, text + "</a>");
    assert open + text + "</a>" == open + (text + "</a>");
    open + text + "</a>"
  }

  /** The HTML payload: present only for a clickable profile; its text is
      `textPart || key`. */
  function Html(isClickable: bool, href: string, textPart: string, key: string): Option<string> {
    if isClickable then Some(Anchor(href, if textPart != "" then textPart else key)) else None
  }
}
