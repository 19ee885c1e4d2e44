/** Version 1 (CopyTicket_ext): one flat set of settings instead of
    profiles, a popup that edits and previews them, and a background script
    that scrapes the issue page and copies plain text only. */
module Legacy {
  import opened Strings
  import opened Formatter
  import opened IssueUrl

  /** The eight settings keys. */
  datatype Settings = Settings(incId: bool, incName: bool, incUrl: bool,
                               sep: string, prefix: string, suffix: string,
                               urlPrefix: string, urlSuffix: string)

  /** What storage holds under each key; None for a key never written. */
  datatype Stored = Stored(incId: Option<bool>, incName: Option<bool>, incUrl: Option<bool>,
                           sep: Option<string>, prefix: Option<string>, suffix: Option<string>,
                           urlPrefix: Option<string>, urlSuffix: Option<string>)

  /** The defaults object, identical in the popup and the background. */
  const Defaults := Settings(true, true, true, " | ", "(", ")", "[", "]")

  const NothingStored := Stored(None, None, None, None, None, None, None, None)

  /** `chrome.storage.sync.get(defaults)`: each key from storage when it was
      written, else its default. */
  function Merge(st: Stored): Settings {
    Settings(st.incId.GetOr(Defaults.incId), st.incName.GetOr(Defaults.incName),
             st.incUrl.GetOr(Defaults.incUrl), st.sep.GetOr(Defaults.sep),
             st.prefix.GetOr(Defaults.prefix), st.suffix.GetOr(Defaults.suffix),
             st.urlPrefix.GetOr(Defaults.urlPrefix), st.urlSuffix.GetOr(Defaults.urlSuffix))
  }

  /** The popup's save handler writes all eight keys. */
  function Save(s: Settings): (st: Stored)
    ensures st.incId.Some? && st.incName.Some? && st.incUrl.Some? && st.sep.Some?
    ensures st.prefix.Some? && st.suffix.Some? && st.urlPrefix.Some? && st.urlSuffix.Some?
  {
    Stored(Some(s.incId), Some(s.incName), Some(s.incUrl), Some(s.sep),
           Some(s.prefix), Some(s.suffix), Some(s.urlPrefix), Some(s.urlSuffix))
  }

  /** Nothing stored reads as the defaults; what the popup saved reads back
      unchanged, whatever was stored before. */
  lemma MergeSpec(s: Settings)
    ensures Merge(NothingStored) == Defaults
    ensures Merge(Save(s)) == s
  {
  }

  /** What the injected script reads: `location.href`, the trimmed text of
      the summary element's heading (or of the element itself), None when
      there is no summary element, and `document.title`. */
  datatype Page = Page(url: string, summary: Option<string>, docTitle: string)

  /** The object the script returns. */
  datatype Scraped = Scraped(title: string, url: string, ticketId: string)

  /** `document.title.split(' - ')[0].trim()`: the title cut at its first
      ` - `, as a piece of the title that starts after only white space and is
      followed by only white space up to the cut. */
  function TitleFallback(docTitle: string): (t: string)
    ensures t == [] || (!IsJsSpace(t[0]) && !IsJsSpace(t[|t| - 1]))
    ensures forall k :: 0 <= k <= |docTitle| - 3 && OccursAt(docTitle, " - ", k) ==> |t| <= k
    ensures var cut := BeforeFirst(docTitle, " - "); var a := LeadingSpaces(cut);
      && (cut == docTitle || OccursAt(docTitle, " - ", |cut|))
      && (forall k :: 0 <= k < |cut| ==> !OccursAt(docTitle, " - ", k))
      && a + |t| <= |cut| && t == docTitle[a..a + |t|]
      && (forall k :: 0 <= k < a ==> IsJsSpace(docTitle[k]))
      && (forall k :: a + |t| <= k < |cut| ==> IsJsSpace(docTitle[k]))
  {
    var cut := BeforeFirst(docTitle, " - ");
    TrimInPrefix(docTitle, cut);
    Trim(cut)
  }

  /** Trimming a prefix of `s` cuts away only white space of `s`. */
  lemma TrimInPrefix(s: string, cut: string)
    requires StartsWith(s, cut)
    ensures var t := Trim(cut); var a := LeadingSpaces(cut);
      a + |t| <= |cut| && t == s[a..a + |t|]
      && (forall k :: 0 <= k < a ==> IsJsSpace(s[k]))
      && (forall k :: a + |t| <= k < |cut| ==> IsJsSpace(s[k]))
  {
    var t := Trim(cut);
    var a := LeadingSpaces(cut);
    assert cut == s[..|cut|];
    assert t == cut[a..a + |t|];
    assert cut[a..a + |t|] == s[a..a + |t|];
    forall k | 0 <= k < a ensures IsJsSpace(s[k]) {
      assert s[k] == cut[k];
    }
    forall k | a + |t| <= k < |cut| ensures IsJsSpace(s[k]) {
      assert s[k] == cut[k];
    }
  }

  /** The script's result: title, clean URL and ticket id. */
  function Scrape(pg: Page): (r: Scraped)
    ensures r.url == CleanUrlV21(pg.url) && StartsWith(pg.url, r.url)
    ensures r.ticketId == LastSegment(r.url)
    ensures r.title == if pg.summary.Some? then pg.summary.value else TitleFallback(pg.docTitle)
  {
    var cleanUrl := CleanUrlV21(pg.url);
    Scraped(match pg.summary case Some(s) => s case None => TitleFallback(pg.docTitle),
            cleanUrl, KeyOfCleanUrl(cleanUrl))
  }

  /** `finalStr`: the ticket id and the title pushed whenever their flags are
      set, joined, bracketed when non-empty, then the URL block. */
  function FinalStr(s: Settings, r: Scraped): (out: string)
    ensures var ticketPart := if s.incId && s.incName then r.ticketId + s.sep + r.title
                              else if s.incId then r.ticketId
                              else if s.incName then r.title
                              else "";
      out == Bracket(ticketPart, s.prefix, s.suffix) + UrlBlock(s.incUrl, s.urlPrefix, r.url, s.urlSuffix)
  {
    PushedTextPart(s.incId, r.ticketId, s.incName, r.title, s.sep);
    PlainText(Join(PushedInfo(s.incId, r.ticketId, s.incName, r.title), s.sep),
              s.prefix, s.suffix, s.incUrl, s.urlPrefix, r.url, s.urlSuffix)
  }

  /** The copy action: nothing off a `/browse/` page or when the script gave
      no result; otherwise `finalStr` with the merged settings. */
  function CopyV1(tabUrl: string, result: Option<Page>, st: Stored): (r: Option<string>)
    ensures !HasBrowsePath(tabUrl) || result.None? ==> r.None?
    ensures HasBrowsePath(tabUrl) && result.Some? ==> r.Some?
    ensures r.Some? ==> r.value == FinalStr(Merge(st), Scrape(result.value))
  {
    if !HasBrowsePath(tabUrl) then None
    else match result
      case None => None
      case Some(pg) => Some(FinalStr(Merge(st), Scrape(pg)))
  }

  /** With the defaults, a scraped ticket renders as `(KEY | Title)[url]`. */
  lemma DefaultsRender(r: Scraped)
    ensures FinalStr(Defaults, r) == "(" + r.ticketId + " | " + r.title + ")" + "[" + r.url + "]"
  {
    var t := r.ticketId + " | " + r.title;
    assert |t| >= 3;
    assert "(" + t + ")" + ("[" + r.url + "]") == "(" + r.ticketId + " | " + r.title + ")" + "[" + r.url + "]";
  }

  // ---------------------------------------------------------------------
  // The popup (CopyTicket_ext/popup.js)

  const SampleId := "TICKET-123"
  const SampleTitle := "Sample Title"
  const SampleUrl := "https://jira.co.at/..."

  /** `previewStr`: the sample ticket and title with the form's settings. */
  function PopupPreview(form: Settings): string {
    PlainText(Join(PushedInfo(form.incId, SampleId, form.incName, SampleTitle), form.sep),
              form.prefix, form.suffix, form.incUrl, form.urlPrefix, SampleUrl, form.urlSuffix)
  }

  /** What the preview element shows: the preview, or "Nothing selected" when
      it is empty. */
  function DisplayedPreview(form: Settings): string {
    var s := PopupPreview(form);
    if s != "" then s else "Nothing selected"
  }

  /** The fallback is shown exactly when all three flags are off; otherwise
      the preview itself is shown and is non-empty. */
  lemma DisplayedPreviewSpec(form: Settings)
    ensures !form.incId && !form.incName && !form.incUrl ==> DisplayedPreview(form) == "Nothing selected"
    ensures form.incId || form.incName || form.incUrl ==>
      DisplayedPreview(form) == PopupPreview(form) && PopupPreview(form) != ""
  {
    var info := PushedInfo(form.incId, SampleId, form.incName, SampleTitle);
    assert forall k :: 0 <= k < |info| ==> info[k] != "";
    JoinEmptyIff(info, form.sep);
    assert form.incUrl ==> |UrlBlock(form.incUrl, form.urlPrefix, SampleUrl, form.urlSuffix)| > 0;
  }

  /** The popup's preview and the copy use one and the same formula: the
      preview is `finalStr` of the sample ticket. */
  lemma PreviewIsFinalStr(form: Settings)
    ensures PopupPreview(form) == FinalStr(form, Scraped(SampleTitle, SampleUrl, SampleId))
  {
  }
}
