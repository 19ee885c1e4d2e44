/** The copy action of the background scripts of versions 2.1, 2.2 and 3.1:
    the issue-page guard, the choice of the active profile, and the script
    injected into the tab that derives key, summary and clean URL and renders
    the clipboard payloads. */
module Background {
  import opened Strings
  import opened RuleEngine
  import opened Formatter
  import opened IssueUrl
  import opened Profiles

  /** What the injected script reads from the tab: `location.href`,
      `location.origin`, the trimmed text of the sidebar key element (or ""
      when there is none), the processed text of the first summary element the
      version's selector list finds (None when none is found), and
      `document.title`. */
  datatype Page = Page(url: string, origin: string, domKey: string,
                       summary: Option<string>, title: string)

  const JiraSuffix := " - Jira"

  /** `title.replace(/ - Jira$/, "")`. */
  function StripJiraSuffix(title: string): (r: string)
    ensures EndsWith(title, JiraSuffix) ==> r + JiraSuffix == title
    ensures !EndsWith(title, JiraSuffix) ==> r == title
  {
    if EndsWith(title, JiraSuffix) then title[..|title| - |JiraSuffix|] else title
  }

  /** The summary of versions 2.2 and 3.1: the scraped text, or the page
      title without its " - Jira" suffix when that text is empty or missing. */
  function SummaryV22(pg: Page): (s: string)
    ensures pg.summary.Some? && pg.summary.value != "" ==> s == pg.summary.value
    ensures pg.summary.None? || pg.summary.value == "" ==> s == StripJiraSuffix(pg.title)
  {
    var scraped := pg.summary.GetOr("");
    if scraped != "" then scraped else StripJiraSuffix(pg.title)
  }

  /** The summary of version 2.1: the title fallback is taken only when no
      summary element exists, so an empty element gives an empty summary. */
  function SummaryV21(pg: Page): (s: string)
    ensures pg.summary.Some? ==> s == pg.summary.value
    ensures pg.summary.None? ==> s == StripJiraSuffix(pg.title)
  {
    match pg.summary
    case Some(text) => text
    case None => StripJiraSuffix(pg.title)
  }

  /** The two payloads from the info list: `textPart` joins it with the
      separator; the URL block shows `url`, while the anchor links to `href`
      and shows `key` when `textPart` is empty. */
  function Compose(p: Profile, info: seq<string>, url: string, href: string, key: string): Clipboard {
    var textPart := Join(info, p.sep);
    Clipboard(PlainText(textPart, p.prefix, p.suffix, p.incUrl, p.urlPrefix, url, p.urlSuffix),
              Html(p.isClickable, href, textPart, key))
  }

  // ---------------------------------------------------------------------
  // Version 3.1 (CopyTicket_ext_ff_3_1/background.js)

  /** The raw fields before any rule: issue key, summary and clean URL. */
  function RawFieldsV31(pg: Page): Fields {
    var key := IssueKeyV31(pg.url, pg.domKey);
    Fields(key, SummaryV22(pg), CleanUrlV31(pg.origin, pg.url, key))
  }

  /** Steps 4 and 5 of the injected script: the profile's rules rewrite the
      raw fields, the filtered info list and the URL block use the rewritten
      ones, and the anchor uses the raw clean URL and the raw key. None when a
      rule's pattern does not compile (the script throws and nothing is
      copied). */
  function RenderV31(e: Engine, p: Profile, raw: Fields): Option<Clipboard> {
    match ApplyRules(e, RulesOf(p), raw)
    case None => None
    case Some(t) => Some(Compose(p, FilteredInfo(p.incId, t.id, p.incName, t.name), t.url, raw.url, raw.id))
  }

  function FormatV31(e: Engine, p: Profile, pg: Page): Option<Clipboard> {
    RenderV31(e, p, RawFieldsV31(pg))
  }

  /** The rendering described through the independent per-field folds: it
      fails exactly when some rule's pattern does not compile; otherwise the
      plain text is the bracket-plus-URL-block formula over the folded fields,
      with the key before the summary and empty fields left out, and the HTML
      payload exists exactly for a clickable profile, links to the raw clean
      URL and shows the raw key when the text part is empty. */
  lemma RenderV31Spec(e: Engine, p: Profile, raw: Fields)
    ensures var rules := RulesOf(p);
      RenderV31(e, p, raw) ==
        if forall r :: r in rules ==> Compiles(e, r) then
          var id := FieldFold(e, rules, "id", raw.id);
          var name := FieldFold(e, rules, "name", raw.name);
          var url := FieldFold(e, rules, "url", raw.url);
          var textPart := Join(FilteredInfo(p.incId, id, p.incName, name), p.sep);
          Some(Clipboard(Bracket(textPart, p.prefix, p.suffix) + UrlBlock(p.incUrl, p.urlPrefix, url, p.urlSuffix),
                         if p.isClickable then Some(Anchor(raw.url, if textPart != "" then textPart else raw.id))
                         else None))
        else None
  {
    ApplyRulesCharacterization(e, RulesOf(p), raw);
  }

  /** With no rules, or only disabled placeholder rows, the payloads are built
      from the raw fields whatever the regular-expression engine does. */
  lemma DisabledRulesRenderRaw(e: Engine, p: Profile, raw: Fields)
    requires forall r :: r in RulesOf(p) ==> r.find == ""
    ensures RenderV31(e, p, raw) ==
      Some(Compose(p, FilteredInfo(p.incId, raw.id, p.incName, raw.name), raw.url, raw.url, raw.id))
  {
    DisabledRulesChangeNothing(e, RulesOf(p), raw);
  }

  /** With key, summary and URL all switched off the plain text is empty,
      and a clickable profile's anchor shows the raw key. */
  lemma AllFlagsOffRendersNothing(e: Engine, p: Profile, raw: Fields)
    requires !p.incId && !p.incName && !p.incUrl
    requires RenderV31(e, p, raw).Some?
    ensures RenderV31(e, p, raw).value.plain == ""
    ensures p.isClickable ==> RenderV31(e, p, raw).value.html == Some(Anchor(raw.url, raw.id))
  {
  }

  /** The profile used in the examples below: the built-in one, not
      clickable, with the given rules. */
  function ExampleProfile(rules: seq<Rule>, clickable: bool): Profile {
    InitialProfileV3.(isClickable := clickable, replacements := Some(rules))
  }

  const ExampleFields := Fields("PROJ-123", "Fix login bug", "https://x/browse/PROJ-123")

  /** With the built-in decorators, two info entries render as
      `[a | b](url)`, and a clickable profile's anchor shows `a | b`. */
  lemma ComposeWithStandardDecorators(p: Profile, a: string, b: string, url: string, href: string, key: string)
    requires p.sep == " | " && p.prefix == "[" && p.suffix == "]"
    requires p.incUrl && p.urlPrefix == "(" && p.urlSuffix == ")"
    requires a != ""
    ensures Compose(p, [a, b], url, href, key) ==
      Clipboard("[" + a + " | " + b + "]" + "(" + url + ")",
                if p.isClickable then Some("<a href=\"" + href + "\">" + a + " | " + b + "</a>") else None)
  {
    JoinTwo(a, b, " | ");
    var t := a + " | " + b;
    assert "[" + t + "]" + ("(" + url + ")") == "[" + a + " | " + b + "]" + "(" + url + ")";
    assert "<a href=\"" + href + "\">" + t + "</a>" == "<a href=\"" + href + "\">" + a + " | " + b + "</a>";
  }

  /** The rendering of key, summary and URL with the built-in
      decorators (the expected text is written piecewise: key, separator,
      summary, then the URL block). */
  lemma ExampleRender(e: Engine)
    ensures RenderV31(e, ExampleProfile([], false), ExampleFields) ==
      Some(Clipboard("[" + "PROJ-123" + " | " + "Fix login bug" + "]" + "(" + "https://x/browse/PROJ-123" + ")", None))
  {
    var p := ExampleProfile([], false);
    var f := ExampleFields;
    assert ApplyRules(e, RulesOf(p), f) == Some(f);
    assert FilteredInfo(p.incId, f.id, p.incName, f.name) == [f.id, f.name];
    ComposeWithStandardDecorators(p, f.id, f.name, f.url, f.url, f.id);
  }

  /** Replacing the literal `PROJ` by `JIRA` renames the example key. */
  lemma ExampleRenameLiteral()
    ensures ReplaceLiteral("PROJ-123", "PROJ", "JIRA") == "JIRA-123"
  {
    assert ReplaceLiteral("123", "PROJ", "JIRA") == "123";
    assert ReplaceLiteral("-123", "PROJ", "JIRA") == "-123" by {
      assert "-123"[..4] != "PROJ" by {
        assert "-123"[..4][0] == '-';
      }
      assert "-123"[1..] == "123";
      assert "-123" == ['-'] + "123";
    }
    assert "PROJ-123"[..4] == "PROJ" && "PROJ-123"[4..] == "-123";
  }

  /** The literal rule of the example below turns the key `PROJ-123` into
      `JIRA-123` and leaves the other fields alone. */
  lemma ExampleRenameApplies(e: Engine)
    requires AgreesOnLiterals(e)
    ensures ApplyRules(e, [Rule("PROJ", "JIRA", "id")], ExampleFields) == Some(ExampleFields.(id := "JIRA-123"))
  {
    assert IsLiteralPattern("PROJ") by {
      forall k | 0 <= k < 4 ensures !IsRegexMeta("PROJ"[k]) {
      }
    }
    assert IsPlainReplacement("JIRA");
    LiteralRuleOnId(e, "PROJ", "JIRA", ExampleFields);
    ExampleRenameLiteral();
  }

  /** A literal rule renaming the project changes the key in the text while
      the anchor keeps linking to the original URL. */
  lemma ExampleRenameRule(e: Engine)
    requires AgreesOnLiterals(e)
    ensures RenderV31(e, ExampleProfile([Rule("PROJ", "JIRA", "id")], true), ExampleFields) ==
      Some(Clipboard("[" + "JIRA-123" + " | " + "Fix login bug" + "]" + "(" + "https://x/browse/PROJ-123" + ")",
                     Some("<a href=\"" + "https://x/browse/PROJ-123" + "\">" + "JIRA-123" + " | " + "Fix login bug" + "</a>")))
  {
    var p := ExampleProfile([Rule("PROJ", "JIRA", "id")], true);
    var f := ExampleFields;
    var g := f.(id := "JIRA-123");
    ExampleRenameApplies(e);
    assert FilteredInfo(p.incId, g.id, p.incName, g.name) == [g.id, g.name];
    ComposeWithStandardDecorators(p, g.id, g.name, g.url, f.url, f.id);
  }

  /** handleExecution of version 3.1: nothing is copied off an issue page or
      when the stored profile list is empty; with nothing stored the built-in
      profile is used. */
  function CopyV31(e: Engine, s: Storage, pg: Page): (r: Option<Clipboard>)
    ensures !IsIssuePageV31(pg.url) ==> r.None?
    ensures s.profiles == Some([]) ==> r.None?
    ensures IsIssuePageV31(pg.url) && s.profiles.None? ==> r == FormatV31(e, InitialProfileV3, pg)
    ensures IsIssuePageV31(pg.url) && Resolve(s, InitialProfileV3).Some? ==>
      r == FormatV31(e, Resolve(s, InitialProfileV3).value, pg)
  {
    if !IsIssuePageV31(pg.url) then None
    else match Resolve(s, InitialProfileV3)
      case None => None
      case Some(p) => FormatV31(e, p, pg)
  }

  /** The injected script step by step: the rules loop, then `info` built by
      push, then the two payloads. */
  method ExecuteFormatting(e: Engine, p: Profile, pg: Page) returns (out: Option<Clipboard>)
    ensures out == FormatV31(e, p, pg)
  {
    var issueKey := IssueKeyV31(pg.url, pg.domKey);
    var summary := SummaryV22(pg);
    var cleanUrl := CleanUrlV31(pg.origin, pg.url, issueKey);
    var t := Transform(e, RulesOf(p), Fields(issueKey, summary, cleanUrl));
    if t.None? {
      return None;
    }
    var info: seq<string> := [];
    if p.incId && t.value.id != "" {
      info := info + [t.value.id];
    }
    if p.incName && t.value.name != "" {
      info := info + [t.value.name];
    }
    var textPart := Join(info, p.sep);
    var plainText := Bracket(textPart, p.prefix, p.suffix) + UrlBlock(p.incUrl, p.urlPrefix, t.value.url, p.urlSuffix);
    var html: Option<string> := None;
    if p.isClickable {
      html := Some(Anchor(cleanUrl, if textPart != "" then textPart else issueKey));
    }
    return Some(Clipboard(plainText, html));
  }

  // ---------------------------------------------------------------------
  // Version 2.2 (CopyTicket_ext_2_2/background.js)

  /** The 2.2 script: key from `selectedIssue=` before `/browse/`, a clean
      URL that is always a `/browse/` link, the filtered info list, no rules.
      The plain text is the bracketed text part (key and summary, each only
      when checked and non-empty) followed by the URL block; the anchor links
      to the clean URL and shows the text part, or the key when it is empty. */
  function FormatV22(p: Profile, pg: Page): (c: Clipboard)
    ensures var key := IssueKeyV22(pg.url, pg.domKey);
      var clean := CleanUrlV22(pg.origin, key);
      var summary := SummaryV22(pg);
      var textPart := if p.incId && key != "" && p.incName && summary != "" then key + p.sep + summary
                      else if p.incId && key != "" then key
                      else if p.incName && summary != "" then summary
                      else "";
      c == Clipboard(Bracket(textPart, p.prefix, p.suffix) + UrlBlock(p.incUrl, p.urlPrefix, clean, p.urlSuffix),
                     if p.isClickable then Some(Anchor(clean, if textPart != "" then textPart else key)) else None)
    ensures c.html.Some? <==> p.isClickable
    ensures var clean := CleanUrlV22(pg.origin, IssueKeyV22(pg.url, pg.domKey));
      p.isClickable ==> StartsWith(c.html.value, "<a href=\"" + clean + "\">")
    ensures var clean := CleanUrlV22(pg.origin, IssueKeyV22(pg.url, pg.domKey));
      p.incUrl ==> EndsWith(c.plain, p.urlPrefix + clean + p.urlSuffix)
    ensures !p.incId && !p.incName && !p.incUrl ==> c.plain == ""
  {
    var key := IssueKeyV22(pg.url, pg.domKey);
    var cleanUrl := CleanUrlV22(pg.origin, key);
    FilteredTextPart(p.incId, key, p.incName, SummaryV22(pg), p.sep);
    Compose(p, FilteredInfo(p.incId, key, p.incName, SummaryV22(pg)), cleanUrl, cleanUrl, key)
  }

  /** handleExecution of version 2.2: the guard accepts `/browse/` and
      `selectedIssue=` pages only. */
  function CopyV22(s: Storage, pg: Page): (r: Option<Clipboard>)
    ensures !IsIssuePageV22(pg.url) ==> r.None?
    ensures s.profiles == Some([]) ==> r.None?
    ensures IsIssuePageV22(pg.url) && s.profiles.None? ==> r == Some(FormatV22(InitialProfileV2, pg))
    ensures IsIssuePageV22(pg.url) && Resolve(s, InitialProfileV2).Some? ==>
      r == Some(FormatV22(Resolve(s, InitialProfileV2).value, pg))
  {
    if !IsIssuePageV22(pg.url) then None
    else match Resolve(s, InitialProfileV2)
      case None => None
      case Some(p) => Some(FormatV22(p, pg))
  }

  /** On a page whose URL has a `/browse/` key and no `selectedIssue=`, a 3.1
      profile without active rules copies exactly what version 2.2 copies. */
  lemma V31AgreesWithV22OnBrowsePages(e: Engine, p: Profile, pg: Page)
    requires Capture(Browse, pg.url).Some? && Capture(SelectedIssue, pg.url).None?
    requires forall r :: r in RulesOf(p) ==> r.find == ""
    ensures FormatV31(e, p, pg) == Some(FormatV22(p, pg))
  {
    DisabledRulesRenderRaw(e, p, RawFieldsV31(pg));
  }

  // ---------------------------------------------------------------------
  // Version 2.1 (CopyTicket_ext_2_1/background.js)

  /** The 2.1 script: the clean URL from the greedy `/browse/` match or the
      text before `?`, the key as its last segment, and an info list that
      pushes key and summary whenever their flags are set, even when empty.
      The plain text is the bracketed text part followed by the URL block;
      the anchor links to the clean URL and shows the text part, or the key
      when it is empty. */
  function FormatV21(p: Profile, pg: Page): (c: Clipboard)
    ensures var clean := CleanUrlV21(pg.url);
      var key := KeyOfCleanUrl(clean);
      var summary := SummaryV21(pg);
      var textPart := if p.incId && p.incName then key + p.sep + summary
                      else if p.incId then key
                      else if p.incName then summary
                      else "";
      c == Clipboard(Bracket(textPart, p.prefix, p.suffix) + UrlBlock(p.incUrl, p.urlPrefix, clean, p.urlSuffix),
                     if p.isClickable then Some(Anchor(clean, if textPart != "" then textPart else key)) else None)
    ensures var clean := CleanUrlV21(pg.url);
      p.incUrl ==> EndsWith(c.plain, p.urlPrefix + clean + p.urlSuffix)
    ensures p.isClickable <==> c.html.Some?
    ensures p.incId && p.incName && p.sep != "" ==>
      StartsWith(c.plain, p.prefix + (KeyOfCleanUrl(CleanUrlV21(pg.url)) + p.sep + SummaryV21(pg)) + p.suffix)
    ensures !p.incId && !p.incName && !p.incUrl ==> c.plain == ""
  {
    var cleanUrl := CleanUrlV21(pg.url);
    var key := KeyOfCleanUrl(cleanUrl);
    PushedTextPart(p.incId, key, p.incName, SummaryV21(pg), p.sep);
    Compose(p, PushedInfo(p.incId, key, p.incName, SummaryV21(pg)), cleanUrl, cleanUrl, key)
  }

  /** handleExecution of version 2.1: only `/browse/` pages. */
  function CopyV21(s: Storage, pg: Page): (r: Option<Clipboard>)
    ensures !HasBrowsePath(pg.url) ==> r.None?
    ensures s.profiles == Some([]) ==> r.None?
    ensures HasBrowsePath(pg.url) && s.profiles.None? ==> r == Some(FormatV21(InitialProfileV2, pg))
    ensures HasBrowsePath(pg.url) && Resolve(s, InitialProfileV2).Some? ==>
      r == Some(FormatV21(Resolve(s, InitialProfileV2).value, pg))
  {
    if !HasBrowsePath(pg.url) then None
    else match Resolve(s, InitialProfileV2)
      case None => None
      case Some(p) => Some(FormatV21(p, pg))
  }
}
