# CopyTicket in Dafny

CopyTicket is a browser extension that copies a reference to the Jira issue
shown in the current tab: the issue key, the summary and a clean link. The
result goes on the clipboard as plain text and, for clickable profiles, as an
HTML anchor. The repository holds successive versions:

- **Version 1 (`CopyTicket_ext`)**: one flat set of settings, edited in a popup.
- **Version 2.1**: named profiles, a settings page, the greedy `/browse/`
  clean URL.
- **Version 2.2**: `selectedIssue=` board URLs, a clean URL that is always a
  `/browse/` link, and empty fields filtered out.
- **Version 3.1**: `/projects/X/issues/` URLs and per-profile find/replace
  rules.

The model covers three parts of each version.

1. **The formatting pipeline.**
   - The URL guard decides whether the tab shows an issue.
   - The issue key is extracted, with each version's pattern order.
   - The clean URL is built.
   - The ordered find/replace rules rewrite key, summary and URL.
   - The info list is built, joined and bracketed, and the URL block is
     appended.
   - The HTML anchor is built.
2. **The profile collection.**
   - Install-time seeding.
   - The choice of the active profile.
   - The settings page as a class. It keeps the profile list, the current and
     default ids and the form controls, and has one method per handler: load,
     select, rename, save, add, delete, make default, the rule rows and the
     preview.
3. **Version 1.** Settings merged with their defaults, the scraped title and
   ticket id, `finalStr`, and the popup preview and save.

## Regular expressions

Two facts about JavaScript regular expressions are the model's only contact
with them, and both are parameters:

- `Engine.compiles` says whether `new RegExp(find, 'g')` succeeds.
- `Engine.replaceAll` stands for the global `String.prototype.replace`.

The predicate `AgreesOnLiterals` ties an engine to the model's own
left-to-right literal replacement. It covers patterns without metacharacters
and replacements without `$`. The worked examples rely on it.

The three key patterns and the greedy `^(.*\/browse\/[A-Z0-9-]+)` are
different. They are written out as string functions (leftmost match, or
rightmost match before the first line terminator), not abstracted.

## Behaviour worth noting

- **Malformed rules abort the copy.** A rule with an unparsable pattern is not
  skipped. `new RegExp` has no `try` around it
  (CopyTicket_ext_ff_3_1/background.js:136), so the script throws and nothing
  is copied. `RuleEngine.ApplyRules` returns `None` in that case. The settings
  preview fails the same way (CopyTicket_ext_3_1/settings.js:60).
- **Missing profile fields are not backfilled.** A stored profile is used as
  stored, and no field is filled in from the template. The one field that may
  be missing here is `replacements`. Version 3.1 reads a missing
  `replacements` as "no rules" (`RulesOf`; CopyTicket_ext_ff_3_1/background.js:133).

## Model

| member | source | states |
|---|---|---|
| Strings.Contains | CopyTicket_ext_ff_3_1/background.js:39-43 | `includes` holds exactly when the pattern occurs at some index |
| Strings.BeforeFirst | CopyTicket_ext_2_1/background.js:55 | `split(sep)[0]` returns a prefix of the string. The separator does not occur before the cut. The cut is at the first occurrence, or the whole string is returned. |
| Strings.LastSegment | CopyTicket_ext_2_1/background.js:56 | `split('/').pop()` returns a slash-free suffix. When it is shorter than the whole string, a `/` precedes it. |
| Strings.LastSegmentAfterSlash | CopyTicket_ext_2_1/background.js:56 | the last segment of `x + "/" + k` is `k` when `k` has no slash |
| Strings.Trim | CopyTicket_ext/background.js:30 | `trim()` returns the infix left after cutting white space from both ends. Everything cut away is ECMAScript white space, and the result neither starts nor ends with white space. |
| Strings.TrimIdempotent | CopyTicket_ext/background.js:30 | trimming twice is trimming once |
| Strings.Join | CopyTicket_ext_ff_3_1/background.js:149 | `join` gives "" for no parts, and otherwise opens with the first part and closes with the last |
| Strings.JoinEmptyIff | CopyTicket_ext_ff_3_1/background.js:149 | a join of non-empty parts is empty only for no parts, with any separator |
| Strings.JoinTwo | CopyTicket_ext_ff_3_1/background.js:149 | two parts join as `a + sep + b` |
| RuleEngine.ApplyRule | CopyTicket_ext_ff_3_1/background.js:134-141 | A rule fails exactly when its non-empty pattern does not compile. A rule with an empty `find` changes nothing. A rule never changes a field other than its target, so an unknown target changes nothing. |
| RuleEngine.ApplyRules | CopyTicket_ext_ff_3_1/background.js:133-142 | the rule loop aborts exactly when some rule with a non-empty `find` does not compile |
| RuleEngine.ApplyRulesCharacterization | CopyTicket_ext_ff_3_1/background.js:133-142 | The rules abort exactly when some enabled rule does not compile. Otherwise each output field is the in-order fold of only the enabled rules aimed at it. |
| RuleEngine.DisabledRulesChangeNothing | CopyTicket_ext_ff_3_1/background.js:129-142 | with no rules, or only rules with empty `find`, the fields come out unchanged |
| RuleEngine.ApplyRulesAppend | CopyTicket_ext_ff_3_1/background.js:134-141 | the rule list is a left fold: `a + b` is `a` followed by `b` on `a`'s output |
| RuleEngine.Transform | CopyTicket_ext_ff_3_1/background.js:129-142 | the `forEach` loop over three reassigned variables computes exactly the rule fold, including the abort |
| RuleEngine.ReplaceLiteralAbsent | CopyTicket_ext_ff_3_1/background.js:138-140 | a literal replacement changes nothing where the pattern does not occur |
| Formatter.FilteredInfo | CopyTicket_ext_ff_3_1/background.js:145-147 | The info list holds the key exactly when it is enabled and non-empty, then the summary under the same rule. The key comes first. There are at most two entries, and none is empty. |
| Formatter.PushedInfo | CopyTicket_ext_2_1/background.js:58-60 | the info list holds key then summary whenever their flags are set, even when empty |
| Formatter.PushedTextPart | CopyTicket_ext_2_1/background.js:58-61 | the text part of a pushed list is `key + sep + summary` with both boxes checked, the one checked field alone, or "" |
| Formatter.FilteredTextPart | CopyTicket_ext_ff_3_1/background.js:145-149 | the text part of a filtered list has the same shape, counting a field only when it is checked and non-empty |
| Formatter.Bracket | CopyTicket_ext_ff_3_1/background.js:150 | The bracketed block is empty exactly when the text part is. Otherwise it opens with `prefix + textPart`, closes with `textPart + suffix`, and is exactly as long as the three together, so nothing else is added. |
| Formatter.UrlBlock | CopyTicket_ext_ff_3_1/background.js:151 | The URL block is empty when its box is unchecked. Otherwise it opens with `urlPrefix + url`, closes with `url + urlSuffix`, and is exactly as long as the three together. |
| Formatter.PlainText | CopyTicket_ext_ff_3_1/background.js:149-151 | The plain text is the bracketed block immediately followed by the URL block, with nothing between them. A non-empty text part appears bracketed at the start, and an enabled URL block appears at the end. |
| Formatter.Anchor | CopyTicket_ext_ff_3_1/background.js:155 | The anchor opens with `href` verbatim, with no escaping, and ends with its text. Its length is the two plus the 15 tag characters, so nothing else is added. |
| IssueUrl.KeyRun | CopyTicket_ext_ff_3_1/background.js:90 | `[A-Z0-9-]+` takes the longest run of key characters |
| IssueUrl.SegmentRun | CopyTicket_ext_ff_3_1/background.js:91 | `[^\/]+` takes the whole slash-free segment |
| IssueUrl.CaptureAt | CopyTicket_ext_ff_3_1/background.js:90-92 | A captured key is non-empty and uses only `A-Z`, `0-9` and `-`. It is the text right after the matched `/browse/`, `/projects/X/issues/` or `selectedIssue=`, and it runs to the end of the URL or to the first character outside that class (greedy `+`). |
| IssueUrl.FirstMatch | CopyTicket_ext_ff_3_1/background.js:90-92 | `match` finds the leftmost position where the pattern matches |
| IssueUrl.Capture | CopyTicket_ext_ff_3_1/background.js:90-95 | A group exists exactly when the pattern matches somewhere. It is group 1 of the leftmost match, and any captured key is well formed. |
| IssueUrl.IssueKeyV31Spec | CopyTicket_ext_ff_3_1/background.js:94-126 | `IssueKeyV31` tries `/browse/`, then `/projects/X/issues/`, then `selectedIssue=`, and the first pattern that matches gives the key. A key from any pattern is well formed, and `CleanUrlV31` is then `origin/browse/KEY`. Otherwise the page's key is used, and the clean URL falls back to the full URL only when that key is empty. |
| IssueUrl.IssueKeyV22Spec | CopyTicket_ext_2_2/background.js:62-71 | `IssueKeyV22` tries `selectedIssue=` before `/browse/`, never the project pattern, and uses the page's key only when neither matches. A key from the URL is well formed and is the last segment of `CleanUrlV22`. |
| IssueUrl.GuardsAdmitUrlKeys | CopyTicket_ext_ff_3_1/background.js:39-43 | Every URL a key pattern reads passes the guard of the versions that use the pattern. The guards `HasBrowsePath` (1 and 2.1), `IsIssuePageV22` and `IsIssuePageV31` only widen from version to version. |
| IssueUrl.PatternOrderDiffers | CopyTicket_ext_2_2/background.js:62-63 | on a URL with both keys, 2.2 takes the `selectedIssue=` key and 3.1 the `/browse/` key |
| IssueUrl.LineEnd | CopyTicket_ext_2_1/background.js:54 | the greedy `.*` can span only up to the first line terminator |
| IssueUrl.LastMatch | CopyTicket_ext_2_1/background.js:54 | backtracking the greedy `.*` lands on the rightmost `/browse/KEY` start within the first line |
| IssueUrl.BrowsePrefix | CopyTicket_ext_2_1/background.js:54 | `^(.*\/browse\/[A-Z0-9-]+)` matches exactly when a `/browse/KEY` starts within the first line. The group is then a prefix of the URL whose last segment is a well-formed key, and it ends where the key run ends (greedy `+`). |
| IssueUrl.CleanUrlV21 | CopyTicket_ext_2_1/background.js:54-55 | The clean URL of versions 1 and 2.1 is always a prefix of the tab URL. When the `/browse/` pattern matches, it ends where the key run ends. |
| IssueUrl.CleanUrlV21Matched | CopyTicket_ext_2_1/background.js:54-56 | A matched clean URL is a prefix of the tab URL ending in `/browse/KEY`, at the last usable `/browse/`. Its last segment is that well-formed key, taken to the end of the key run. |
| IssueUrl.CleanUrlV21Unmatched | CopyTicket_ext_2_1/background.js:55 | Without a match, the clean URL is the URL cut before its first `?`. |
| Profiles.FindIndex | CopyTicket_ext_ff_3_1/background.js:53 | `find` by strict id returns the first matching index, or nothing exactly when no profile carries the id |
| Profiles.Without | CopyTicket_ext_3_1/settings.js:220 | the filter keeps exactly the profiles whose id differs and never grows the list |
| Profiles.WithoutConcat | CopyTicket_ext_3_1/settings.js:220 | the filter keeps survivors in their original order |
| Profiles.WithoutPresentUnique | CopyTicket_ext_3_1/settings.js:220 | with unique ids, filtering out a present id removes exactly one profile |
| Profiles.WithoutAbsent | CopyTicket_ext_3_1/settings.js:220 | filtering out an absent id changes nothing |
| Profiles.WithoutHasId | CopyTicket_ext_3_1/settings.js:220 | the ids left are the old ones minus the filtered id |
| Profiles.WithoutKeepsUnique | CopyTicket_ext_3_1/settings.js:220 | the filter keeps ids unique |
| Profiles.SameIdsKeepIds | CopyTicket_ext_3_1/settings.js:196-201 | edits that keep every id in place keep the same ids and their uniqueness |
| Profiles.Resolve | CopyTicket_ext_ff_3_1/background.js:52-53 | The active profile is the profile at the first index holding the stored default id, else the first profile. The list falls back to the template, and there is nothing for an empty stored list. |
| Profiles.Seed | CopyTicket_ext_ff_3_1/background.js:10-18 | A missing or empty list is replaced by the template and its id as default. Any other store is left alone. |
| Profiles.SeedThenResolve | CopyTicket_ext_2_2/background.js:12-17 | Seeding is idempotent. After it a copy always finds a profile: the template when the store was missing or empty. |
| Background.StripJiraSuffix | CopyTicket_ext_ff_3_1/background.js:121 | only a trailing ` - Jira` is removed |
| Background.SummaryV22 | CopyTicket_ext_ff_3_1/background.js:113-121 | the scraped summary is used when non-empty, else the stripped page title |
| Background.SummaryV21 | CopyTicket_ext_2_1/background.js:51-53 | the title is used only when no summary element exists |
| Background.RenderV31Spec | CopyTicket_ext_ff_3_1/background.js:129-157 | For `RenderV31` (and `FormatV31` on the scraped fields): the copy fails exactly when a rule does not compile. Otherwise the plain text follows the bracket-plus-URL-block formula over the per-field folds. The HTML exists iff clickable, links to the untransformed clean URL and falls back to the raw key. |
| Background.DisabledRulesRenderRaw | CopyTicket_ext_ff_3_1/background.js:129-157 | without enabled rules the payloads come from the raw fields, whatever the engine |
| Background.AllFlagsOffRendersNothing | CopyTicket_ext_ff_3_1/background.js:149-157 | With key, summary and URL all off, the plain text is empty. A clickable anchor then shows the raw key. |
| Background.ComposeWithStandardDecorators | CopyTicket_ext_ff_3_1/background.js:2-8 | the built-in decorators render two entries as `[a \| b](url)` |
| Background.ExampleRender | CopyTicket_ext_ff_3_1/background.js:145-151 | with the built-in decorators, key, summary and URL render as `[PROJ-123 \| Fix login bug](https://x/browse/PROJ-123)` |
| Background.ExampleRenameApplies | CopyTicket_ext_ff_3_1/background.js:134-141 | the literal rule PROJ to JIRA on `id` turns `PROJ-123` into `JIRA-123` and nothing else |
| Background.ExampleRenameRule | CopyTicket_ext_ff_3_1/background.js:129-157 | with that rule the text shows `JIRA-123` while the anchor still links to `https://x/browse/PROJ-123` |
| Background.CopyV31 | CopyTicket_ext_ff_3_1/background.js:39-56 | Off an issue page nothing is copied, and likewise with an empty stored list. On an issue page the resolved profile formats the page, and with nothing stored that is the template. |
| Background.ExecuteFormatting | CopyTicket_ext_ff_3_1/background.js:84-157 | the step-by-step script (rules loop, `info` built by push) produces exactly the rendering above |
| Background.FormatV22 | CopyTicket_ext_2_2/background.js:90-108 | The plain text is the bracketed text part followed by the URL block. The text part holds key and summary, each only when checked and non-empty, key first. The HTML exists iff clickable, always links to `origin/browse/KEY` (even for an empty key) and shows `textPart \|\| key`. All flags off give an empty text. |
| Background.CopyV22 | CopyTicket_ext_2_2/background.js:32-39 | Only `/browse/` and `selectedIssue=` pages are copied, with the resolved profile. An empty stored list copies nothing. |
| Background.V31AgreesWithV22OnBrowsePages | CopyTicket_ext_2_2/background.js:62-108 | on a `/browse/` page without `selectedIssue=`, a 3.1 profile without enabled rules copies exactly what 2.2 copies |
| Background.FormatV21 | CopyTicket_ext_2_1/background.js:54-68 | The plain text is the bracketed text part followed by the URL block with the greedy clean URL. The text part holds key and summary whenever checked, even when empty. The HTML exists iff clickable, links to the clean URL and shows `textPart \|\| key`. |
| Background.CopyV21 | CopyTicket_ext_2_1/background.js:32-39 | only `/browse/` pages are copied, with the resolved profile; an empty stored list copies nothing |
| Settings.SaveInto | CopyTicket_ext_3_1/settings.js:196-201 | Save copies the form into the profile. Id, name and rules are never touched. Saving an unedited form changes nothing. |
| Settings.AppendBlankRule | CopyTicket_ext_3_1/settings.js:121-126 | A blank `{find:'', replace:'', target:'id'}` rule is appended after the existing ones, which are unchanged. Nothing else in the profile changes. |
| Settings.SeededStoreLoadsHealthy | CopyTicket_ext_3_1/settings.js:15-17 | an empty store and a freshly seeded store both load into a healthy editor |
| Settings.PreviewText | CopyTicket_ext_3_1/settings.js:67-73 | the preview text is the bracketed text part (key and summary whenever checked) followed by the URL block |
| Settings.PreviewMatchesCopy | CopyTicket_ext_3_1/settings.js:48-76 | The preview applies the rules exactly as the copy does. When they leave key and summary non-empty, the preview text equals the copied text. |
| Settings.PreviewKeepsEmptiedKey | CopyTicket_ext_3_1/settings.js:67-71 | an emptied key is still pushed by the preview but left out by the copy |
| Settings.PreviewV2EmptyIff | CopyTicket_ext_2_1/settings.js:46-63 | the 2.1 preview is empty exactly when key, summary and URL are all off |
| Settings.Editor.constructor | CopyTicket_ext_3_1/settings.js:3-5 | the page starts with no profiles and no current or default id |
| Settings.Editor.LoadProfile | CopyTicket_ext_3_1/settings.js:28-46 | An unknown id changes nothing. Otherwise that profile becomes current and fills the controls. Nothing else changes. The invariant is kept. |
| Settings.Editor.Load | CopyTicket_ext_3_1/settings.js:15-26 | The profiles are the stored ones, else the template. The default is the truthy stored id, kept even when stale, else the first id. The default is then shown. An empty list without a truthy default fails. A consistent store gives a healthy editor. |
| Settings.Editor.Edit | CopyTicket_ext_3_1/settings.js:129-132 | typing changes only the controls |
| Settings.Editor.Rename | CopyTicket_ext_3_1/settings.js:140-147 | the name box renames the current profile at once and changes nothing else |
| Settings.Editor.Save | CopyTicket_ext_3_1/settings.js:196-208 | The form is saved into the current profile, or nothing happens without one. Every id stays in place, and the invariant is kept. |
| Settings.Editor.Add | CopyTicket_ext_3_1/settings.js:210-216 | Exactly one template clone, with the fresh id and the name "New Profile", is appended and shown. Earlier profiles and the default are unchanged. |
| Settings.Editor.AddRule | CopyTicket_ext_3_1/settings.js:121-126 | only the current profile's rules change, by one blank rule at the end |
| Settings.Editor.UpdateRules | CopyTicket_ext_3_1/settings.js:110-119 | the rule rows become the current profile's rules |
| Settings.Editor.RemoveRule | CopyTicket_ext_3_1/settings.js:101-104 | deleting row `k` removes exactly rule `k` and keeps the others in order |
| Settings.Editor.MakeDefault | CopyTicket_ext_3_1/settings.js:149-154 | the default becomes the current id, and nothing else changes |
| Settings.Editor.Delete | CopyTicket_ext_3_1/settings.js:218-226 | See the Delete notes below the table. |
| Settings.Editor.Preview | CopyTicket_ext_3_1/settings.js:48-76 | A preview exists exactly for a current profile whose rules all compile. It is the preview text of the form over the rule-rewritten sample fields. |
| Settings.Editor.UpdatePreview | CopyTicket_ext_3_1/settings.js:48-76 | the step-by-step preview (rules loop, `info` by push) computes exactly `Preview` |
| Settings.Editor.PreviewV2 | CopyTicket_ext_2_1/settings.js:46-63 | The 2.1 preview exists exactly for a current profile. It is the preview text of the form over the sample fields, and is empty exactly when all three flags are off. |
| Legacy.Save | CopyTicket_ext/popup.js:35-40 | the popup's save writes all eight keys |
| Legacy.MergeSpec | CopyTicket_ext/background.js:44-47 | For `Merge`: an empty store reads as the defaults shared with the popup, and a saved form reads back unchanged. |
| Legacy.TitleFallback | CopyTicket_ext/background.js:30 | The fallback title is the text before the first ` - `, trimmed. It is a piece of the title preceded only by white space and followed only by white space up to the cut. |
| Legacy.Scrape | CopyTicket_ext/background.js:24-38 | The URL is the greedy clean URL, a prefix of the tab URL. The ticket id is its last segment. The title is the summary element's text, or the title fallback when there is no such element. |
| Legacy.FinalStr | CopyTicket_ext/background.js:49-55 | `finalStr` is the bracketed ticket part (id then title, each whenever checked) followed by the URL block |
| Legacy.CopyV1 | CopyTicket_ext/background.js:17-55 | Nothing is copied off a `/browse/` page or without a script result. Otherwise `finalStr` is always copied, built with the merged settings. |
| Legacy.DefaultsRender | CopyTicket_ext/background.js:44-55 | with the defaults a ticket renders as `(KEY \| Title)[url]` |
| Legacy.DisplayedPreviewSpec | CopyTicket_ext/popup.js:14-22 | For `DisplayedPreview` over `PopupPreview`: "Nothing selected" is shown exactly when all flags are off. Otherwise the non-empty preview is shown. |
| Legacy.PreviewIsFinalStr | CopyTicket_ext/popup.js:18-20 | the popup preview is `finalStr` of the sample ticket |

Notes on `Settings.Editor.Delete`:

- With at most one profile, the delete is refused and nothing changes.
- Otherwise every profile with the current id is filtered out, in order.
- If the deleted profile was the default, the default becomes the first
  remaining id. The outcome is `Failed` when none remains.
- Otherwise the default is kept.
- The default is then shown.
- In a healthy editor, exactly one profile goes and the invariant is kept.

## Left out

Plumbing and interface:

- **`chrome.*` calls.**
  - Storage reads appear as a `Storage` or `Stored` value.
  - Install, command, message and action listeners are not modelled.
  - The popup opening and the 500 ms reset are not modelled.
  - So are `tabs.create` and the Firefox shortcut alert.
  - Reason: they are I/O and scheduling.
- **Storage writes.** The writes made by save, make-default and delete are
  not modelled. The written values are the editor's fields after each handler.
- **The page DOM.**
  - The selector chains for the summary are inputs: `Page.summary`, together
    with the newline stripping and trimming.
  - The sidebar key fallback is an input: `Page.domKey`.
  - So is `document.title`.
  - The summary `for` loop of CopyTicket_ext_ff_3_1/background.js:114-120 is
    therefore not modelled.
- **Clipboard and visual effects.** Blob and ClipboardItem writes and toasts
  are left out. The copy returns the payloads it would write.
- **Files not modelled.**
  - CopyTicket_ext_ff_3_1/content.js injects a button.
  - The profile-picker popups of versions 2.1 and 3.1 render an interface and
    write the default id.
  - Theme toggling, `updateHeader`, `populateDropdown` and the markup of
    `renderReplacements`.
  - Reason: all of these are interface code.
- **The v1 popup's `forEach` field loops.** Their effect over the eight fixed
  keys is written out as `Legacy.Merge` and `Legacy.Save`, not as loops.

JavaScript semantics:

- **Regular expressions.** Full JavaScript semantics are not modelled: `$&`
  and `$1` tokens, patterns that match empty strings, and flags. The engine is
  a parameter; only the literal fragment is defined.
- **`Date.now()`.** This is the `newId` parameter of `Settings.Editor.Add`,
  with a freshness precondition.
- **Equality.**
  - Loose and strict equality on ids are both modelled as equality of `int`.
    The string values of the dropdown are not modelled.
  - `||` on the stored default treats 0 and a missing value as falsy.
    Other falsy values are not modelled.
- **Aliasing.** `{...INITIAL_PROFILE}` shares the template's `replacements`
  array, so the `push` of the add-replacement handler can reach the template.
  Profiles are values here, so this sharing is not reproduced.
- **Escaping.** The anchor is built without escaping, as in the code.
- **Stored profile shapes.**
  - A stored profile is assumed to carry every field.
  - `replacements` is either absent or a list. A non-array value, which the
    `Array.isArray` test would also treat as absent, is not modelled.
- **The stray `profileName` property.** The save handler also writes the name
  box into a `profileName` property that nothing reads. It is not modelled.
  The name is changed by `Settings.Editor.Rename`.
- **The `replacements` form entry.** The page is assumed to have no control
  with the id `replacements`, so saving never touches the rules.

Member notes:

- **Settings.Editor.RemoveRule and Settings.Editor.UpdateRules.** These act
  on the current profile's rules directly. They do not act on a separate copy
  of the rendered rows. A row index beyond the rules changes nothing; the page
  never offers one.
- **Settings.Editor.Preview.** This returns `None` both when no profile is
  current (the page then keeps its previous preview) and when a rule's pattern
  does not compile (the handler throws).
- **Versions 2.1 and 3.1 share one editor class.** It is built with the
  version's template. The rule methods and `Preview` are those of version 3.1.
  `PreviewV2` is the 2.1 preview.
