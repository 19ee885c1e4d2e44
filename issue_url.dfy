/** Deciding from the tab's URL whether it shows an issue, extracting the issue
    key with the URL patterns of each version, and building the clean URL. */
module IssueUrl {
  import opened Strings

  /** The character class `[A-Z0-9-]` of the key patterns. */
  predicate IsKeyChar(c: char) {
    'A' <= c <= 'Z' || '0' <= c <= '9' || c == '-'
  }

  /** The longest prefix of `s` made of key characters (a greedy `[A-Z0-9-]*`). */
  function KeyRun(s: string): (r: string)
    ensures |r| <= |s| && r == s[..|r|]
    ensures forall k :: 0 <= k < |r| ==> IsKeyChar(r[k])
    ensures |r| < |s| ==> !IsKeyChar(s[|r|])
  {
    if s != [] && IsKeyChar(s[0]) then [s[0]] + KeyRun(s[1..]) else []
  }

  /** The longest prefix of `s` without `/` (a greedy `[^\/]*`). */
  function SegmentRun(s: string): (r: string)
    ensures |r| <= |s| && r == s[..|r|]
    ensures '/' !in r
    ensures |r| < |s| ==> s[|r|] == '/'
  {
    if s != [] && s[0] != '/' then [s[0]] + SegmentRun(s[1..]) else []
  }

  /** The three key patterns: `/\/browse\/([A-Z0-9-]+)/`,
      `/\/projects\/[^\/]+\/issues\/([A-Z0-9-]+)/` and
      `/selectedIssue=([A-Z0-9-]+)/`. */
  datatype Pattern = Browse | ProjectIssues | SelectedIssue

  /** Where the captured key starts when the part of `pat` before the group
      matches at `i`. In the project pattern `[^\/]+` must be followed by `/`, so
      only the whole slash-free segment can precede `/issues/`. */
  function CaptureStart(pat: Pattern, s: string, i: nat): (r: Option<nat>)
    ensures r.Some? ==> i < r.value <= |s|
  {
    match pat
    case Browse => if OccursAt(s, "/browse/", i) then Some(i + 8) else None
    case SelectedIssue => if OccursAt(s, "selectedIssue=", i) then Some(i + 14) else None
    case ProjectIssues =>
      if !OccursAt(s, "/projects/", i) then None
      else
        var seg := SegmentRun(s[i + 10..]);
        if |seg| > 0 && OccursAt(s, "/issues/", i + 10 + |seg|) then Some(i + 10 + |seg| + 8)
        else None
  }

  /** The whole pattern matches at `i`: its group needs at least one key character. */
  predicate MatchesAt(pat: Pattern, s: string, i: nat) {
    var c := CaptureStart(pat, s, i);
    c.Some? && c.value < |s| && IsKeyChar(s[c.value])
  }

  /** Group 1 of a match at `i`: the whole run of key characters that starts
      right after the part of the pattern before the group. */
  function CaptureAt(pat: Pattern, s: string, i: nat): (k: string)
    requires MatchesAt(pat, s, i)
    ensures |k| > 0 && forall j :: 0 <= j < |k| ==> IsKeyChar(k[j])
    ensures var c := CaptureStart(pat, s, i).value;
      c + |k| <= |s| && s[c..c + |k|] == k && (c + |k| == |s| || !IsKeyChar(s[c + |k|]))
  {
    KeyRun(s[CaptureStart(pat, s, i).value..])
  }

  /** The leftmost match at or after `i`, as `String.prototype.match` finds it. */
  function FirstMatch(pat: Pattern, s: string, i: nat): (r: Option<nat>)
    requires i <= |s|
    decreases |s| - i
    ensures r.Some? ==> i <= r.value < |s| && MatchesAt(pat, s, r.value)
    ensures r.Some? ==> forall k :: i <= k < r.value ==> !MatchesAt(pat, s, k)
    ensures r.None? ==> forall k :: i <= k <= |s| ==> !MatchesAt(pat, s, k)
  {
    if MatchesAt(pat, s, i) then Some(i)
    else if i == |s| then None
    else FirstMatch(pat, s, i + 1)
  }

  /** `s.match(pat)?.[1]`: group 1 of the leftmost match. */
  function Capture(pat: Pattern, s: string): (r: Option<string>)
    ensures r.Some? <==> exists i :: 0 <= i <= |s| && MatchesAt(pat, s, i)
    ensures r.Some? ==> FirstMatch(pat, s, 0).Some? && r.value == CaptureAt(pat, s, FirstMatch(pat, s, 0).value)
    ensures r.Some? ==> |r.value| > 0 && forall j :: 0 <= j < |r.value| ==> IsKeyChar(r.value[j])
  {
    match FirstMatch(pat, s, 0)
    case Some(i) => Some(CaptureAt(pat, s, i))
    case None => None
  }

  /** A key read from the URL: non-empty, only `A-Z`, `0-9`, `-`. */
  predicate IsUrlKey(k: string) {
    |k| > 0 && forall j :: 0 <= j < |k| ==> IsKeyChar(k[j])
  }

  // ---------------------------------------------------------------------
  // Version 3.1 (CopyTicket_ext_ff_3_1/background.js)

  predicate IsIssuePageV31(url: string) {
    url != "" && (Contains(url, "/browse/") || Contains(url, "selectedIssue=") || Contains(url, "/issues/"))
  }

  /** The key from `/browse/`, else from `/projects/X/issues/`, else from
      `selectedIssue=`, else the key scraped from the page (`domKey`). */
  function IssueKeyV31(url: string, domKey: string): string {
    match Capture(Browse, url)
    case Some(k) => k
    case None =>
      match Capture(ProjectIssues, url)
      case Some(k) => k
      case None =>
        match Capture(SelectedIssue, url)
        case Some(k) => k
        case None => domKey
  }

  function CleanUrlV31(origin: string, url: string, key: string): string {
    if key != "" then origin + "/browse/" + key else url
  }

  /** The patterns are tried in the order `/browse/`, `/projects/X/issues/`,
      `selectedIssue=`, and the first that matches supplies the key. A key
      found in the URL by any of the three patterns is a well-formed
      key and gives a `/browse/` clean URL; only when no pattern matches is the
      key scraped from the page used, and the clean URL falls back to the full
      URL only when that key is empty too. */
  lemma {:induction false} IssueKeyV31Spec(url: string, origin: string, domKey: string)
    ensures var key := IssueKeyV31(url, domKey);
      && (Capture(Browse, url).Some? ==> key == Capture(Browse, url).value)
      && (Capture(Browse, url).None? && Capture(ProjectIssues, url).Some? ==>
            key == Capture(ProjectIssues, url).value)
      && (Capture(Browse, url).None? && Capture(ProjectIssues, url).None? && Capture(SelectedIssue, url).Some? ==>
            key == Capture(SelectedIssue, url).value)
    ensures var key := IssueKeyV31(url, domKey);
      (Capture(Browse, url).Some? || Capture(ProjectIssues, url).Some? || Capture(SelectedIssue, url).Some?) ==>
        IsUrlKey(key) && CleanUrlV31(origin, url, key) == origin + "/browse/" + key
    ensures var key := IssueKeyV31(url, domKey);
      (Capture(Browse, url).None? && Capture(ProjectIssues, url).None? && Capture(SelectedIssue, url).None?) ==>
        key == domKey && CleanUrlV31(origin, url, key) == (if domKey == "" then url else origin + "/browse/" + domKey)
  {
  }

  // ---------------------------------------------------------------------
  // Version 2.2 (CopyTicket_ext_2_2/background.js)

  predicate IsIssuePageV22(url: string) {
    url != "" && (Contains(url, "/browse/") || Contains(url, "selectedIssue="))
  }

  /** `selectedIssue=` is tried before `/browse/`: the reverse of 3.1. */
  function IssueKeyV22(url: string, domKey: string): string {
    match Capture(SelectedIssue, url)
    case Some(k) => k
    case None =>
      match Capture(Browse, url)
      case Some(k) => k
      case None => domKey
  }

  /** Always a `/browse/` link, even when the key is empty. */
  function CleanUrlV22(origin: string, key: string): string {
    origin + "/browse/" + key
  }

  /** Version 2.2 tries `selectedIssue=` first and `/browse/` second, and
      never the `/projects/X/issues/` pattern; only when neither matches is the
      key scraped from the page used. A key read from the URL is well formed,
      and it is the last segment of the clean URL. */
  lemma IssueKeyV22Spec(url: string, origin: string, domKey: string)
    ensures var key := IssueKeyV22(url, domKey);
      && (Capture(SelectedIssue, url).Some? ==> key == Capture(SelectedIssue, url).value)
      && (Capture(SelectedIssue, url).None? && Capture(Browse, url).Some? ==> key == Capture(Browse, url).value)
      && (Capture(SelectedIssue, url).None? && Capture(Browse, url).None? ==> key == domKey)
    ensures var key := IssueKeyV22(url, domKey);
      (Capture(SelectedIssue, url).Some? || Capture(Browse, url).Some?) ==>
        IsUrlKey(key) && LastSegment(CleanUrlV22(origin, key)) == key
  {
    var key := IssueKeyV22(url, domKey);
    if Capture(SelectedIssue, url).Some? || Capture(Browse, url).Some? {
      KeyHasNoSlash(key);
      LastSegmentAfterSlash(origin + "/browse", key);
      assert origin + "/browse" + "/" + key == origin + "/browse/" + key;
    }
  }

  /** Every URL a key pattern can read passes the guard of the versions that
      use that pattern, and the guards only widen from version to version:
      `/browse/` (1 and 2.1), then `selectedIssue=` (2.2), then `/issues/`
      (3.1). */
  lemma GuardsAdmitUrlKeys(url: string)
    ensures Capture(Browse, url).Some? ==> HasBrowsePath(url)
    ensures Capture(SelectedIssue, url).Some? ==> IsIssuePageV22(url)
    ensures Capture(ProjectIssues, url).Some? ==> IsIssuePageV31(url)
    ensures HasBrowsePath(url) ==> IsIssuePageV22(url)
    ensures IsIssuePageV22(url) ==> IsIssuePageV31(url)
  {
    if Capture(Browse, url).Some? {
      var i := FirstMatch(Browse, url, 0).value;
      assert OccursAt(url, "/browse/", i);
      OccursContains(url, "/browse/", i);
    }
    if Capture(SelectedIssue, url).Some? {
      var i := FirstMatch(SelectedIssue, url, 0).value;
      assert OccursAt(url, "selectedIssue=", i);
      OccursContains(url, "selectedIssue=", i);
    }
    if Capture(ProjectIssues, url).Some? {
      ProjectIssuesPassesGuard(url, FirstMatch(ProjectIssues, url, 0).value);
    }
  }

  lemma ProjectIssuesPassesGuard(url: string, i: nat)
    requires MatchesAt(ProjectIssues, url, i)
    ensures Contains(url, "/issues/")
  {
    var seg := SegmentRun(url[i + 10..]);
    assert OccursAt(url, "/issues/", i + 10 + |seg|);
    OccursContains(url, "/issues/", i + 10 + |seg|);
  }

  lemma OccursContains(s: string, p: string, i: nat)
    requires OccursAt(s, p, i)
    ensures Contains(s, p)
  {
  }

  /** A board URL that carries the key `a` after `/browse/` and the key `b`
      after `selectedIssue=`. */
  function BoardUrl(a: string, b: string): string {
    "/browse/" + a + "?selectedIssue=" + b
  }

  /** A key followed by the end of the string or by a character outside
      `[A-Z0-9-]` is exactly what the greedy key class takes. */
  lemma {:induction false} KeyRunOfKey(a: string, rest: string)
    requires forall j :: 0 <= j < |a| ==> IsKeyChar(a[j])
    requires rest == [] || !IsKeyChar(rest[0])
    ensures KeyRun(a + rest) == a
    decreases |a|
  {
    if a == [] {
      assert a + rest == rest;
    } else {
      assert (a + rest)[1..] == a[1..] + rest;
      KeyRunOfKey(a[1..], rest);
    }
  }

  /** Version 3.1 tries `/browse/` first and takes `a`. */
  lemma BoardKeyV31(a: string, b: string, domKey: string)
    requires IsUrlKey(a)
    ensures IssueKeyV31(BoardUrl(a, b), domKey) == a
  {
    var url := BoardUrl(a, b);
    var rest := "?selectedIssue=" + b;
    assert url == "/browse/" + (a + rest);
    assert url[..8] == "/browse/" && url[8..] == a + rest;
    assert MatchesAt(Browse, url, 0) by {
      assert url[8] == a[0];
    }
    assert FirstMatch(Browse, url, 0) == Some(0);
    KeyRunOfKey(a, rest);
  }

  /** An occurrence of `selectedIssue=` at `i` is the leftmost one when no `=`
      comes before its own: any earlier occurrence would end in an earlier `=`. */
  lemma LeftmostSelectedIssue(url: string, i: nat)
    requires i + 14 <= |url|
    requires forall j :: 0 <= j < i + 13 ==> url[j] != '='
    ensures forall k :: 0 <= k < i ==> !OccursAt(url, "selectedIssue=", k)
  {
    forall k | 0 <= k < i ensures !OccursAt(url, "selectedIssue=", k) {
      assert url[k..k + 14][13] == url[k + 13];
    }
  }

  /** Version 2.2 tries `selectedIssue=` first and takes `b`. */
  lemma BoardKeyV22(a: string, b: string, domKey: string)
    requires IsUrlKey(a) && IsUrlKey(b)
    ensures IssueKeyV22(BoardUrl(a, b), domKey) == b
  {
    var url := BoardUrl(a, b);
    var head := "/browse/" + a + "?selectedIssue";
    var i := |head| - 13;
    assert url == head + ("=" + b);
    assert MatchesAt(SelectedIssue, url, i) && url[i + 14..] == b + [] by {
      assert url[i..i + 14] == "selectedIssue=";
    }
    assert forall j :: 0 <= j < i + 13 ==> url[j] != '=' by {
      assert '=' !in "/browse/" && '=' !in "?selectedIssue";
      forall j | 0 <= j < |a| ensures a[j] != '=' {
        assert IsKeyChar(a[j]);
      }
      assert '=' !in head;
      forall j | 0 <= j < i + 13 ensures url[j] != '=' {
        assert url[j] == head[j];
      }
    }
    LeftmostSelectedIssue(url, i);
    assert FirstMatch(SelectedIssue, url, 0) == Some(i);
    KeyRunOfKey(b, []);
  }

  /** On a board URL the two versions extract different keys: 2.2 the
      `selectedIssue=` key and 3.1 the `/browse/` key. */
  lemma PatternOrderDiffers(a: string, b: string, domKey: string)
    requires IsUrlKey(a) && IsUrlKey(b)
    ensures IssueKeyV22(BoardUrl(a, b), domKey) == b
    ensures IssueKeyV31(BoardUrl(a, b), domKey) == a
  {
    BoardKeyV22(a, b, domKey);
    BoardKeyV31(a, b, domKey);
  }

  // ---------------------------------------------------------------------
  // Versions 1 and 2.1 (CopyTicket_ext/background.js, CopyTicket_ext_2_1/background.js)

  /** The guard of versions 1 and 2.1. */
  predicate HasBrowsePath(url: string) {
    url != "" && Contains(url, "/browse/")
  }

  /** `.` does not match these. */
  predicate IsLineTerminator(c: char) {
    c == '\n' || c == '\r' || c == '\U{2028}' || c == '\U{2029}'
  }

  /** The index of the first line terminator, or the length. */
  function LineEnd(s: string): (n: nat)
    ensures n <= |s|
    ensures forall k :: 0 <= k < n ==> !IsLineTerminator(s[k])
    ensures n < |s| ==> IsLineTerminator(s[n])
  {
    if s == [] || IsLineTerminator(s[0]) then 0 else 1 + LineEnd(s[1..])
  }

  /** The rightmost match at or before `i`. */
  function LastMatch(pat: Pattern, s: string, i: nat): (r: Option<nat>)
    requires i <= |s|
    decreases i
    ensures r.Some? ==> r.value <= i && MatchesAt(pat, s, r.value)
    ensures r.Some? ==> forall k :: r.value < k <= i ==> !MatchesAt(pat, s, k)
    ensures r.None? ==> forall k :: 0 <= k <= i ==> !MatchesAt(pat, s, k)
  {
    if MatchesAt(pat, s, i) then Some(i)
    else if i == 0 then None
    else LastMatch(pat, s, i - 1)
  }

  /** Group 1 of `url.match(/^(.*\/browse\/[A-Z0-9-]+)/)`. The greedy `.*`
      takes the longest line-terminator-free prefix that can still be followed
      by `/browse/` and a key character, so the match ends after the key at the
      last such `/browse/`. */
  function BrowsePrefix(url: string): (r: Option<string>)
    ensures r.Some? <==> exists i :: 0 <= i <= LineEnd(url) && MatchesAt(Browse, url, i)
    ensures r.Some? ==> StartsWith(url, r.value) && IsUrlKey(LastSegment(r.value))
    ensures r.Some? ==> |r.value| == |url| || !IsKeyChar(url[|r.value|])
  {
    match LastMatch(Browse, url, LineEnd(url))
    case Some(i) =>
      BrowseMatchShape(url, i);
      Some(url[..i] + "/browse/" + CaptureAt(Browse, url, i))
    case None => None
  }

  /** The clean URL of versions 1 and 2.1: the match above, else the text
      before the first `?`; either way a prefix of the tab URL. */
  function CleanUrlV21(url: string): (r: string)
    ensures StartsWith(url, r)
    ensures BrowsePrefix(url).Some? ==> |r| == |url| || !IsKeyChar(url[|r|])
  {
    match BrowsePrefix(url)
    case Some(c) => c
    case None => BeforeFirst(url, "?")
  }

  /** `cleanUrl.split('/').pop()`. */
  function KeyOfCleanUrl(cleanUrl: string): string {
    LastSegment(cleanUrl)
  }

  /** When the `/browse/` prefix matches, the clean URL is a prefix of the tab
      URL ending in `/browse/KEY` at the match `LastMatch` picks (the last
      usable `/browse/`), and the key
      taken as its last segment is exactly that captured key. */
  lemma CleanUrlV21Matched(url: string, i: nat)
    requires LastMatch(Browse, url, LineEnd(url)) == Some(i)
    ensures StartsWith(url, CleanUrlV21(url))
    ensures CleanUrlV21(url) == url[..i] + "/browse/" + KeyOfCleanUrl(CleanUrlV21(url))
    ensures IsUrlKey(KeyOfCleanUrl(CleanUrlV21(url)))
    ensures var c := CleanUrlV21(url); |c| == |url| || !IsKeyChar(url[|c|])
  {
    assert CleanUrlV21(url) == url[..i] + "/browse/" + CaptureAt(Browse, url, i);
    BrowseMatchShape(url, i);
  }

  /** The text up to and including the key of a `/browse/` match is a prefix
      of the URL whose last segment is that key. */
  lemma BrowseMatchShape(url: string, i: nat)
    requires MatchesAt(Browse, url, i)
    ensures var k := CaptureAt(Browse, url, i);
      StartsWith(url, url[..i] + "/browse/" + k) && LastSegment(url[..i] + "/browse/" + k) == k
  {
    var k := CaptureAt(Browse, url, i);
    KeyHasNoSlash(k);
    LastSegmentAfterSlash(url[..i] + "/browse", k);
    assert url[..i] + "/browse" + "/" + k == url[..i] + "/browse/" + k;
    PrefixThroughKey(url, i, k);
  }

  lemma KeyHasNoSlash(k: string)
    requires forall j :: 0 <= j < |k| ==> IsKeyChar(k[j])
    ensures '/' !in k
  {
    forall j | 0 <= j < |k| ensures k[j] != '/' { assert IsKeyChar(k[j]); }
  }

  lemma PrefixThroughKey(url: string, i: nat, k: string)
    requires OccursAt(url, "/browse/", i) && k == KeyRun(url[i + 8..])
    ensures StartsWith(url, url[..i] + "/browse/" + k)
  {
    var n := i + 8 + |k|;
    assert k == url[i + 8..n];
    assert url[..n] == url[..i] + url[i..i + 8] + url[i + 8..n];
  }

  /** Otherwise the clean URL is the URL cut at its first `?`. */
  lemma CleanUrlV21Unmatched(url: string)
    requires LastMatch(Browse, url, LineEnd(url)).None?
    ensures var c := CleanUrlV21(url);
      StartsWith(url, c) && '?' !in c && (c == url || url[|c|] == '?')
  {
    var c := BeforeFirst(url, "?");
    forall j | 0 <= j < |c| ensures c[j] != '?' {
      assert !OccursAt(url, "?", j);
      assert url[j..j + 1] == [c[j]];
    }
    if c != url {
      assert OccursAt(url, "?", |c|);
      assert url[|c|..|c| + 1] == "?";
    }
  }
}
