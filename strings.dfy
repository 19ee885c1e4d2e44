/** String helpers with the semantics of the JavaScript built-ins the extension
    calls on strings: `includes`, `split(sep)[0]`, `split('/').pop()`, `trim`
    and `Array.prototype.join`. */
module Strings {

  datatype Option<+T> = None | Some(value: T) {
    /** `x || fallback` for a value that is either present or undefined. */
    function GetOr(default: T): T {
      if Some? then value else default
    }
  }

  /** `p` occurs in `s` starting at index `i`. */
  predicate OccursAt(s: string, p: string, i: nat) {
    i + |p| <= |s| && s[i..i + |p|] == p
  }

  /** `s.startsWith(p)`. */
  predicate StartsWith(s: string, p: string) {
    OccursAt(s, p, 0)
  }

  /** `s.endsWith(p)`. */
  predicate EndsWith(s: string, p: string) {
    |p| <= |s| && OccursAt(s, p, |s| - |p|)
  }

  lemma PrefixOfConcat(a: string, b: string)
    ensures StartsWith(a + b, a)
  {
    assert (a + b)[..|a|] == a;
  }

  lemma SuffixOfConcat(a: string, b: string)
    ensures EndsWith(a + b, b)
  {
    assert (a + b)[|a|..] == b;
  }

  /** The leftmost occurrence of `p` in `s` at or after `i`. */
  function FindFrom(s: string, p: string, i: nat): (r: Option<nat>)
    requires i <= |s|
    decreases |s| - i
    ensures r.Some? ==> i <= r.value <= |s| && OccursAt(s, p, r.value)
    ensures r.Some? ==> forall k :: i <= k < r.value ==> !OccursAt(s, p, k)
    ensures r.None? ==> forall k :: i <= k <= |s| ==> !OccursAt(s, p, k)
  {
    if OccursAt(s, p, i) then Some(i)
    else if i == |s| then None
    else FindFrom(s, p, i + 1)
  }

  /** `s.includes(p)`. */
  function Contains(s: string, p: string): (b: bool)
    ensures b <==> exists k :: 0 <= k <= |s| && OccursAt(s, p, k)
  {
    FindFrom(s, p, 0).Some?
  }

  /** `s.split(sep)[0]`: the text before the first occurrence of `sep`, or all
      of `s` when `sep` does not occur. */
  function BeforeFirst(s: string, sep: string): (r: string)
    requires sep != ""
    ensures StartsWith(s, r)
    ensures forall k :: 0 <= k < |r| ==> !OccursAt(s, sep, k)
    ensures r == s || OccursAt(s, sep, |r|)
  {
    match FindFrom(s, sep, 0)
    case Some(i) => s[..i]
    case None => s
  }

  /** `s.split('/').pop()`: the text after the last `/`, or all of `s`. */
  function LastSegment(s: string): (r: string)
    ensures |r| <= |s| && r == s[|s| - |r|..]
    ensures '/' !in r
    ensures |r| < |s| ==> s[|s| - |r| - 1] == '/'
  {
    if s == [] || s[|s| - 1] == '/' then []
    else LastSegment(s[..|s| - 1]) + [s[|s| - 1]]
  }

  lemma {:induction false} LastSegmentAfterSlash(x: string, k: string)
    requires '/' !in k
    ensures LastSegment(x + "/" + k) == k
    decreases |k|
  {
    if k == [] {
      assert x + "/" + k == x + "/";
    } else {
      var s := x + "/" + k;
      assert s[..|s| - 1] == x + "/" + k[..|k| - 1];
      LastSegmentAfterSlash(x, k[..|k| - 1]);
      assert k == k[..|k| - 1] + [k[|k| - 1]];
    }
  }

  /** The characters JavaScript's `String.prototype.trim` removes: the
      WhiteSpace and LineTerminator code points of ECMAScript. */
  predicate IsJsSpace(c: char) {
    c == '\t' || c == '\n' || c == '\U{B}' || c == '\U{C}' || c == '\r' || c == ' '
    || c == '\U{A0}' || c == '\U{1680}' || ('\U{2000}' <= c <= '\U{200A}')
    || c == '\U{2028}' || c == '\U{2029}' || c == '\U{202F}' || c == '\U{205F}'
    || c == '\U{3000}' || c == '\U{FEFF}'
  }

  /** The index of the first character at or after `i` that is not white
      space, or the length. */
  function SpacesFrom(s: string, i: nat): (n: nat)
    requires i <= |s|
    ensures i <= n <= |s|
    ensures forall k :: i <= k < n ==> IsJsSpace(s[k])
    ensures n < |s| ==> !IsJsSpace(s[n])
    decreases |s| - i
  {
    if i < |s| && IsJsSpace(s[i]) then SpacesFrom(s, i + 1) else i
  }

  /** How many white-space characters `s` starts with. */
  function LeadingSpaces(s: string): (n: nat)
    ensures n <= |s|
    ensures forall k :: 0 <= k < n ==> IsJsSpace(s[k])
    ensures n < |s| ==> !IsJsSpace(s[n])
  {
    SpacesFrom(s, 0)
  }

  /** Where `s[lo..hi]` ends once its trailing white space is dropped. */
  function TrimmedEnd(s: string, lo: nat, hi: nat): (n: nat)
    requires lo <= hi <= |s|
    ensures lo <= n <= hi
    ensures forall k :: n <= k < hi ==> IsJsSpace(s[k])
    ensures n > lo ==> !IsJsSpace(s[n - 1])
    decreases hi
  {
    if hi > lo && IsJsSpace(s[hi - 1]) then TrimmedEnd(s, lo, hi - 1) else hi
  }

  /** `s.trim()`: the infix of `s` that starts after its leading white space
      and is followed only by white space; it neither starts nor ends with
      white space itself. */
  function Trim(s: string): (r: string)
    ensures r == [] || (!IsJsSpace(r[0]) && !IsJsSpace(r[|r| - 1]))
    ensures var a := LeadingSpaces(s);
      a + |r| <= |s| && r == s[a..a + |r|]
      && (forall k :: a + |r| <= k < |s| ==> IsJsSpace(s[k]))
  {
    var a := LeadingSpaces(s);
    s[a..TrimmedEnd(s, a, |s|)]
  }

  /** A string with no surrounding white space is its own trim. */
  lemma TrimIdempotent(s: string)
    ensures Trim(Trim(s)) == Trim(s)
  {
    var t := Trim(s);
    if t != [] {
      assert LeadingSpaces(t) == 0;
      assert TrimmedEnd(t, 0, |t|) == |t|;
      assert t[0..|t|] == t;
    }
  }

  /** `parts.join(sep)`: opens with the first part and closes with the last. */
  function Join(parts: seq<string>, sep: string): (r: string)
    ensures parts == [] ==> r == ""
    ensures |parts| > 0 ==> StartsWith(r, parts[0]) && EndsWith(r, parts[|parts| - 1])
    decreases |parts|
  {
    if |parts| == 0 then ""
    else if |parts| == 1 then parts[0]
    else
      var rest := Join(parts[1..], sep);
      PrefixOfConcat(parts[0], sep + rest);
      assert parts[0] + (sep + rest) == parts[0] + sep + rest;
      SuffixOfSuffix(parts[0] + sep, rest, parts[|parts| - 1]);
      parts[0] + sep + rest
  }

  lemma SuffixOfSuffix(x: string, y: string, p: string)
    requires EndsWith(y, p)
    ensures EndsWith(x + y, p)
  {
    assert (x + y)[|x + y| - |p|..] == y[|y| - |p|..];
  }

  /** Joining pieces that are all non-empty yields "" exactly when there are no
      pieces, whatever the separator. */
  lemma {:induction false} JoinEmptyIff(parts: seq<string>, sep: string)
    requires forall k :: 0 <= k < |parts| ==> parts[k] != ""
    ensures Join(parts, sep) == "" <==> parts == []
  {
    if |parts| >= 1 {
      assert |Join(parts, sep)| >= |parts[0]| > 0;
    }
  }

  lemma JoinTwo(a: string, b: string, sep: string)
    ensures Join([a, b], sep) == a + sep + b
  {
    assert [a, b][1..] == [b];
  }
}
