/** The find/replace rule engine of version 3.1: a profile's ordered rules,
    each aimed at the issue key (`id`), the summary (`name`) or the URL (`url`),
    applied one after another to the three scraped fields. */
module RuleEngine {
  import opened Strings

  datatype Rule = Rule(find: string, replace: string, target: string)

  /** The three values the rules rewrite: issue key, summary and clean URL. */
  datatype Fields = Fields(id: string, name: string, url: string)

  /** What the model needs from JavaScript's regular expressions:
      `compiles(find)` is false when `new RegExp(find, 'g')` throws, and
      `replaceAll(subject, find, replacement)` is
      `subject.replace(new RegExp(find, 'g'), replacement)`. */
  datatype Engine = Engine(compiles: string -> bool, replaceAll: (string, string, string) -> string)

  /** The placeholder row that "add replacement" appends. */
  const BlankRule := Rule("", "", "id")

  /** A rule does not abort the formatting: it is a disabled placeholder or its
      pattern compiles. */
  predicate Compiles(e: Engine, rule: Rule) {
    rule.find == "" || e.compiles(rule.find)
  }

  /** One iteration of the `replacements.forEach` body; None when building the
      regular expression throws. The pattern is compiled before the target is
      looked at, so a malformed pattern aborts even under an unknown target. */
  function ApplyRule(e: Engine, rule: Rule, f: Fields): (r: Option<Fields>)
    ensures r.None? <==> !Compiles(e, rule)
    ensures rule.find == "" ==> r == Some(f)
    ensures r.Some? && rule.target != "id" ==> r.value.id == f.id
    ensures r.Some? && rule.target != "name" ==> r.value.name == f.name
    ensures r.Some? && rule.target != "url" ==> r.value.url == f.url
  {
    if rule.find == "" then Some(f)
    else if !e.compiles(rule.find) then None
    else
      var rewrite := (s: string, t: string) =>
        if rule.target == t then e.replaceAll(s, rule.find, rule.replace) else s;
      Some(Fields(rewrite(f.id, "id"), rewrite(f.name, "name"), rewrite(f.url, "url")))
  }

  /** The whole `forEach`: rules in list order, each seeing the output of the
      ones before it; the first malformed pattern aborts. */
  function ApplyRules(e: Engine, rules: seq<Rule>, f: Fields): (r: Option<Fields>)
    ensures r.None? <==> exists rule :: rule in rules && !Compiles(e, rule)
    decreases |rules|
  {
    if rules == [] then Some(f)
    else
      assert forall rule :: rule in rules <==> rule == rules[0] || rule in rules[1..];
      match ApplyRule(e, rules[0], f)
      case None => None
      case Some(g) => ApplyRules(e, rules[1..], g)
  }

  /** An independent reference definition: a single field rewritten by only
      the enabled rules aimed at it, in order. */
  function FieldFold(e: Engine, rules: seq<Rule>, target: string, s: string): string
    decreases |rules|
  {
    if rules == [] then s
    else
      var r := rules[0];
      var s' := if r.find != "" && r.target == target then e.replaceAll(s, r.find, r.replace) else s;
      FieldFold(e, rules[1..], target, s')
  }

  /** The rules abort exactly when one of them has a malformed pattern;
      otherwise each output field is its own fold over the rules aimed at it, so
      no field ever reads another one. */
  lemma {:induction false} ApplyRulesCharacterization(e: Engine, rules: seq<Rule>, f: Fields)
    ensures ApplyRules(e, rules, f) ==
      if forall r :: r in rules ==> Compiles(e, r) then
        Some(Fields(FieldFold(e, rules, "id", f.id), FieldFold(e, rules, "name", f.name),
                    FieldFold(e, rules, "url", f.url)))
      else None
    decreases |rules|
  {
    if rules != [] {
      assert forall r :: r in rules <==> r == rules[0] || r in rules[1..];
      match ApplyRule(e, rules[0], f)
      case None =>
      case Some(g) => ApplyRulesCharacterization(e, rules[1..], g);
    }
  }

  /** With no rules, or only disabled placeholder rows, the fields come out as
      they went in. */
  lemma {:induction false} DisabledRulesChangeNothing(e: Engine, rules: seq<Rule>, f: Fields)
    requires forall r :: r in rules ==> r.find == ""
    ensures ApplyRules(e, rules, f) == Some(f)
    decreases |rules|
  {
    if rules != [] {
      assert rules[0] in rules;
      DisabledRulesChangeNothing(e, rules[1..], f);
    }
  }

  /** The rules are a left fold: running `a + b` is running `a`, then `b` on
      what `a` produced. */
  lemma {:induction false} ApplyRulesAppend(e: Engine, a: seq<Rule>, b: seq<Rule>, f: Fields)
    ensures ApplyRules(e, a + b, f) ==
      match ApplyRules(e, a, f)
      case None => None
      case Some(g) => ApplyRules(e, b, g)
    decreases |a|
  {
    if a == [] {
      assert a + b == b;
    } else {
      assert (a + b)[0] == a[0] && (a + b)[1..] == a[1..] + b;
      match ApplyRule(e, a[0], f)
      case None =>
      case Some(g) => ApplyRulesAppend(e, a[1..], b, g);
    }
  }

  /** The imperative `forEach` loop of the background script and of the
      settings preview: three variables reassigned rule by rule. */
  method Transform(e: Engine, rules: seq<Rule>, raw: Fields) returns (out: Option<Fields>)
    ensures out == ApplyRules(e, rules, raw)
  {
    var id, name, url := raw.id, raw.name, raw.url;
    var i := 0;
    while i < |rules|
      invariant 0 <= i <= |rules|
      invariant ApplyRules(e, rules, raw) == ApplyRules(e, rules[i..], Fields(id, name, url))
    {
      var rule := rules[i];
      assert rules[i..][1..] == rules[i + 1..];
      if rule.find != "" {
        if !e.compiles(rule.find) {
          return None;
        }
        if rule.target == "id" { id := e.replaceAll(id, rule.find, rule.replace); }
        if rule.target == "name" { name := e.replaceAll(name, rule.find, rule.replace); }
        if rule.target == "url" { url := e.replaceAll(url, rule.find, rule.replace); }
      }
      i := i + 1;
    }
    return Some(Fields(id, name, url));
  }

  // ---------------------------------------------------------------------
  // The literal fragment of regular expressions

  /** Characters that have a meaning in a JavaScript regular expression. */
  predicate IsRegexMeta(c: char) {
    c in "\\^$.*+?()[]{}|"
  }

  /** A non-empty pattern without metacharacters matches itself literally (and
      always compiles). */
  predicate IsLiteralPattern(p: string) {
    p != "" && forall k :: 0 <= k < |p| ==> !IsRegexMeta(p[k])
  }

  /** A replacement without `$` is inserted verbatim (no `$&`, `$1`, ...). */
  predicate IsPlainReplacement(r: string) {
    forall k :: 0 <= k < |r| ==> r[k] != '$'
  }

  /** Global replacement of a literal: occurrences found left to right, not
      overlapping, each replaced by `rep`. */
  function ReplaceLiteral(s: string, find: string, rep: string): string
    requires find != ""
    decreases |s|
  {
    if |s| < |find| then s
    else if s[..|find|] == find then rep + ReplaceLiteral(s[|find|..], find, rep)
    else [s[0]] + ReplaceLiteral(s[1..], find, rep)
  }

  /** An engine that behaves like JavaScript on literal patterns and plain
      replacements. */
  ghost predicate AgreesOnLiterals(e: Engine) {
    (forall p :: IsLiteralPattern(p) ==> e.compiles(p))
    && (forall s, p, r :: IsLiteralPattern(p) && IsPlainReplacement(r) ==>
          e.replaceAll(s, p, r) == ReplaceLiteral(s, p, r))
  }

  /** Nothing is replaced where the pattern does not occur. */
  lemma {:induction false} ReplaceLiteralAbsent(s: string, find: string, rep: string)
    requires find != "" && !Contains(s, find)
    ensures ReplaceLiteral(s, find, rep) == s
    decreases |s|
  {
    if |s| >= |find| {
      assert !OccursAt(s, find, 0);
      assert !Contains(s[1..], find) by {
        forall k | 0 <= k <= |s[1..]| ensures !OccursAt(s[1..], find, k) {
          assert !OccursAt(s, find, k + 1);
          if k + |find| <= |s[1..]| {
            assert s[1..][k..k + |find|] == s[k + 1..k + 1 + |find|];
          }
        }
      }
      ReplaceLiteralAbsent(s[1..], find, rep);
    }
  }

  /** On an engine that agrees with JavaScript on literals, a literal rule
      aimed at `id` always compiles and rewrites the key by literal
      replacement, leaving summary and URL alone. */
  lemma LiteralRuleOnId(e: Engine, find: string, rep: string, f: Fields)
    requires AgreesOnLiterals(e) && IsLiteralPattern(find) && IsPlainReplacement(rep)
    ensures ApplyRules(e, [Rule(find, rep, "id")], f) == Some(f.(id := ReplaceLiteral(f.id, find, rep)))
  {
    var rule := Rule(find, rep, "id");
    assert e.compiles(find);
    assert e.replaceAll(f.id, find, rep) == ReplaceLiteral(f.id, find, rep);
    assert ApplyRule(e, rule, f) == Some(f.(id := ReplaceLiteral(f.id, find, rep)));
    assert [rule][1..] == [];
  }
}
