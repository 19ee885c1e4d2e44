/** The settings page of versions 2.1 and 3.1: the profile list kept in
    memory, the current and the default profile, the form controls, and the
    handlers that change them. Both versions share these handlers; version
    3.1 adds the rule list of each profile and applies it in the preview. */
module Settings {
  import opened Strings
  import opened RuleEngine
  import opened Formatter
  import opened Profiles
  import opened Background

  /** The nine form controls a profile is edited through. */
  datatype Form = Form(incId: bool, incName: bool, incUrl: bool, isClickable: bool,
                       sep: string, prefix: string, suffix: string,
                       urlPrefix: string, urlSuffix: string)

  /** What `loadProfile` writes into the controls. */
  function FormOf(p: Profile): Form {
    Form(p.incId, p.incName, p.incUrl, p.isClickable, p.sep, p.prefix, p.suffix, p.urlPrefix, p.urlSuffix)
  }

  /** What the save handler copies from the controls into a profile: the
      form fields only, never the id, the name or the rules. */
  function SaveInto(p: Profile, f: Form): (q: Profile)
    ensures q.id == p.id && q.name == p.name && q.replacements == p.replacements
    ensures FormOf(q) == f
    ensures f == FormOf(p) ==> q == p
  {
    p.(incId := f.incId, incName := f.incName, incUrl := f.incUrl, isClickable := f.isClickable,
       sep := f.sep, prefix := f.prefix, suffix := f.suffix, urlPrefix := f.urlPrefix, urlSuffix := f.urlSuffix)
  }

  /** The "add replacement" button: a blank rule after the existing ones. */
  function AppendBlankRule(p: Profile): (q: Profile)
    ensures |RulesOf(q)| == |RulesOf(p)| + 1
    ensures RulesOf(q)[..|RulesOf(p)|] == RulesOf(p) && RulesOf(q)[|RulesOf(p)|] == BlankRule
    ensures q.(replacements := p.replacements) == p
  {
    p.(replacements := Some(RulesOf(p) + [BlankRule]))
  }

  /** `x || fallback` for a stored id: undefined and 0 are falsy. */
  predicate Truthy(d: Option<int>) {
    d.Some? && d.value != 0
  }

  /** A stored state that the page loads into a healthy editor: a non-empty
      list of distinct ids, and a stored default that, when it is used at all,
      names one of them. */
  predicate LoadsHealthy(stored: Storage, template: Profile) {
    var ps := stored.profiles.GetOr([template]);
    ps != [] && UniqueIds(ps) && (Truthy(stored.defaultId) ==> HasId(ps, stored.defaultId.value))
  }

  /** A fresh install (nothing stored) and a freshly seeded store both load
      healthy. */
  lemma SeededStoreLoadsHealthy(s: Storage, template: Profile)
    requires s.profiles.None? || s.profiles == Some([])
    ensures LoadsHealthy(Storage(None, None), template)
    ensures LoadsHealthy(Seed(s, template), template)
  {
    assert [template][0].id == template.id;
  }

  datatype DeleteOutcome =
    | Refused   // at most one profile: the "Must keep one profile." alert
    | Deleted
    | Failed    // the filter left nothing while the default was deleted: `allProfiles[0].id` throws

  /** The sample key, summary and URL of the preview. */
  const SampleFields := Fields("PROJ-123", "Example Issue Summary",
                               "https://your-domain.atlassian.net/browse/PROJ-123")

  /** The preview text from the controls and the (rewritten) sample fields:
      key and summary are pushed whenever their boxes are checked, even when
      a rule emptied them. */
  function PreviewText(f: Form, t: Fields): (r: string)
    ensures var textPart := if f.incId && f.incName then t.id + f.sep + t.name
                            else if f.incId then t.id
                            else if f.incName then t.name
                            else "";
      r == Bracket(textPart, f.prefix, f.suffix) + UrlBlock(f.incUrl, f.urlPrefix, t.url, f.urlSuffix)
  {
    PushedTextPart(f.incId, t.id, f.incName, t.name, f.sep);
    PlainText(Join(PushedInfo(f.incId, t.id, f.incName, t.name), f.sep),
              f.prefix, f.suffix, f.incUrl, f.urlPrefix, t.url, f.urlSuffix)
  }

  /** When the rules leave key and summary non-empty, the 3.1 preview of a
      profile's own settings is exactly the plain text the background would
      copy for the sample fields. */
  lemma PreviewMatchesCopy(e: Engine, p: Profile, t: Fields)
    requires ApplyRules(e, RulesOf(p), SampleFields) == Some(t)
    requires t.id != "" && t.name != ""
    ensures RenderV31(e, p, SampleFields) == Some(Clipboard(PreviewText(FormOf(p), t), Html(p.isClickable, SampleFields.url,
              Join(PushedInfo(p.incId, t.id, p.incName, t.name), p.sep), SampleFields.id)))
  {
    assert FilteredInfo(p.incId, t.id, p.incName, t.name) == PushedInfo(p.incId, t.id, p.incName, t.name);
  }

  /** Where a rule empties the key, the preview still pushes it (so its text
      part starts with the separator) while the copy leaves it out. */
  lemma PreviewKeepsEmptiedKey(f: Form, t: Fields)
    requires f.incId && f.incName && t.id == "" && t.name != ""
    ensures Join(PushedInfo(f.incId, t.id, f.incName, t.name), f.sep) == f.sep + t.name
    ensures Join(FilteredInfo(f.incId, t.id, f.incName, t.name), f.sep) == t.name
  {
    PushedTextPart(f.incId, t.id, f.incName, t.name, f.sep);
    FilteredTextPart(f.incId, t.id, f.incName, t.name, f.sep);
    assert "" + f.sep + t.name == f.sep + t.name;
  }

  /** The 2.1 preview (the sample fields, no rules) is empty exactly when
      key, summary and URL are all switched off. */
  lemma PreviewV2EmptyIff(f: Form)
    ensures PreviewText(f, SampleFields) == "" <==> !f.incId && !f.incName && !f.incUrl
  {
    var info := PushedInfo(f.incId, SampleFields.id, f.incName, SampleFields.name);
    assert forall k :: 0 <= k < |info| ==> info[k] != "";
    JoinEmptyIff(info, f.sep);
    assert f.incUrl ==> |UrlBlock(f.incUrl, f.urlPrefix, SampleFields.url, f.urlSuffix)| > 0;
  }

  class Editor {
    /** `INITIAL_PROFILE` of the page's version. */
    const template: Profile
    /** `allProfiles`, `currentProfileId`, `globalDefaultId`. */
    var profiles: seq<Profile>
    var currentId: Option<int>
    var defaultId: Option<int>
    /** The form controls and the name box. */
    var form: Form
    var nameBox: string

    /** The state the handlers keep: a non-empty list of distinct ids, and a
        default and a current profile that both exist. */
    ghost predicate Healthy()
      reads this
    {
      profiles != [] && UniqueIds(profiles)
      && defaultId.Some? && HasId(profiles, defaultId.value)
      && currentId.Some? && HasId(profiles, currentId.value)
    }

    /** Profile `i` is the current one and the controls show it. */
    ghost predicate Shows(i: nat)
      reads this
    {
      i < |profiles| && currentId == Some(profiles[i].id)
      && form == FormOf(profiles[i]) && nameBox == profiles[i].name
    }

    /** The page before storage has answered. */
    constructor (template: Profile, initialForm: Form)
      ensures this.template == template && form == initialForm
      ensures profiles == [] && currentId == None && defaultId == None && nameBox == ""
    {
      this.template := template;
      profiles := [];
      currentId := None;
      defaultId := None;
      form := initialForm;
      nameBox := "";
    }

    /** `loadProfile(id)`: nothing happens for an id no profile has;
        otherwise that profile becomes current and fills the controls. */
    method LoadProfile(id: Option<int>)
      modifies this
      ensures profiles == old(profiles) && defaultId == old(defaultId)
      ensures FindIndex(profiles, id).None? ==>
        currentId == old(currentId) && form == old(form) && nameBox == old(nameBox)
      ensures FindIndex(profiles, id).Some? ==> Shows(FindIndex(profiles, id).value) && currentId == id
      ensures old(Healthy()) ==> Healthy()
    {
      match FindIndex(profiles, id) {
        case None =>
        case Some(i) =>
          var p := profiles[i];
          currentId := Some(p.id);
          form := FormOf(p);
          nameBox := p.name;
      }
    }

    /** The storage callback at page load: the stored list, else the
        template alone; the stored default when truthy, else the first id (a
        stored default nobody has is kept); then `loadProfile` of the default.
        Fails (ok false) when the stored list is empty and no truthy default is
        stored: `allProfiles[0].id` throws after the list was assigned. */
    method Load(stored: Storage) returns (ok: bool)
      modifies this
      ensures profiles == stored.profiles.GetOr([template])
      ensures ok <==> profiles != [] || Truthy(stored.defaultId)
      ensures !ok ==> defaultId == old(defaultId) && currentId == old(currentId)
                      && form == old(form) && nameBox == old(nameBox)
      ensures ok ==> defaultId == if Truthy(stored.defaultId) then stored.defaultId else Some(profiles[0].id)
      ensures ok && FindIndex(profiles, defaultId).None? ==>
        currentId == old(currentId) && form == old(form) && nameBox == old(nameBox)
      ensures ok && FindIndex(profiles, defaultId).Some? ==> Shows(FindIndex(profiles, defaultId).value)
      ensures LoadsHealthy(stored, template) ==> ok && Healthy()
    {
      profiles := stored.profiles.GetOr([template]);
      if Truthy(stored.defaultId) {
        defaultId := stored.defaultId;
      } else if profiles == [] {
        return false;
      } else {
        defaultId := Some(profiles[0].id);
      }
      LoadProfile(defaultId);
      ok := true;
    }

    /** Typing in the controls. */
    method Edit(f: Form)
      modifies this
      ensures form == f
      ensures profiles == old(profiles) && currentId == old(currentId)
              && defaultId == old(defaultId) && nameBox == old(nameBox)
      ensures old(Healthy()) ==> Healthy()
    {
      form := f;
    }

    /** Typing in the name box renames the current profile at once (when
        there is one). */
    method Rename(v: string)
      modifies this
      ensures nameBox == v
      ensures currentId == old(currentId) && defaultId == old(defaultId) && form == old(form)
      ensures var i := FindIndex(old(profiles), currentId);
        profiles == if i.Some? then old(profiles)[i.value := old(profiles)[i.value].(name := v)]
                    else old(profiles)
      ensures old(Healthy()) ==> Healthy()
    {
      nameBox := v;
      var i := FindIndex(profiles, currentId);
      if i.Some? {
        var was := profiles;
        profiles := profiles[i.value := profiles[i.value].(name := v)];
        SameIdsKeepIds(was, profiles);
      }
    }

    /** The save button: the controls are copied into the current profile;
        no id changes. Without a current profile the handler throws before
        any change. */
    method Save()
      modifies this
      ensures currentId == old(currentId) && defaultId == old(defaultId)
              && form == old(form) && nameBox == old(nameBox)
      ensures var i := FindIndex(old(profiles), currentId);
        profiles == if i.Some? then old(profiles)[i.value := SaveInto(old(profiles)[i.value], form)]
                    else old(profiles)
      ensures SameIds(old(profiles), profiles)
      ensures old(Healthy()) ==> Healthy()
    {
      var i := FindIndex(profiles, currentId);
      if i.Some? {
        var was := profiles;
        profiles := profiles[i.value := SaveInto(profiles[i.value], form)];
        SameIdsKeepIds(was, profiles);
      }
    }

    /** The add button with `newId` standing for `Date.now()`: a copy of the
        template named "New Profile" is appended and shown. */
    method Add(newId: int)
      requires !HasId(profiles, newId)
      modifies this
      ensures profiles == old(profiles) + [template.(id := newId, name := "New Profile")]
      ensures defaultId == old(defaultId)
      ensures currentId == Some(newId) && Shows(|profiles| - 1)
      ensures old(Healthy()) ==> Healthy()
    {
      var was := profiles;
      profiles := profiles + [template.(id := newId, name := "New Profile")];
      forall k | 0 <= k < |was| ensures profiles[k].id != newId {
        assert profiles[k] == was[k];
      }
      assert profiles[|was|].id == newId;
      assert UniqueIds(was) ==> UniqueIds(profiles);
      assert forall x :: HasId(was, x) ==> HasId(profiles, x) by {
        forall x | HasId(was, x) ensures HasId(profiles, x) {
          var k :| 0 <= k < |was| && was[k].id == x;
          assert profiles[k] == was[k];
        }
      }
      LoadProfile(Some(newId));
    }

    /** The "add replacement" button (version 3.1). */
    method AddRule()
      modifies this
      ensures currentId == old(currentId) && defaultId == old(defaultId)
              && form == old(form) && nameBox == old(nameBox)
      ensures var i := FindIndex(old(profiles), currentId);
        profiles == if i.Some? then old(profiles)[i.value := AppendBlankRule(old(profiles)[i.value])]
                    else old(profiles)
      ensures old(Healthy()) ==> Healthy()
    {
      var i := FindIndex(profiles, currentId);
      if i.Some? {
        var was := profiles;
        profiles := profiles[i.value := AppendBlankRule(profiles[i.value])];
        SameIdsKeepIds(was, profiles);
      }
    }

    /** `updateReplacementsData` (version 3.1): the rule rows as they now
        stand become the current profile's rules. */
    method UpdateRules(rows: seq<Rule>)
      modifies this
      ensures currentId == old(currentId) && defaultId == old(defaultId)
              && form == old(form) && nameBox == old(nameBox)
      ensures var i := FindIndex(old(profiles), currentId);
        profiles == if i.Some? then old(profiles)[i.value := old(profiles)[i.value].(replacements := Some(rows))]
                    else old(profiles)
      ensures old(Healthy()) ==> Healthy()
    {
      var i := FindIndex(profiles, currentId);
      if i.Some? {
        var was := profiles;
        profiles := profiles[i.value := profiles[i.value].(replacements := Some(rows))];
        SameIdsKeepIds(was, profiles);
      }
    }

    /** The delete button of rule row `k`: the row goes and the remaining
        rows are written back. */
    method RemoveRule(k: nat)
      modifies this
      ensures currentId == old(currentId) && defaultId == old(defaultId)
              && form == old(form) && nameBox == old(nameBox)
      ensures var i := FindIndex(old(profiles), currentId);
        var rules := if i.Some? then RulesOf(old(profiles)[i.value]) else [];
        profiles == if i.Some? && k < |rules|
                    then old(profiles)[i.value := old(profiles)[i.value].(replacements := Some(rules[..k] + rules[k + 1..]))]
                    else old(profiles)
      ensures old(Healthy()) ==> Healthy()
    {
      var i := FindIndex(profiles, currentId);
      if i.Some? && k < |RulesOf(profiles[i.value])| {
        var rules := RulesOf(profiles[i.value]);
        UpdateRules(rules[..k] + rules[k + 1..]);
      }
    }

    /** The "Set as Active" button. */
    method MakeDefault()
      modifies this
      ensures defaultId == old(currentId)
      ensures profiles == old(profiles) && currentId == old(currentId)
              && form == old(form) && nameBox == old(nameBox)
      ensures old(Healthy()) ==> Healthy()
    {
      defaultId := currentId;
    }

    /** The delete button: refused while at most one profile exists;
        otherwise every profile with the current id is filtered out, the
        default moves to the first remaining profile when it was the deleted
        one, and the default is shown. */
    method Delete() returns (outcome: DeleteOutcome)
      modifies this
      ensures outcome == Refused <==> |old(profiles)| <= 1
      ensures outcome == Refused ==>
        profiles == old(profiles) && defaultId == old(defaultId) && currentId == old(currentId)
        && form == old(form) && nameBox == old(nameBox)
      ensures outcome != Refused ==> profiles == Without(old(profiles), old(currentId))
      ensures outcome == Failed <==> outcome != Refused && profiles == [] && old(defaultId) == old(currentId)
      ensures outcome == Failed ==>
        defaultId == old(defaultId) && currentId == old(currentId) && form == old(form) && nameBox == old(nameBox)
      ensures outcome == Deleted ==>
        defaultId == if old(defaultId) == old(currentId) then Some(profiles[0].id) else old(defaultId)
      ensures outcome == Deleted && FindIndex(profiles, defaultId).None? ==>
        currentId == old(currentId) && form == old(form) && nameBox == old(nameBox)
      ensures outcome == Deleted && FindIndex(profiles, defaultId).Some? ==>
        Shows(FindIndex(profiles, defaultId).value)
      ensures old(Healthy()) && |old(profiles)| > 1 ==>
        outcome == Deleted && |profiles| == |old(profiles)| - 1
      ensures old(Healthy()) ==> Healthy()
    {
      if |profiles| <= 1 {
        return Refused;
      }
      ghost var wasHealthy := Healthy();
      ghost var was := profiles;
      profiles := Without(profiles, currentId);
      if wasHealthy {
        WithoutPresentUnique(was, currentId.value);
        WithoutKeepsUnique(was, currentId);
        WithoutHasId(was, currentId, defaultId.value);
      }
      if defaultId == currentId {
        if profiles == [] {
          return Failed;
        }
        defaultId := Some(profiles[0].id);
        assert HasId(profiles, profiles[0].id);
      }
      LoadProfile(defaultId);
      outcome := Deleted;
    }

    /** `updatePreview` of version 3.1, as a value: None when no profile is
        current (the preview is left as it was) or when one of its rules has
        a malformed pattern (the handler throws). */
    function Preview(e: Engine): (r: Option<string>)
      reads this
      ensures r.Some? ==> FindIndex(profiles, currentId).Some?
      ensures r.Some? ==> forall rule :: rule in RulesOf(profiles[FindIndex(profiles, currentId).value]) ==> Compiles(e, rule)
      ensures (FindIndex(profiles, currentId).Some? &&
               forall rule :: rule in RulesOf(profiles[FindIndex(profiles, currentId).value]) ==> Compiles(e, rule))
              ==> r.Some?
      ensures r.Some? ==>
        var rules := RulesOf(profiles[FindIndex(profiles, currentId).value]);
        ApplyRules(e, rules, SampleFields).Some? && r.value == PreviewText(form, ApplyRules(e, rules, SampleFields).value)
    {
      match FindIndex(profiles, currentId)
      case None => None
      case Some(i) =>
        ApplyRulesCharacterization(e, RulesOf(profiles[i]), SampleFields);
        match ApplyRules(e, RulesOf(profiles[i]), SampleFields)
        case None => None
        case Some(t) => Some(PreviewText(form, t))
    }

    /** `updatePreview` of version 3.1 step by step: the rules loop on the
        sample fields, then `info` built by push. */
    method UpdatePreview(e: Engine) returns (text: Option<string>)
      ensures text == Preview(e)
    {
      var i := FindIndex(profiles, currentId);
      if i.None? {
        return None;
      }
      var t := Transform(e, RulesOf(profiles[i.value]), SampleFields);
      if t.None? {
        return None;
      }
      var info: seq<string> := [];
      if form.incId {
        info := info + [t.value.id];
      }
      if form.incName {
        info := info + [t.value.name];
      }
      text := Some(PlainText(Join(info, form.sep), form.prefix, form.suffix,
                             form.incUrl, form.urlPrefix, t.value.url, form.urlSuffix));
    }

    /** `updatePreview` of version 2.1: the sample fields as they are. */
    function PreviewV2(): (r: Option<string>)
      reads this
      ensures r.Some? <==> FindIndex(profiles, currentId).Some?
      ensures r.Some? ==> (r.value == "" <==> !form.incId && !form.incName && !form.incUrl)
      ensures r.Some? ==> r.value == PreviewText(form, SampleFields)
    {
      PreviewV2EmptyIff(form);
      if FindIndex(profiles, currentId).None? then None else Some(PreviewText(form, SampleFields))
    }
  }
}
