/** Profiles, the built-in templates, the persisted collection and the pure
    operations on it that the background scripts and the settings page share:
    lookup by id, filtering out an id, install-time seeding and the resolution
    of the profile a copy uses. */
module Profiles {
  import opened Strings
  import opened RuleEngine

  /** `replacements` is None where the stored object has no such field (every
      profile written by the 2.x versions). */
  datatype Profile = Profile(
    id: int, name: string,
    incId: bool, incName: bool, incUrl: bool, isClickable: bool,
    sep: string, prefix: string, suffix: string, urlPrefix: string, urlSuffix: string,
    replacements: Option<seq<Rule>>)

  /** `INITIAL_PROFILE` of version 3.1. */
  const InitialProfileV3 := Profile(1000, "Standard", true, true, true, true,
                                    " | ", "[", "]", "(", ")", Some([]))

  /** `INITIAL_PROFILE` of versions 2.1 and 2.2: no `replacements` field. */
  const InitialProfileV2 := Profile(1000, "Standard", true, true, true, true,
                                    " | ", "[", "]", "(", ")", None)

  /** The rules a profile applies: `p.replacements && Array.isArray(...)`. */
  function RulesOf(p: Profile): seq<Rule> {
    p.replacements.GetOr([])
  }

  /** What `chrome.storage.sync` holds under `profiles` and `defaultProfileId`;
      None for a key that was never written. */
  datatype Storage = Storage(profiles: Option<seq<Profile>>, defaultId: Option<int>)

  predicate HasId(ps: seq<Profile>, id: int) {
    exists k :: 0 <= k < |ps| && ps[k].id == id
  }

  predicate UniqueIds(ps: seq<Profile>) {
    forall j, k :: 0 <= j < k < |ps| ==> ps[j].id != ps[k].id
  }

  /** `ps.findIndex(p => p.id == id)`; an absent id (`null`) matches nothing. */
  function FindIndex(ps: seq<Profile>, id: Option<int>): (r: Option<nat>)
    ensures r.Some? ==> r.value < |ps| && Some(ps[r.value].id) == id
    ensures r.Some? ==> forall k :: 0 <= k < r.value ==> Some(ps[k].id) != id
    ensures r.None? <==> (id.None? || !HasId(ps, id.value))
    decreases |ps|
  {
    if ps == [] then None
    else if Some(ps[0].id) == id then Some(0)
    else match FindIndex(ps[1..], id)
      case None => None
      case Some(k) => Some(k + 1)
  }

  /** `ps.filter(p => p.id != id)`. */
  function Without(ps: seq<Profile>, id: Option<int>): (r: seq<Profile>)
    ensures |r| <= |ps|
    ensures forall p :: p in r <==> p in ps && Some(p.id) != id
    decreases |ps|
  {
    if ps == [] then []
    else if Some(ps[0].id) == id then Without(ps[1..], id)
    else [ps[0]] + Without(ps[1..], id)
  }

  /** The filter keeps the survivors in their original order: it distributes
      over concatenation. */
  lemma {:induction false} WithoutConcat(a: seq<Profile>, b: seq<Profile>, id: Option<int>)
    ensures Without(a + b, id) == Without(a, id) + Without(b, id)
    decreases |a|
  {
    if a == [] {
      assert a + b == b;
    } else {
      assert (a + b)[0] == a[0] && (a + b)[1..] == a[1..] + b;
      WithoutConcat(a[1..], b, id);
    }
  }

  /** With unique ids, filtering out an id that is present removes exactly one
      profile. */
  lemma {:induction false} WithoutPresentUnique(ps: seq<Profile>, id: int)
    requires UniqueIds(ps) && HasId(ps, id)
    ensures |Without(ps, Some(id))| == |ps| - 1
    decreases |ps|
  {
    if ps[0].id == id {
      assert !HasId(ps[1..], id) by {
        forall k | 0 <= k < |ps[1..]| ensures ps[1..][k].id != id {
          assert ps[1..][k] == ps[k + 1];
        }
      }
      WithoutAbsent(ps[1..], id);
    } else {
      var k :| 0 <= k < |ps| && ps[k].id == id;
      assert ps[1..][k - 1].id == id;
      WithoutPresentUnique(ps[1..], id);
    }
  }

  /** Filtering out an id nobody has changes nothing. */
  lemma {:induction false} WithoutAbsent(ps: seq<Profile>, id: int)
    requires !HasId(ps, id)
    ensures Without(ps, Some(id)) == ps
    decreases |ps|
  {
    if ps != [] {
      assert ps[0].id != id;
      assert !HasId(ps[1..], id) by {
        forall k | 0 <= k < |ps[1..]| ensures ps[1..][k].id != id {
          assert ps[1..][k] == ps[k + 1];
        }
      }
      WithoutAbsent(ps[1..], id);
      assert ps == [ps[0]] + ps[1..];
    }
  }

  /** The ids left after filtering are the old ones minus the filtered id. */
  lemma WithoutHasId(ps: seq<Profile>, id: Option<int>, x: int)
    ensures HasId(Without(ps, id), x) <==> HasId(ps, x) && Some(x) != id
  {
    var r := Without(ps, id);
    if HasId(r, x) {
      var k :| 0 <= k < |r| && r[k].id == x;
      assert r[k] in r;
    }
    if HasId(ps, x) && Some(x) != id {
      var k :| 0 <= k < |ps| && ps[k].id == x;
      assert ps[k] in ps;
      assert ps[k] in r;
    }
  }

  /** Two lists holding the same ids at the same positions (what an edit of
      one profile's other fields leaves behind). */
  predicate SameIds(ps: seq<Profile>, qs: seq<Profile>) {
    |ps| == |qs| && forall k :: 0 <= k < |ps| ==> ps[k].id == qs[k].id
  }

  /** Lists with the same ids agree on which ids exist and on their
      uniqueness. */
  lemma SameIdsKeepIds(ps: seq<Profile>, qs: seq<Profile>)
    requires SameIds(ps, qs)
    ensures UniqueIds(ps) <==> UniqueIds(qs)
    ensures forall x :: HasId(ps, x) <==> HasId(qs, x)
  {
    forall x ensures HasId(ps, x) <==> HasId(qs, x) {
      if HasId(ps, x) {
        var k :| 0 <= k < |ps| && ps[k].id == x;
        assert qs[k].id == x;
      }
      if HasId(qs, x) {
        var k :| 0 <= k < |qs| && qs[k].id == x;
        assert ps[k].id == x;
      }
    }
  }

  /** Removing profiles keeps the remaining ids unique. */
  lemma {:induction false} WithoutKeepsUnique(ps: seq<Profile>, id: Option<int>)
    requires UniqueIds(ps)
    ensures UniqueIds(Without(ps, id))
    decreases |ps|
  {
    if ps != [] && Some(ps[0].id) != id {
      var t := Without(ps[1..], id);
      WithoutKeepsUnique(ps[1..], id);
      assert !HasId(t, ps[0].id) by {
        WithoutHasId(ps[1..], id, ps[0].id);
        forall k | 0 <= k < |ps[1..]| ensures ps[1..][k].id != ps[0].id {
          assert ps[1..][k] == ps[k + 1];
        }
      }
      var r := [ps[0]] + t;
      forall j, k | 0 <= j < k < |r| ensures r[j].id != r[k].id {
        if j == 0 {
          assert r[k] == t[k - 1];
        } else {
          assert r[j] == t[j - 1] && r[k] == t[k - 1];
        }
      }
    } else if ps != [] {
      WithoutKeepsUnique(ps[1..], id);
    }
  }

  /** The profile a copy uses: the first whose id strictly equals the stored
      default, else the first profile; the list itself falls back to the
      template when storage has none. None when that list is empty (the
      formatting then fails on the undefined profile and nothing is copied). */
  function Resolve(s: Storage, template: Profile): (r: Option<Profile>)
    ensures var ps := s.profiles.GetOr([template]);
      && (r.None? <==> ps == [])
      && (r.Some? ==> r.value in ps)
      && (s.defaultId.Some? && HasId(ps, s.defaultId.value) ==>
            r.Some? && r.value.id == s.defaultId.value)
      && (FindIndex(ps, s.defaultId).Some? ==> r == Some(ps[FindIndex(ps, s.defaultId).value]))
      && ((s.defaultId.None? || !HasId(ps, s.defaultId.value)) && ps != [] ==> r == Some(ps[0]))
      && (s.profiles.None? ==> r == Some(template))
  {
    var ps := s.profiles.GetOr([template]);
    match FindIndex(ps, s.defaultId)
    case Some(i) => Some(ps[i])
    case None => if ps == [] then None else Some(ps[0])
  }

  /** The `onInstalled` handler: when no profile list is stored, or an empty
      one, write a one-profile list holding the template and make it the
      default; otherwise write nothing. */
  function Seed(s: Storage, template: Profile): (r: Storage)
    ensures (s.profiles.None? || s.profiles == Some([])) ==>
      r == Storage(Some([template]), Some(template.id))
    ensures s.profiles.Some? && s.profiles.value != [] ==> r == s
  {
    if s.profiles.None? || s.profiles.value == [] then Storage(Some([template]), Some(template.id))
    else s
  }

  /** Seeding is idempotent, and after it a copy always finds a profile:
      the stored default when one matches, else the first profile. */
  lemma SeedThenResolve(s: Storage, template: Profile)
    ensures Seed(Seed(s, template), template) == Seed(s, template)
    ensures Resolve(Seed(s, template), template).Some?
    ensures s.profiles.None? || s.profiles == Some([]) ==>
      Resolve(Seed(s, template), template) == Some(template)
  {
    var t := Seed(s, template);
    if s.profiles.None? || s.profiles == Some([]) {
      assert t.profiles.value[0] == template;
      assert HasId(t.profiles.value, template.id);
    }
  }
}
