/** The profile store: every caller owns a growable list of profiles, and a name index records
    which caller last added a profile under each name. Nothing here is guarded. */
module ProfileStore {
  import opened Wrappers
  import opened Text

  datatype Profile = Profile(name: string, description: string, keywords: seq<string>)

  /** Owner -> the profiles it added, in insertion order, duplicates kept. */
  type Store = map<Principal, seq<Profile>>

  /** Profile name -> the last owner that added a profile under that name. */
  type IdStore = map<string, Principal>

  /** The list `owner` holds, empty when the owner has never written. */
  function SelfList(store: Store, owner: Principal): seq<Profile>
  {
    if owner in store then store[owner] else []
  }

  /** The list of the owner the index names for `name`, empty when either lookup fails. */
  function Resolve(store: Store, ids: IdStore, name: string): seq<Profile>
  {
    if name in ids && ids[name] in store then store[ids[name]] else []
  }

  /** The store after `add` or `update` of `p` by `owner`: `p` appended to the owner's list. */
  function Appended(store: Store, owner: Principal, p: Profile): (r: Store)
    ensures owner in r && r[owner] == SelfList(store, owner) + [p]
    ensures r - {owner} == store - {owner}
  {
    store[owner := SelfList(store, owner) + [p]]
  }

  /** The profiles of `ps` whose name is not `name`, in their original order. */
  function WithoutName(ps: seq<Profile>, name: string): (r: seq<Profile>)
    ensures forall q :: q in r <==> q in ps && q.name != name
    ensures |r| <= |ps|
  {
    if ps == [] then []
    else if ps[0].name == name then WithoutName(ps[1..], name)
    else [ps[0]] + WithoutName(ps[1..], name)
  }

  /** The store after `remove(name)` by `owner`: the owner's list filtered; an absent owner stays absent. */
  function Retained(store: Store, owner: Principal, name: string): (r: Store)
    ensures r.Keys == store.Keys
    ensures owner in store ==> r[owner] == WithoutName(store[owner], name)
    ensures r - {owner} == store - {owner}
  {
    if owner in store then store[owner := WithoutName(store[owner], name)] else store
  }

  /** `p` matches the lower-cased search text `t`: by name or description substring, or by an exact keyword. */
  predicate ProfileMatches(p: Profile, t: string)
  {
    || Contains(Lower(p.name), t)
    || Contains(Lower(p.description), t)
    || exists j :: 0 <= j < |p.keywords| && Lower(p.keywords[j]) == t
  }

  /** Some profile of `ps` matches `t`. */
  predicate ListMatches(ps: seq<Profile>, t: string)
  {
    exists i :: 0 <= i < |ps| && ProfileMatches(ps[i], t)
  }

  /** Some owner's list matches `t`. */
  predicate AnyOwnerMatches(store: Store, t: string)
  {
    exists o :: o in store && ListMatches(store[o], t)
  }

  /** `ps` is the entire list of some owner, and it matches `t`. */
  predicate IsMatchingList(store: Store, ps: seq<Profile>, t: string)
  {
    ListMatches(ps, t) && exists o :: o in store && store[o] == ps
  }

  /** The keyword scan of `search`: does some keyword lower-case to exactly `t`? */
  method HasKeyword(keywords: seq<string>, t: string) returns (b: bool)
    ensures b <==> exists j :: 0 <= j < |keywords| && Lower(keywords[j]) == t
  {
    var k := 0;
    while k < |keywords|
      invariant 0 <= k <= |keywords|
      invariant forall j :: 0 <= j < k ==> Lower(keywords[j]) != t
    {
      if Lower(keywords[k]) == t {
        return true;
      }
      k := k + 1;
    }
    b := false;
  }

  /** The state of the profile canister: the per-owner lists and the name index. */
  class ProfileCanister {
    var profileStore: Store
    var idStore: IdStore

    constructor ()
      ensures profileStore == map[] && idStore == map[]
    {
      profileStore := map[];
      idStore := map[];
    }

    /** `get_self`: the caller's own list, empty when it has none. */
    method GetSelf(caller: Principal) returns (r: seq<Profile>)
      ensures r == SelfList(profileStore, caller)
    {
      if caller in profileStore {
        r := profileStore[caller];
      } else {
        r := [];
      }
    }

    /** `get`: the list of whichever owner the index names for `name`. */
    method Get(name: string) returns (r: seq<Profile>)
      ensures r == Resolve(profileStore, idStore, name)
    {
      r := [];
      if name in idStore {
        var owner := idStore[name];
        if owner in profileStore {
          r := profileStore[owner];
        }
      }
    }

    /** `add`: record the caller as the last writer of `p.name`, then append `p` to its list. */
    method Add(caller: Principal, p: Profile)
      modifies this
      ensures idStore == old(idStore)[p.name := caller]
      ensures profileStore == Appended(old(profileStore), caller, p)
    {
      idStore := idStore[p.name := caller];
      var profiles := if caller in profileStore then profileStore[caller] else [];
      profileStore := profileStore[caller := profiles + [p]];
    }

    /** `update`: append `p` to the caller's list; the name index is left alone. */
    method Update(caller: Principal, p: Profile)
      modifies this`profileStore
      ensures profileStore == Appended(old(profileStore), caller, p)
    {
      if caller in profileStore {
        profileStore := profileStore[caller := profileStore[caller] + [p]];
      } else {
        assert [] + [p] == [p];
        profileStore := profileStore[caller := [p]];
      }
    }

    /** `remove`: drop every profile of the caller named `name`; the name index is left alone. */
    method Remove(caller: Principal, name: string)
      modifies this`profileStore
      ensures profileStore == Retained(old(profileStore), caller, name)
    {
      if caller in profileStore {
        profileStore := profileStore[caller := WithoutName(profileStore[caller], name)];
      }
    }

    /** `search`: scan the owners in the store's (unspecified) order and return the whole list of the
        first owner holding a matching profile. */
    method Search(text: string) returns (r: Option<seq<Profile>>)
      ensures r.Some? ==> IsMatchingList(profileStore, r.value, Lower(text))
      ensures r.None? <==> !AnyOwnerMatches(profileStore, Lower(text))
    {
      var t := Lower(text);
      var rest := profileStore.Keys;
      while rest != {}
        invariant rest <= profileStore.Keys
        invariant forall o :: o in profileStore && o !in rest ==> !ListMatches(profileStore[o], t)
        decreases rest
      {
        var owner :| owner in rest;
        var profiles := profileStore[owner];
        var i := 0;
        while i < |profiles|
          invariant 0 <= i <= |profiles|
          invariant forall j :: 0 <= j < i ==> !ProfileMatches(profiles[j], t)
        {
          var p := profiles[i];
          if Contains(Lower(p.name), t) || Contains(Lower(p.description), t) {
            assert ProfileMatches(profiles[i], t);
            return Some(profiles);
          }
          var keywordHit := HasKeyword(p.keywords, t);
          if keywordHit {
            assert ProfileMatches(profiles[i], t);
            return Some(profiles);
          }
          i := i + 1;
        }
        rest := rest - {owner};
      }
      r := None;
    }

    /** `iterate`: every owner's list, one per owner, in the store's (unspecified) order;
        `owners` is that order. */
    method Iterate() returns (r: seq<seq<Profile>>, ghost owners: seq<Principal>)
      ensures |r| == |profileStore|
      ensures |owners| == |r|
      ensures forall i :: 0 <= i < |r| ==> owners[i] in profileStore && r[i] == profileStore[owners[i]]
      ensures forall i, j :: 0 <= i < j < |owners| ==> owners[i] != owners[j]
      ensures forall o :: o in profileStore ==> o in owners
    {
      r, owners := [], [];
      var rest := profileStore.Keys;
      while rest != {}
        invariant rest <= profileStore.Keys
        invariant |r| == |owners| && |r| + |rest| == |profileStore|
        invariant forall i :: 0 <= i < |r| ==> owners[i] in profileStore && owners[i] !in rest && r[i] == profileStore[owners[i]]
        invariant forall i, j :: 0 <= i < j < |owners| ==> owners[i] != owners[j]
        invariant forall o :: o in profileStore && o !in rest ==> o in owners
        decreases rest
      {
        var owner :| owner in rest;
        r, owners := r + [profileStore[owner]], owners + [owner];
        rest := rest - {owner};
      }
    }
  }

  /** Filtering distributes over concatenation: the filter keeps the original order. */
  lemma {:induction false} WithoutNameAppend(a: seq<Profile>, b: seq<Profile>, name: string)
    ensures WithoutName(a + b, name) == WithoutName(a, name) + WithoutName(b, name)
  {
    if a == [] {
      assert a + b == b;
    } else {
      assert (a + b)[1..] == a[1..] + b;
      WithoutNameAppend(a[1..], b, name);
    }
  }

  /** A list with no profile named `name` is left as it is. */
  lemma {:induction false} WithoutNameNoOp(ps: seq<Profile>, name: string)
    requires forall q :: q in ps ==> q.name != name
    ensures WithoutName(ps, name) == ps
  {
    if ps != [] {
      WithoutNameNoOp(ps[1..], name);
      assert [ps[0]] + ps[1..] == ps;
    }
  }

  /** Removing the same name twice is removing it once. */
  lemma WithoutNameIdempotent(ps: seq<Profile>, name: string)
    ensures WithoutName(WithoutName(ps, name), name) == WithoutName(ps, name)
  {
  }

  /** Adding the same profile twice keeps both copies. */
  lemma AddTwiceKeepsDuplicates(store: Store, owner: Principal, p: Profile)
    ensures SelfList(Appended(Appended(store, owner, p), owner, p), owner) == SelfList(store, owner) + [p, p]
  {
  }

  /** `remove(p.name)` after `add(p)` drops `p` and every other profile of that name, and nothing else. */
  lemma AddThenRemove(store: Store, owner: Principal, p: Profile)
    ensures SelfList(Retained(Appended(store, owner, p), owner, p.name), owner) == WithoutName(SelfList(store, owner), p.name)
  {
    WithoutNameAppend(SelfList(store, owner), [p], p.name);
  }

  /** The name index is global: after `a` adds `p`, any caller's `get(p.name)` returns `a`'s whole list. */
  lemma AddThenGetByName(store: Store, ids: IdStore, a: Principal, p: Profile)
    ensures Resolve(Appended(store, a, p), ids[p.name := a], p.name) == SelfList(store, a) + [p]
  {
  }

  /** The index is never retracted: after `add(p)` and `remove(p.name)` by the same owner, `get(p.name)`
      still resolves to that owner, whose list no longer holds any profile of that name. */
  lemma StaleIndexAfterRemove(store: Store, ids: IdStore, a: Principal, p: Profile)
    ensures var ids1 := ids[p.name := a];
      var s2 := Retained(Appended(store, a, p), a, p.name);
      && p.name in ids1 && ids1[p.name] == a
      && Resolve(s2, ids1, p.name) == WithoutName(SelfList(store, a), p.name)
      && forall q :: q in Resolve(s2, ids1, p.name) ==> q.name != p.name
  {
    AddThenRemove(store, a, p);
  }

  /** Search ignores case: a profile is found by any spelling of its name that lower-cases alike. */
  lemma NameMatchesAnyCase(p: Profile, text: string)
    requires Lower(text) == Lower(p.name)
    ensures ProfileMatches(p, Lower(text))
  {
  }

  /** The empty search text matches every profile, since every string contains the empty string. */
  lemma EmptyTextMatches(p: Profile)
    ensures ProfileMatches(p, Lower(""))
  {
  }
}
