/** The authenticated key/value store: every caller owns a map from keys to values,
    and mutations are gated by an allow-list of principals with a global override flag. */
module KeyValueStore {
  import opened Wrappers

  /** Owner -> (key -> value). */
  type Store = map<Principal, map<string, string>>

  /** One key/value pair of a listing, as returned by `get_all` and `get_by_id`. */
  datatype MyData = MyData(key: string, value: string)

  /** What the guard decides: let the call run, or reject it with a reason. */
  datatype Outcome = Pass | Fail(error: string)

  /** The reply to a guarded call: rejected by the guard before the body ran, or the body's value. */
  datatype Reply<+T> = Rejected(reason: string) | Replied(value: T)

  /** The store after a mutating call, and the status text the call returns. */
  datatype Step = Step(store: Store, status: string)

  const NotOwnerMessage := "Store can only be set by the owner of the asset canister."
  const AlreadyExistsMessage := "Data already exists."
  const AddedMessage := "Ok."
  const OkMessage := "Ok"
  const NoMatchMessage := "No matching element"
  const ParseFailureMessage := "Failed to parse the id as Principal."

  /** The map `owner` holds, empty when the owner has never written. */
  function OwnerMap(store: Store, owner: Principal): map<string, string>
  {
    if owner in store then store[owner] else map[]
  }

  /** The value `owner` holds under `key`, if both exist. */
  function Lookup(store: Store, owner: Principal, key: string): Option<string>
  {
    if owner in store && key in store[owner] then Some(store[owner][key]) else None
  }

  /** Only the entry of `owner` may differ between the two stores. */
  predicate OthersUnchanged(before: Store, after: Store, owner: Principal)
  {
    before - {owner} == after - {owner}
  }

  /** `add`: create `key` for `owner`, refusing to overwrite an existing key. */
  function AddStep(store: Store, owner: Principal, key: string, value: string): (r: Step)
    ensures OthersUnchanged(store, r.store, owner)
    ensures r.status == AlreadyExistsMessage <==> Lookup(store, owner, key).Some?
    ensures r.status == AlreadyExistsMessage ==> r.store == store
    ensures r.status != AlreadyExistsMessage ==>
      r.status == AddedMessage && owner in r.store && r.store[owner] == OwnerMap(store, owner)[key := value]
  {
    var m := OwnerMap(store, owner);
    if key in m then Step(store, AlreadyExistsMessage)
    else Step(store[owner := m[key := value]], AddedMessage)
  }

  /** `update`: overwrite an existing key of `owner`; never creates an owner or a key. */
  function UpdateStep(store: Store, owner: Principal, key: string, value: string): (r: Step)
    ensures OthersUnchanged(store, r.store, owner)
    ensures r.store.Keys == store.Keys
    ensures owner in store ==> r.store[owner].Keys == store[owner].Keys
    ensures r.status == OkMessage <==> Lookup(store, owner, key).Some?
    ensures r.status == OkMessage ==> Lookup(r.store, owner, key) == Some(value)
    ensures r.status == OkMessage ==> r.store[owner] - {key} == store[owner] - {key}
    ensures r.status != OkMessage ==> r.status == NoMatchMessage && r.store == store
  {
    if owner in store && key in store[owner] then
      Step(store[owner := store[owner][key := value]], OkMessage)
    else
      Step(store, NoMatchMessage)
  }

  /** `remove`: delete an existing key of `owner`; the owner entry stays even if it becomes empty. */
  function RemoveStep(store: Store, owner: Principal, key: string): (r: Step)
    ensures OthersUnchanged(store, r.store, owner)
    ensures r.store.Keys == store.Keys
    ensures Lookup(r.store, owner, key) == None
    ensures owner in store ==> r.store[owner] == store[owner] - {key}
    ensures r.status == OkMessage <==> Lookup(store, owner, key).Some?
    ensures r.status != OkMessage ==> r.status == NoMatchMessage && r.store == store
  {
    if owner in store && key in store[owner] then
      Step(store[owner := store[owner] - {key}], OkMessage)
    else
      Step(store, NoMatchMessage)
  }

  /** `r` lists the entries of `m`: each pair of `m` exactly once, and nothing else. */
  predicate ListsEntries(r: seq<MyData>, m: map<string, string>)
  {
    && (forall i :: 0 <= i < |r| ==> r[i].key in m && m[r[i].key] == r[i].value)
    && (forall k :: k in m ==> MyData(k, m[k]) in r)
    && (forall i, j :: 0 <= i < j < |r| ==> r[i].key != r[j].key)
  }

  /** A listing of the entries of one owner's map, in the map's (unspecified) iteration order. */
  method Entries(m: map<string, string>) returns (r: seq<MyData>)
    ensures ListsEntries(r, m)
    ensures |r| == |m|
  {
    r := [];
    var rest := m.Keys;
    while rest != {}
      invariant rest <= m.Keys
      invariant |r| + |rest| == |m|
      invariant forall i :: 0 <= i < |r| ==> r[i].key in m && r[i].key !in rest && m[r[i].key] == r[i].value
      invariant forall k :: k in m && k !in rest ==> MyData(k, m[k]) in r
      invariant forall i, j :: 0 <= i < j < |r| ==> r[i].key != r[j].key
      decreases rest
    {
      var k :| k in rest;
      r := r + [MyData(k, m[k])];
      rest := rest - {k};
    }
  }

  /** The canister's state: the key/value store and the allow-list of mutating principals. */
  class KeyValueCanister {
    var profileStore: Store
    var users: set<Principal>
    /** The global override: when true, the guard admits every caller. */
    const overrideFlag: bool

    /** `init`: the initialising caller becomes the first authorised user. */
    constructor Init(caller: Principal, overrideFlag: bool)
      ensures users == {caller}
      ensures profileStore == map[]
      ensures this.overrideFlag == overrideFlag
    {
      this.overrideFlag := overrideFlag;
      users := {caller};
      profileStore := map[];
    }

    /** `is_user`: the guard run before every guarded call. */
    function IsUser(caller: Principal): (r: Outcome)
      reads this
      ensures r.Pass? <==> caller in users || overrideFlag
      ensures r.Fail? ==> r.error == NotOwnerMessage
    {
      if caller in users then Pass
      else if overrideFlag then Pass
      else Fail(NotOwnerMessage)
    }

    /** `get_self`: the caller's own identity as text, behind the guard. */
    method GetSelf(caller: Principal, toText: Principal -> string) returns (r: Reply<Option<string>>)
      ensures r.Replied? <==> caller in users || overrideFlag
      ensures r.Replied? ==> r.value == Some(toText(caller))
      ensures r.Rejected? ==> r.reason == NotOwnerMessage
    {
      var guard := IsUser(caller);
      if guard.Fail? {
        return Rejected(guard.error);
      }
      r := Replied(Some(toText(caller)));
    }

    /** `add_user`: grant mutation rights to `principal`, behind the guard. */
    method AddUser(caller: Principal, principal: Principal) returns (r: Reply<()>)
      modifies this`users
      ensures r.Replied? <==> old(IsUser(caller)).Pass?
      ensures r.Rejected? ==> r.reason == NotOwnerMessage && users == old(users)
      ensures r.Replied? ==> users == old(users) + {principal}
    {
      var guard := IsUser(caller);
      if guard.Fail? {
        return Rejected(guard.error);
      }
      users := users + {principal};
      r := Replied(());
    }

    /** `get`: the caller's value under `name`. */
    method Get(caller: Principal, name: string) returns (r: Option<string>)
      ensures r == Lookup(profileStore, caller, name)
    {
      if caller in profileStore {
        var profiles := profileStore[caller];
        if name in profiles {
          return Some(profiles[name]);
        }
      }
      r := None;
    }

    /** `add`: create a key of the caller, behind the guard. */
    method Add(caller: Principal, key: string, value: string) returns (r: Reply<Option<string>>)
      modifies this`profileStore
      ensures r.Replied? <==> IsUser(caller).Pass?
      ensures r.Rejected? ==> r.reason == NotOwnerMessage && profileStore == old(profileStore)
      ensures r.Replied? ==>
        var step := AddStep(old(profileStore), caller, key, value);
        r.value == Some(step.status) && profileStore == step.store
    {
      var guard := IsUser(caller);
      if guard.Fail? {
        return Rejected(guard.error);
      }
      var profiles := if caller in profileStore then profileStore[caller] else map[];
      if key in profiles {
        return Replied(Some(AlreadyExistsMessage));
      }
      profileStore := profileStore[caller := profiles[key := value]];
      r := Replied(Some(AddedMessage));
    }

    /** `update`: overwrite an existing key of the caller, behind the guard. */
    method Update(caller: Principal, key: string, value: string) returns (r: Reply<Option<string>>)
      modifies this`profileStore
      ensures r.Replied? <==> IsUser(caller).Pass?
      ensures r.Rejected? ==> r.reason == NotOwnerMessage && profileStore == old(profileStore)
      ensures r.Replied? ==>
        var step := UpdateStep(old(profileStore), caller, key, value);
        r.value == Some(step.status) && profileStore == step.store
    {
      var guard := IsUser(caller);
      if guard.Fail? {
        return Rejected(guard.error);
      }
      if caller in profileStore {
        var profiles := profileStore[caller];
        if key in profiles {
          profileStore := profileStore[caller := profiles[key := value]];
          r := Replied(Some(OkMessage));
        } else {
          r := Replied(Some(NoMatchMessage));
        }
      } else {
        r := Replied(Some(NoMatchMessage));
      }
    }

    /** `remove`: delete an existing key of the caller, behind the guard. */
    method Remove(caller: Principal, key: string) returns (r: Reply<Option<string>>)
      modifies this`profileStore
      ensures r.Replied? <==> IsUser(caller).Pass?
      ensures r.Rejected? ==> r.reason == NotOwnerMessage && profileStore == old(profileStore)
      ensures r.Replied? ==>
        var step := RemoveStep(old(profileStore), caller, key);
        r.value == Some(step.status) && profileStore == step.store
    {
      var guard := IsUser(caller);
      if guard.Fail? {
        return Rejected(guard.error);
      }
      if caller in profileStore {
        var profiles := profileStore[caller];
        if key in profiles {
          profileStore := profileStore[caller := profiles - {key}];
          r := Replied(Some(OkMessage));
        } else {
          r := Replied(Some(NoMatchMessage));
        }
      } else {
        r := Replied(Some(NoMatchMessage));
      }
    }

    /** `get_all`: every entry of the caller, or None when the caller has no map. */
    method GetAll(caller: Principal) returns (r: Option<seq<MyData>>)
      ensures r.None? <==> caller !in profileStore
      ensures r.Some? ==> ListsEntries(r.value, profileStore[caller]) && |r.value| == |profileStore[caller]|
    {
      if caller in profileStore {
        var entries := Entries(profileStore[caller]);
        r := Some(entries);
      } else {
        r := None;
      }
    }

    /** `get_by_id`: every entry of the principal whose text is `id`; the call fails when `id`
        does not parse, and `parse` stands for the principal text decoder. */
    method GetById(id: string, parse: string -> Option<Principal>) returns (r: Result<Option<seq<MyData>>, string>)
      ensures r.Failure? <==> parse(id).None?
      ensures r.Failure? ==> r.error == ParseFailureMessage
      ensures r.Success? ==>
        var owner := parse(id).value;
        && (r.value.None? <==> owner !in profileStore)
        && (r.value.Some? ==> ListsEntries(r.value.value, profileStore[owner]) && |r.value.value| == |profileStore[owner]|)
    {
      var parsed := parse(id);
      if parsed.None? {
        return Failure(ParseFailureMessage);
      }
      var owner := parsed.value;
      if owner in profileStore {
        var entries := Entries(profileStore[owner]);
        r := Success(Some(entries));
      } else {
        r := Success(None);
      }
    }
  }

  /** With the override switched off, a caller outside the allow-list is turned away without effect
      until the initialising owner grants it access; with the override on, it is admitted at once. */
  method GuardScenario(owner: Principal, stranger: Principal, overrideFlag: bool)
    returns (first: Reply<Option<string>>, second: Reply<Option<string>>)
    requires owner != stranger
    ensures overrideFlag ==> first == Replied(Some(AddedMessage)) && second == Replied(Some(AlreadyExistsMessage))
    ensures !overrideFlag ==> first == Rejected(NotOwnerMessage) && second == Replied(Some(AddedMessage))
  {
    var canister := new KeyValueCanister.Init(owner, overrideFlag);
    first := canister.Add(stranger, "key", "value");
    assert !overrideFlag ==> canister.profileStore == map[];
    var granted := canister.AddUser(owner, stranger);
    second := canister.Add(stranger, "key", "value");
  }

  /** After a successful `add`, a second `add` of the same key conflicts and keeps the first value. */
  lemma AddThenAddConflicts(store: Store, owner: Principal, key: string, v1: string, v2: string)
    requires Lookup(store, owner, key).None?
    ensures var s1 := AddStep(store, owner, key, v1).store;
      && Lookup(s1, owner, key) == Some(v1)
      && AddStep(s1, owner, key, v2) == Step(s1, AlreadyExistsMessage)
  {
  }

  /** `update` after `add` overwrites the value; nothing else of the owner changes. */
  lemma AddThenUpdate(store: Store, owner: Principal, key: string, v1: string, v2: string)
    requires Lookup(store, owner, key).None?
    ensures var s1 := AddStep(store, owner, key, v1).store;
      var s2 := UpdateStep(s1, owner, key, v2);
      && s2.status == OkMessage
      && s2.store == AddStep(store, owner, key, v2).store
  {
    var m := OwnerMap(store, owner);
    assert m[key := v1][key := v2] == m[key := v2];
  }

  /** `remove` undoes a successful `add`, except that an owner created by the add stays, with an empty map. */
  lemma AddThenRemove(store: Store, owner: Principal, key: string, value: string)
    requires Lookup(store, owner, key).None?
    ensures var s1 := AddStep(store, owner, key, value).store;
      var s2 := RemoveStep(s1, owner, key);
      && s2.status == OkMessage
      && s2.store == store[owner := OwnerMap(store, owner)]
      && (owner in store ==> s2.store == store)
  {
    var m := OwnerMap(store, owner);
    assert m[key := value] - {key} == m;
  }

  /** Once removed, a key reads as absent, and removing it again reports no match. */
  lemma RemoveThenRemove(store: Store, owner: Principal, key: string)
    ensures var s1 := RemoveStep(store, owner, key).store;
      && Lookup(s1, owner, key) == None
      && RemoveStep(s1, owner, key) == Step(s1, NoMatchMessage)
  {
  }
}
