# Caller-partitioned record stores

This project models the two in-memory record stores of the `rust_profile_backend` canister.
Every record belongs to the principal that wrote it, and the principal of each call is passed
to each operation as a `caller` argument.

- **Key/value store** (`lib.rs`, module `KeyValueStore`). Each owner holds a map from keys to
  values. The class `KeyValueCanister` holds the store and an allow-list of principals.
  `add`, `update`, `remove`, `add_user` and `get_self` are gated by the guard `is_user`. The
  guard admits a caller on the allow-list. It admits any caller when the global override flag
  is on. The source fixes that flag to `true`; here it is a parameter of the constructor, so
  both the permissive and the strict guard are stated. `add` only creates, `update` only
  overwrites and `remove` only deletes. Each returns the source's status text. `get`,
  `get_all` and `get_by_id` are reads. `get_by_id` decodes principal text with a `parse`
  parameter, and the call fails when that decoding fails.
- **Profile store** (`dev-lib.rs`, module `ProfileStore`). Each owner holds a list of profiles,
  and duplicates are kept. A name index records the last owner that added a profile under
  each name. `remove` filters the owner's list and never retracts an index entry, so `get` by
  name can resolve to an owner that no longer holds that name. `search` scans the owners in
  the store's unspecified order. It returns the whole list of the first owner that holds a
  matching profile. A profile matches when its name or description contains the text, or one
  of its keywords equals it, with case ignored. `iterate` returns every owner's list.

Each mutating method's postcondition equates the new state with a value-level function of
the old state (`AddStep`, `UpdateStep`, `RemoveStep`, `Appended`, `Retained`). The lemmas
relate these functions to one another. HashMap iteration order is unspecified. The loops of
`Entries`, `Search` and `Iterate` therefore take the remaining keys in an arbitrary order, and
their contracts hold for every order.

The status and rejection texts are the source's own (lib.rs:47, 95, 100, 112-117, 129-134): the
guard rejects with "Store can only be set by the owner of the asset canister.", `add` answers
"Ok." and `update`/`remove` answer "Ok". `dev-lib.rs` declares the type `ProfileStore` twice
(lines 13 and 14). The second declaration does not compile, and every function body uses the
first (`Principal -> Vec<Profile>`), which is what is modelled.

## Model

| member | source | states |
|---|---|---|
| KeyValueStore.AddStep | src/rust_profile_backend/src/lib.rs:86-102 | "Data already exists." exactly when the caller holds the key, and then the store is unchanged; otherwise "Ok.", and the caller's map (created if absent) gains key := value; other owners are untouched |
| KeyValueStore.UpdateStep | src/rust_profile_backend/src/lib.rs:104-120 | "Ok" exactly when the caller holds the key, which then reads the new value while its other keys are unchanged; otherwise "No matching element" and no change; never creates an owner or a key |
| KeyValueStore.RemoveStep | src/rust_profile_backend/src/lib.rs:122-137 | "Ok" exactly when the caller holds the key; afterwards the key is absent, the owner entry stays (possibly empty), and other owners are untouched; otherwise "No matching element" and no change |
| KeyValueStore.Entries | src/rust_profile_backend/src/lib.rs:144-147 | the listing holds every (key, value) pair of the map exactly once and nothing else |
| KeyValueStore.KeyValueCanister.Init | src/rust_profile_backend/src/lib.rs:35-38 | the initialising caller is the only authorised user and the store is empty |
| KeyValueStore.KeyValueCanister.IsUser | src/rust_profile_backend/src/lib.rs:40-50 | the guard passes exactly when the caller is on the allow-list or the override flag is on, and otherwise fails with the owner-only message |
| KeyValueStore.KeyValueCanister.GetSelf | src/rust_profile_backend/src/lib.rs:52-59 | behind the guard, replies with the caller's principal as text |
| KeyValueStore.KeyValueCanister.AddUser | src/rust_profile_backend/src/lib.rs:61-64 | behind the guard, the allow-list grows by exactly the given principal; a rejected call leaves it unchanged |
| KeyValueStore.KeyValueCanister.Get | src/rust_profile_backend/src/lib.rs:73-84 | returns the caller's value for the key, or None when the owner or the key is missing |
| KeyValueStore.KeyValueCanister.Add | src/rust_profile_backend/src/lib.rs:86-102 | a rejected call changes nothing; an admitted one moves the store as AddStep does and replies with its status |
| KeyValueStore.KeyValueCanister.Update | src/rust_profile_backend/src/lib.rs:104-120 | a rejected call changes nothing; an admitted one moves the store as UpdateStep does and replies with its status |
| KeyValueStore.KeyValueCanister.Remove | src/rust_profile_backend/src/lib.rs:122-137 | a rejected call changes nothing; an admitted one moves the store as RemoveStep does and replies with its status |
| KeyValueStore.KeyValueCanister.GetAll | src/rust_profile_backend/src/lib.rs:139-153 | None exactly when the caller has no map; otherwise one element per entry of the caller's map |
| KeyValueStore.KeyValueCanister.GetById | src/rust_profile_backend/src/lib.rs:156-170 | fails exactly when the id does not parse; otherwise None exactly when that principal has no map, else one element per entry of its map |
| KeyValueStore.GuardScenario | src/rust_profile_backend/src/lib.rs:40-64 | with the override off, a caller outside the allow-list is rejected until `add_user` admits it; with the override on, it is admitted at once |
| KeyValueStore.AddThenAddConflicts | src/rust_profile_backend/src/lib.rs:86-102 | after a successful add of a key, a second add of it conflicts and the first value stays |
| KeyValueStore.AddThenUpdate | src/rust_profile_backend/src/lib.rs:86-120 | update after add succeeds and leaves the store as if the new value had been added directly |
| KeyValueStore.AddThenRemove | src/rust_profile_backend/src/lib.rs:86-137 | remove undoes add, except that an owner entry created by the add remains with an empty map |
| KeyValueStore.RemoveThenRemove | src/rust_profile_backend/src/lib.rs:122-137 | after remove the key reads as absent, and a second remove reports no match without change |
| Text.LowerChar | src/rust_profile_backend/src/dev-lib.rs:101 | ASCII upper-case letters map to lower case and all other characters are unchanged |
| Text.Lower | src/rust_profile_backend/src/dev-lib.rs:101 | same length, each character lower-cased |
| Text.LowerIdempotent | src/rust_profile_backend/src/dev-lib.rs:101-112 | lower-casing an already lower-cased text changes nothing |
| Text.Contains | src/rust_profile_backend/src/dev-lib.rs:105-106 | true exactly when the text occurs at some position of the string |
| ProfileStore.Appended | src/rust_profile_backend/src/dev-lib.rs:62-84 | the owner's list becomes its old list (or empty) followed by the profile; other owners are untouched |
| ProfileStore.WithoutName | src/rust_profile_backend/src/dev-lib.rs:93 | keeps exactly the profiles whose name differs from the given one |
| ProfileStore.Retained | src/rust_profile_backend/src/dev-lib.rs:88-97 | the owner's list is filtered by name, the set of owners is unchanged (an empty list stays), and other owners are untouched |
| ProfileStore.ProfileCanister.constructor | src/rust_profile_backend/src/dev-lib.rs:23-26 | both the store and the name index start empty |
| ProfileStore.ProfileCanister.GetSelf | src/rust_profile_backend/src/dev-lib.rs:29-39 | returns the caller's list, or empty, without changing state |
| ProfileStore.ProfileCanister.Get | src/rust_profile_backend/src/dev-lib.rs:42-52 | returns the list of the owner indexed under the name, or empty, without changing state |
| ProfileStore.ProfileCanister.Add | src/rust_profile_backend/src/dev-lib.rs:54-69 | the index maps the name to the caller, overwriting any previous owner, with all other entries kept; the profile is appended to the caller's list |
| ProfileStore.ProfileCanister.Update | src/rust_profile_backend/src/dev-lib.rs:71-84 | same effect on the store as add; the name index is not touched |
| ProfileStore.ProfileCanister.Remove | src/rust_profile_backend/src/dev-lib.rs:87-97 | the caller's list is filtered by name, a caller without an entry is a no-op, and the index is not touched |
| ProfileStore.HasKeyword | src/rust_profile_backend/src/dev-lib.rs:111-115 | true exactly when some keyword lower-cases to exactly the search text |
| ProfileStore.ProfileCanister.Search | src/rust_profile_backend/src/dev-lib.rs:99-120 | a result is some owner's entire list holding a profile that matches the lower-cased text; None exactly when no owner's list matches (so an empty store gives None) |
| ProfileStore.ProfileCanister.Iterate | src/rust_profile_backend/src/dev-lib.rs:122-132 | one list per owner, each owner exactly once, each element that owner's stored list |
| ProfileStore.WithoutNameAppend | src/rust_profile_backend/src/dev-lib.rs:93 | the filter keeps the original order: it distributes over concatenation |
| ProfileStore.WithoutNameNoOp | src/rust_profile_backend/src/dev-lib.rs:93 | removing a name no profile has leaves the list as it is |
| ProfileStore.WithoutNameIdempotent | src/rust_profile_backend/src/dev-lib.rs:93 | removing the same name twice equals removing it once |
| ProfileStore.AddTwiceKeepsDuplicates | src/rust_profile_backend/src/dev-lib.rs:62-68 | adding the same profile twice keeps two copies |
| ProfileStore.AddThenRemove | src/rust_profile_backend/src/dev-lib.rs:54-97 | remove of a name after add drops the added profile and every other profile of that name, and nothing else |
| ProfileStore.AddThenGetByName | src/rust_profile_backend/src/dev-lib.rs:43-68 | after owner A adds a profile, `get` of its name by any caller returns A's whole list |
| ProfileStore.StaleIndexAfterRemove | src/rust_profile_backend/src/dev-lib.rs:54-97 | after add then remove of a name, the index still names the owner, whose list now holds no profile of that name |
| ProfileStore.NameMatchesAnyCase | src/rust_profile_backend/src/dev-lib.rs:100-107 | a profile matches any search text that lower-cases to its lower-cased name |
| ProfileStore.EmptyTextMatches | src/rust_profile_backend/src/dev-lib.rs:101-107 | the empty search text matches every profile |

## Left out

- The Internet Computer runtime. `ic_cdk::api::caller()` becomes a `caller` argument, and the `guard =` attribute becomes an explicit check at the start of each guarded method. Candid serialisation, `ManualReply` and the `thread_local!`/`RefCell` wrappers are not modelled: their contents are class fields.
- `GLOBAL_CALLER_ID` and `set_global_caller_id` (lib.rs:25, 67-71) are not modelled. The global is written there and never read.
- `Principal::from_text` and `Principal::to_string` are not modelled. Both are foreign text codecs, so they are the `parse` and `toText` parameters of `GetById` and `GetSelf`.
- Text.Lower is ASCII-only. Rust's `to_lowercase` is Unicode-aware, and that mapping is not modelled.
- KeyValueStore.KeyValueCanister.GetById: a parse failure traps in the source and aborts only that call. Here it is a `Failure` value carrying the fixed message, without the decoder's error detail.
- ProfileStore.ProfileCanister.Search is weaker than the source about which owner is returned. The model leaves the order of owners open, while a Rust `HashMap` returns the same owner on repeated calls without writes. The same applies to the element order of `Iterate` and `Entries`.
- The browser front end (`index.js`) is not modelled. It is UI code and calls a `greet` method that the backend does not define.
- Concurrency is not modelled. The runtime serialises calls, so each method is one atomic step.
