/** app/api/admin/keys/route.ts: the admin endpoint that lists the stored Gemini keys
    masked (GET) and merges new keys into them (POST). The module-level
    `storedGeminiKeys` and the process environment are the fields of a `KeysRoute`; the key
    file's content and whether writing it succeeds are parameters. */
module AdminKeys {
  import opened Wrappers
  import opened Strings
  import opened EnvValidation
  import opened KeyStorage

  const LOAD_FAILED := "Failed to load keys"
  const SAVE_KEYS_FAILED := "Failed to save keys"

  /** How many leading characters of a key stay visible. */
  const VISIBLE := 8

  /** A value in the posted `keys` object: a string, or anything else. */
  datatype JsonValue = JString(s: string) | NotAString

  datatype GetResponse =
    | KeysListed(keys: KeyList, totalKeys: nat, workingKeys: nat)
    | GetFailed(status: nat, error: string)

  datatype PostResponse =
    | KeysSaved(totalKeys: nat, workingKeys: nat)
    | PostFailed(status: nat, error: string)

  /** `maskKey(key)`: the first eight characters, then one '*' per remaining character. */
  function MaskKey(key: string): (masked: string)
    ensures |masked| == |key|
    ensures forall i :: 0 <= i < |key| ==> masked[i] == if i < VISIBLE then key[i] else '*'
  {
    if key == "" then ""
    else if |key| <= VISIBLE then key
    else key[..VISIBLE] + Repeat('*', |key| - VISIBLE)
  }

  /** A key of at most eight characters, the empty key among them, is shown in full; a
      longer one shows nothing past its eighth character, and masking twice is masking once. */
  lemma MaskKeyShows(key: string)
    ensures |key| <= VISIBLE ==> MaskKey(key) == key
    ensures MaskKey("") == ""
    ensures |key| > VISIBLE ==> MaskKey(key)[..VISIBLE] == key[..VISIBLE]
    ensures MaskKey(MaskKey(key)) == MaskKey(key)
  {
    var m := MaskKey(key);
    assert forall i :: 0 <= i < |key| ==> MaskKey(m)[i] == m[i];
    if |key| > VISIBLE {
      assert forall i :: 0 <= i < VISIBLE ==> m[..VISIBLE][i] == key[..VISIBLE][i];
    }
  }

  /** The masked copy GET sends: the same ids in the same order, each value masked. */
  function MaskedKeys(keys: KeyList): (masked: KeyList)
    ensures Ids(masked) == Ids(keys)
    ensures |masked| == |keys| && forall i :: 0 <= i < |keys| ==> masked[i].1 == MaskKey(keys[i].1)
  {
    var masked := seq(|keys|, i requires 0 <= i < |keys| => (keys[i].0, MaskKey(keys[i].1)));
    assert Ids(masked) == Ids(keys);
    masked
  }

  /** The value posted last for `id` as a string, None when no string was posted for it. */
  function LastString(entries: seq<(string, JsonValue)>, id: string): Option<string>
    decreases |entries|
  {
    if entries == [] then None
    else
      var last := entries[|entries| - 1];
      if last.0 == id && last.1.JString? then Some(last.1.s)
      else LastString(entries[..|entries| - 1], id)
  }

  /** The stored keys after POST's `forEach`: each string value is written under its id. */
  function MergeKeys(stored: KeyList, entries: seq<(string, JsonValue)>): (r: KeyList)
    ensures UniqueIds(stored) ==> UniqueIds(r)
    decreases |entries|
  {
    if entries == [] then stored
    else
      var last := entries[|entries| - 1];
      var before := MergeKeys(stored, entries[..|entries| - 1]);
      if last.1.JString? then Put(before, last.0, last.1.s) else before
  }

  /** The environment after POST's `forEach`: a string `key1` also sets GEMINI_API_KEY. */
  function MergedEnv(env: Env, entries: seq<(string, JsonValue)>): Env
    decreases |entries|
  {
    if entries == [] then env
    else
      var last := entries[|entries| - 1];
      var before := MergedEnv(env, entries[..|entries| - 1]);
      if last.0 == "key1" && last.1.JString? then before[PRIMARY_KEY := last.1.s] else before
  }

  /** After the merge, an id holds the last string posted for it, and an id with no string
      posted keeps its stored value (or stays absent). */
  lemma {:induction false} MergeLookup(stored: KeyList, entries: seq<(string, JsonValue)>, id: string)
    ensures Get(MergeKeys(stored, entries), id)
            == if LastString(entries, id).Some? then LastString(entries, id) else Get(stored, id)
    decreases |entries|
  {
    if entries != [] {
      MergeLookup(stored, entries[..|entries| - 1], id);
    }
  }

  /** The merge deletes nothing and moves nothing: the stored ids come first, in order. */
  lemma {:induction false} MergeKeepsIds(stored: KeyList, entries: seq<(string, JsonValue)>)
    ensures |Ids(stored)| <= |Ids(MergeKeys(stored, entries))|
    ensures Ids(MergeKeys(stored, entries))[..|stored|] == Ids(stored)
    decreases |entries|
  {
    if entries != [] {
      var last := entries[|entries| - 1];
      var before := MergeKeys(stored, entries[..|entries| - 1]);
      MergeKeepsIds(stored, entries[..|entries| - 1]);
      if last.1.JString? && last.0 !in Ids(before) {
        assert Ids(before + [(last.0, last.1.s)]) == Ids(before) + [last.0];
        assert (Ids(before) + [last.0])[..|stored|] == Ids(before)[..|stored|];
      }
    }
  }

  /** GEMINI_API_KEY ends up as the last string posted for `key1`; nothing else in the
      environment changes. */
  lemma {:induction false} MergedEnvPrimary(env: Env, entries: seq<(string, JsonValue)>)
    ensures LastString(entries, "key1").Some? ==>
              MergedEnv(env, entries) == env[PRIMARY_KEY := LastString(entries, "key1").value]
    ensures LastString(entries, "key1").None? ==> MergedEnv(env, entries) == env
    decreases |entries|
  {
    if entries != [] {
      MergedEnvPrimary(env, entries[..|entries| - 1]);
    }
  }

  /** GET's `forEach` writing each masked value into a fresh object. */
  method MaskAll(keys: KeyList) returns (maskedKeys: KeyList)
    requires UniqueIds(keys)
    ensures maskedKeys == MaskedKeys(keys)
  {
    maskedKeys := [];
    var i := 0;
    while i < |keys|
      invariant 0 <= i <= |keys|
      invariant maskedKeys == MaskedKeys(keys[..i])
    {
      var (keyId, keyValue) := keys[i];
      assert keyId !in Ids(maskedKeys) by {
        assert forall j :: 0 <= j < i ==> Ids(maskedKeys)[j] == keys[j].0;
      }
      maskedKeys := Put(maskedKeys, keyId, MaskKey(keyValue));
      assert maskedKeys == MaskedKeys(keys[..i + 1]);
      i := i + 1;
    }
    assert keys[..i] == keys;
  }

  /** The module-level `storedGeminiKeys` and the process environment it writes. */
  class KeysRoute {
    var stored: KeyList
    var env: Env

    ghost predicate Valid()
      reads this
    {
      UniqueIds(stored)
    }

    /** The module imported: `loadKeysFromStorage()` runs once against the environment and
        the key file, and what it returns is the stored list. */
    constructor(env0: Env, keyFile: Option<KeyList>)
      requires keyFile.Some? ==> UniqueIds(keyFile.value)
      requires LoadedKeys(env0, keyFile).Ok?
      ensures stored == LoadedKeys(env0, keyFile).value && env == env0
      ensures Valid()
    {
      var loaded := LoadKeysFromStorage(env0, keyFile);
      LoadedKeysUnique(env0, keyFile);
      stored := loaded.value;
      env := env0;
    }

    /** `GET()`: reload the keys, then list them masked with the two totals; a load that
        throws leaves the stored keys as they were. */
    method Get(keyFile: Option<KeyList>) returns (response: GetResponse)
      requires Valid()
      requires keyFile.Some? ==> UniqueIds(keyFile.value)
      modifies this
      ensures Valid() && env == old(env)
      ensures LoadedKeys(env, keyFile).Err? ==> response == GetFailed(500, LOAD_FAILED) && stored == old(stored)
      ensures LoadedKeys(env, keyFile).Ok? ==>
                stored == LoadedKeys(env, keyFile).value
                && response == KeysListed(MaskedKeys(stored), |stored|, GetWorkingKeysCount(stored))
    {
      var loaded := LoadKeysFromStorage(env, keyFile);
      if loaded.Err? {
        return GetFailed(500, LOAD_FAILED);
      }
      LoadedKeysUnique(env, keyFile);
      stored := loaded.value;
      var maskedKeys := MaskAll(stored);
      return KeysListed(maskedKeys, |stored|, GetWorkingKeysCount(stored));
    }

    /** `POST(request)` with the request's `keys` object (None when the body cannot be read
        or has no `keys` object): every string value is stored, a string `key1` also becomes
        GEMINI_API_KEY, then the keys are saved. A failed save answers 500, but the keys
        and the environment stay changed in memory. */
    method Post(entries: Option<seq<(string, JsonValue)>>, writeOk: bool) returns (response: PostResponse)
      requires Valid()
      modifies this
      ensures Valid()
      ensures entries.None? ==>
                response == PostFailed(500, SAVE_KEYS_FAILED) && stored == old(stored) && env == old(env)
      ensures entries.Some? ==>
                stored == MergeKeys(old(stored), entries.value) && env == MergedEnv(old(env), entries.value)
      ensures entries.Some? && SaveKeysToStorage(env, stored, writeOk).Err? ==>
                response == PostFailed(500, SAVE_KEYS_FAILED)
      ensures entries.Some? && SaveKeysToStorage(env, stored, writeOk).Ok? ==>
                response == KeysSaved(|stored|, GetWorkingKeysCount(stored))
    {
      if entries.None? {
        return PostFailed(500, SAVE_KEYS_FAILED);
      }
      var items := entries.value;
      var i := 0;
      while i < |items|
        invariant 0 <= i <= |items|
        invariant stored == MergeKeys(old(stored), items[..i])
        invariant env == MergedEnv(old(env), items[..i])
        invariant UniqueIds(stored)
      {
        var (keyId, keyValue) := items[i];
        assert items[..i + 1][..i] == items[..i];
        if keyValue.JString? {
          stored := Put(stored, keyId, keyValue.s);
          if keyId == "key1" {
            env := env[PRIMARY_KEY := keyValue.s];
          }
        }
        i := i + 1;
      }
      assert items[..i] == items;
      var saved := SaveKeysToStorage(env, stored, writeOk);
      if saved.Err? {
        return PostFailed(500, SAVE_KEYS_FAILED);
      }
      return KeysSaved(|stored|, GetWorkingKeysCount(stored));
    }
  }
}
