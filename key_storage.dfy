/** lib/key-storage.ts: where the Gemini API keys come from. In production they are read
    from the environment (`GEMINI_API_KEY` as `key1`, then `GEMINI_API_KEY_1`, `_2`, ... as
    `key2`, `key3`, ... up to the first gap); in development from a JSON key file, or from
    `GEMINI_API_KEY` alone when there is no readable file.

    A key object is an association list in insertion order, which is the order JavaScript
    enumerates its (non-numeric) properties in. The key file's content is a parameter:
    None when the file is absent or does not parse. */
module KeyStorage {
  import opened Wrappers
  import opened Strings
  import opened EnvValidation

  /** A `{ [keyId: string]: string }` object, property by property in insertion order. */
  type KeyList = seq<(string, string)>

  const BUILD_PHASE := "phase-production-build"
  const SAVE_FAILED := "Failed to save keys to persistent storage"

  /** A JavaScript object never holds the same property twice. */
  predicate UniqueIds(keys: KeyList) {
    forall i, j :: 0 <= i < j < |keys| ==> keys[i].0 != keys[j].0
  }

  /** `Object.keys(keys)`. */
  function Ids(keys: KeyList): (ids: seq<string>)
    ensures |ids| == |keys| && forall i :: 0 <= i < |keys| ==> ids[i] == keys[i].0
  {
    seq(|keys|, i requires 0 <= i < |keys| => keys[i].0)
  }

  /** The position of `id` among the identifiers, None when it is absent. */
  function IdIndex(ids: seq<string>, id: string): (r: Option<nat>)
    ensures r.Some? ==> r.value < |ids| && ids[r.value] == id
    ensures r.Some? ==> forall j :: 0 <= j < r.value ==> ids[j] != id
    ensures r.None? <==> id !in ids
    decreases |ids|
  {
    if ids == [] then None
    else if ids[0] == id then Some(0)
    else match IdIndex(ids[1..], id)
      case None => None
      case Some(k) => Some(k + 1)
  }

  lemma {:induction false} IdIndexAppend(ids: seq<string>, id: string, other: string)
    requires other != id
    ensures IdIndex(ids + [id], other) == IdIndex(ids, other)
    decreases |ids|
  {
    if ids != [] {
      assert (ids + [id])[1..] == ids[1..] + [id];
      IdIndexAppend(ids[1..], id, other);
    }
  }

  /** `keys[id]`, None when the property is absent. */
  function Get(keys: KeyList, id: string): (r: Option<string>)
    ensures r.None? <==> id !in Ids(keys)
  {
    match IdIndex(Ids(keys), id)
    case None => None
    case Some(i) => Some(keys[i].1)
  }

  /** `keys[id] = value`: an existing property keeps its place, a new one goes last. */
  function Put(keys: KeyList, id: string, value: string): (r: KeyList)
    ensures Get(r, id) == Some(value)
    ensures forall other :: other != id ==> Get(r, other) == Get(keys, other)
    ensures id in Ids(keys) ==> Ids(r) == Ids(keys)
    ensures id !in Ids(keys) ==> r == keys + [(id, value)]
    ensures UniqueIds(keys) ==> UniqueIds(r)
  {
    match IdIndex(Ids(keys), id)
    case None =>
      var r := keys + [(id, value)];
      assert Ids(r) == Ids(keys) + [id];
      forall other | other != id
        ensures IdIndex(Ids(r), other) == IdIndex(Ids(keys), other)
      {
        IdIndexAppend(Ids(keys), id, other);
      }
      r
    case Some(i) =>
      var r := keys[i := (id, value)];
      assert Ids(r) == Ids(keys);
      r
  }

  /** `key${n}`, the identifier a key is stored under. */
  function KeyId(n: nat): string {
    "key" + NatToString(n)
  }

  /** `GEMINI_API_KEY_${i}`, a numbered key variable. */
  function NumberedKeyVar(i: nat): string {
    "GEMINI_API_KEY_" + NatToString(i)
  }

  lemma KeyIdInjective(a: nat, b: nat)
    requires KeyId(a) == KeyId(b)
    ensures a == b
  {
    assert KeyId(a)[3..] == NatToString(a);
    assert KeyId(b)[3..] == NatToString(b);
    NatToStringInjective(a, b);
  }

  lemma NumberedKeyVarInjective(a: nat, b: nat)
    requires NumberedKeyVar(a) == NumberedKeyVar(b)
    ensures a == b
  {
    assert NumberedKeyVar(a)[15..] == NatToString(a);
    assert NumberedKeyVar(b)[15..] == NatToString(b);
    NatToStringInjective(a, b);
  }

  predicate IsBuildTime(env: Env) {
    "NEXT_PHASE" in env && env["NEXT_PHASE"] == BUILD_PHASE
  }

  /** `isProductionEnvironment()`: the same test the loader and the saver make. */
  predicate IsProductionEnvironment(env: Env) {
    IsProduction(env)
  }

  /** `GEMINI_API_KEY_1` to `GEMINI_API_KEY_n` are all set. */
  predicate ConsecutiveSet(env: Env, n: nat) {
    forall j: nat :: 1 <= j <= n ==> IsSet(env, NumberedKeyVar(j))
  }

  /** The n numbered variable names are n distinct names. */
  lemma {:induction false} NumberedNamesCount(n: nat)
    ensures |set j: nat | 1 <= j <= n :: NumberedKeyVar(j)| == n
  {
    if n > 0 {
      var before := set j: nat | 1 <= j <= n - 1 :: NumberedKeyVar(j);
      assert (set j: nat | 1 <= j <= n :: NumberedKeyVar(j)) == before + {NumberedKeyVar(n)};
      if NumberedKeyVar(n) in before {
        var j: nat :| 1 <= j <= n - 1 && NumberedKeyVar(j) == NumberedKeyVar(n);
        NumberedKeyVarInjective(j, n);
      }
      NumberedNamesCount(n - 1);
    }
  }

  /** An environment holds only finitely many numbered keys in a row. */
  lemma NumberedVarsBound(env: Env, n: nat)
    requires ConsecutiveSet(env, n)
    ensures n <= |env.Keys|
  {
    var names := set j: nat | 1 <= j <= n :: NumberedKeyVar(j);
    assert names <= env.Keys;
    NumberedNamesCount(n);
    SubsetCardinality(names, env.Keys);
  }

  lemma {:induction false} SubsetCardinality<T>(a: set<T>, b: set<T>)
    requires a <= b
    ensures |a| <= |b|
    decreases |a|
  {
    if a != {} {
      var x :| x in a;
      SubsetCardinality(a - {x}, b - {x});
    }
  }

  /** So there is always a first gap. */
  lemma GapExists(env: Env)
    ensures exists n: nat :: ConsecutiveSet(env, n) && !IsSet(env, NumberedKeyVar(n + 1))
  {
    var n: nat := 0;
    while IsSet(env, NumberedKeyVar(n + 1))
      invariant ConsecutiveSet(env, n)
      decreases |env.Keys| - n
    {
      NumberedVarsBound(env, n + 1);
      n := n + 1;
    }
  }

  /** The number of numbered keys before the first gap. */
  ghost function ConsecutiveCount(env: Env): (n: nat)
    ensures ConsecutiveSet(env, n) && !IsSet(env, NumberedKeyVar(n + 1))
  {
    GapExists(env);
    var n: nat :| ConsecutiveSet(env, n) && !IsSet(env, NumberedKeyVar(n + 1));
    n
  }

  /** The first gap is unique. */
  lemma ConsecutiveCountUnique(env: Env, n: nat)
    requires ConsecutiveSet(env, n) && !IsSet(env, NumberedKeyVar(n + 1))
    ensures n == ConsecutiveCount(env)
  {
    var m := ConsecutiveCount(env);
    assert !(n < m) && !(m < n);
  }

  /** `{ key1: GEMINI_API_KEY }` when that variable is set, otherwise `{}`. */
  function PrimaryKeys(env: Env): KeyList {
    if IsSet(env, PRIMARY_KEY) then [(KeyId(1), env[PRIMARY_KEY])] else []
  }

  /** `key2` to `key{n+1}` from `GEMINI_API_KEY_1` to `GEMINI_API_KEY_n`. */
  function NumberedKeys(env: Env, n: nat): (keys: KeyList)
    requires ConsecutiveSet(env, n)
  {
    seq(n, j requires 0 <= j < n => (KeyId(j + 2), env[NumberedKeyVar(j + 1)]))
  }

  function MissingVarsError(missing: seq<string>): string {
    "Missing required environment variables: " + Join(missing, ", ")
  }

  /** The keys production reads from the environment. */
  ghost function ProductionKeyList(env: Env): KeyList {
    PrimaryKeys(env) + NumberedKeys(env, ConsecutiveCount(env))
  }

  /** What `loadKeysFromStorage()` returns (Ok) or throws (Err). */
  ghost function LoadedKeys(env: Env, keyFile: Option<KeyList>): Result<KeyList, string> {
    if !IsBuildTime(env) && !ValidateEnvironment(env).isValid && IsProduction(env) then
      Err(MissingVarsError(ValidateEnvironment(env).missingVars))
    else if IsProduction(env) then
      Ok(ProductionKeyList(env))
    else if keyFile.Some? then
      Ok(keyFile.value)
    else
      Ok(PrimaryKeys(env))
  }

  /** `loadKeysFromStorage()`. */
  method LoadKeysFromStorage(env: Env, keyFile: Option<KeyList>) returns (r: Result<KeyList, string>)
    ensures r == LoadedKeys(env, keyFile)
  {
    var isProduction := IsProduction(env);
    var isBuildTime := IsBuildTime(env);
    if !isBuildTime {
      var validation := ValidateEnvironment(env);
      if !validation.isValid && isProduction {
        return Err(MissingVarsError(validation.missingVars));
      }
    }
    if isProduction {
      var productionKeys: KeyList := [];
      if IsSet(env, PRIMARY_KEY) {
        productionKeys := Put(productionKeys, KeyId(1), env[PRIMARY_KEY]);
      }
      assert productionKeys == PrimaryKeys(env);
      productionKeys := LoadNumberedKeys(env, productionKeys);
      return Ok(productionKeys);
    }
    if keyFile.Some? {
      return Ok(keyFile.value);
    }
    var defaultKeys: KeyList := [];
    if IsSet(env, PRIMARY_KEY) {
      defaultKeys := Put(defaultKeys, KeyId(1), env[PRIMARY_KEY]);
    }
    assert defaultKeys == PrimaryKeys(env);
    return Ok(defaultKeys);
  }

  /** The loop over `GEMINI_API_KEY_1`, `GEMINI_API_KEY_2`, ... up to the first one unset,
      storing each under the next `key{n}`. */
  method LoadNumberedKeys(env: Env, primaryKeys: KeyList) returns (keys: KeyList)
    requires primaryKeys == PrimaryKeys(env)
    ensures keys == ProductionKeyList(env)
  {
    keys := primaryKeys;
    var keyIndex: nat := 1;
    while IsSet(env, NumberedKeyVar(keyIndex))
      invariant 1 <= keyIndex
      invariant ConsecutiveSet(env, keyIndex - 1)
      invariant keys == PrimaryKeys(env) + NumberedKeys(env, keyIndex - 1)
      decreases |env.Keys| - keyIndex
    {
      NumberedVarsBound(env, keyIndex);
      NumberedKeyAdded(env, keyIndex - 1);
      keys := Put(keys, KeyId(keyIndex + 1), env[NumberedKeyVar(keyIndex)]);
      keyIndex := keyIndex + 1;
    }
    ConsecutiveCountUnique(env, keyIndex - 1);
  }

  /** Storing the next numbered variable extends the key list by one entry. */
  lemma NumberedKeyAdded(env: Env, n: nat)
    requires ConsecutiveSet(env, n + 1)
    ensures Put(PrimaryKeys(env) + NumberedKeys(env, n), KeyId(n + 2), env[NumberedKeyVar(n + 1)])
            == PrimaryKeys(env) + NumberedKeys(env, n + 1)
  {
    FreshNumberedId(env, n);
    assert NumberedKeys(env, n + 1) == NumberedKeys(env, n) + [(KeyId(n + 2), env[NumberedKeyVar(n + 1)])];
  }

  /** The identifier the scan adds next is not yet taken. */
  lemma FreshNumberedId(env: Env, n: nat)
    requires ConsecutiveSet(env, n)
    ensures KeyId(n + 2) !in Ids(PrimaryKeys(env) + NumberedKeys(env, n))
  {
    var keys := PrimaryKeys(env) + NumberedKeys(env, n);
    if KeyId(n + 2) in Ids(keys) {
      var i :| 0 <= i < |keys| && keys[i].0 == KeyId(n + 2);
      if i < |PrimaryKeys(env)| {
        KeyIdInjective(1, n + 2);
      } else {
        var j := i - |PrimaryKeys(env)|;
        assert keys[i] == NumberedKeys(env, n)[j];
        KeyIdInjective(j + 2, n + 2);
      }
    }
  }

  /** Loading fails exactly at run time in production without `GEMINI_API_KEY`, and the
      message names the missing variables. */
  lemma LoadFailsIffProductionWithoutPrimary(env: Env, keyFile: Option<KeyList>)
    ensures LoadedKeys(env, keyFile).Err? <==>
            !IsBuildTime(env) && IsProduction(env) && !IsSet(env, PRIMARY_KEY)
    ensures LoadedKeys(env, keyFile).Err? ==>
            Contains(LoadedKeys(env, keyFile).error, PRIMARY_KEY)
  {
    if LoadedKeys(env, keyFile).Err? {
      var missing := ValidateEnvironment(env).missingVars;
      assert missing[0] == PRIMARY_KEY;
      MessageNamesFirst(missing);
    }
  }

  /** The error message names the first missing variable. */
  lemma MessageNamesFirst(missing: seq<string>)
    requires |missing| >= 1
    ensures Contains(MissingVarsError(missing), missing[0])
  {
    var msg := MissingVarsError(missing);
    var pre := "Missing required environment variables: ";
    if |missing| == 1 {
      assert msg == pre + missing[0];
    } else {
      assert msg == pre + missing[0] + ", " + Join(missing[1..], ", ");
    }
    assert OccursAt(msg, missing[0], |pre|);
    ContainsIffOccurs(msg, missing[0]);
  }

  /** In production the keys are `key1` (when the primary variable is set) followed by
      `key2` ... `key{n+1}` for the first n numbered variables, stopping at the first gap;
      the key file plays no part. */
  lemma ProductionKeys(env: Env, keyFile: Option<KeyList>, k: nat)
    requires IsProduction(env) && LoadedKeys(env, keyFile).Ok?
    ensures LoadedKeys(env, keyFile) == LoadedKeys(env, None)
    ensures IsSet(env, PRIMARY_KEY) ==> Get(LoadedKeys(env, keyFile).value, KeyId(1)) == Some(env[PRIMARY_KEY])
    ensures k >= 1 ==>
      (KeyId(k + 1) in Ids(LoadedKeys(env, keyFile).value) <==> ConsecutiveSet(env, k))
  {
    assert LoadedKeys(env, keyFile).value == ProductionKeyList(env);
    if k >= 1 {
      ProductionKeyIds(env, k);
    }
  }

  lemma ProductionKeyIds(env: Env, k: nat)
    requires k >= 1
    ensures KeyId(k + 1) in Ids(ProductionKeyList(env)) <==> ConsecutiveSet(env, k)
  {
    if ConsecutiveSet(env, k) {
      ConsecutiveKeyListed(env, k);
    }
    if KeyId(k + 1) in Ids(ProductionKeyList(env)) {
      ListedKeyConsecutive(env, k);
    }
  }

  /** Every variable up to the first gap gives a key. */
  lemma ConsecutiveKeyListed(env: Env, k: nat)
    requires k >= 1 && ConsecutiveSet(env, k)
    ensures KeyId(k + 1) in Ids(ProductionKeyList(env))
  {
    var n := ConsecutiveCount(env);
    var keys := ProductionKeyList(env);
    var p := |PrimaryKeys(env)|;
    assert k <= n;
    assert keys[p + (k - 1)].0 == KeyId(k + 1);
  }

  /** A key past the primary one comes from a variable before the first gap. */
  lemma ListedKeyConsecutive(env: Env, k: nat)
    requires k >= 1 && KeyId(k + 1) in Ids(ProductionKeyList(env))
    ensures ConsecutiveSet(env, k)
  {
    var n := ConsecutiveCount(env);
    var keys := ProductionKeyList(env);
    var p := |PrimaryKeys(env)|;
    var i :| 0 <= i < |keys| && keys[i].0 == KeyId(k + 1);
    if i < p {
      KeyIdInjective(1, k + 1);
    } else {
      assert keys[i] == NumberedKeys(env, n)[i - p];
      KeyIdInjective(i - p + 2, k + 1);
    }
  }

  /** Whatever is loaded is a proper key object: no identifier twice. */
  lemma LoadedKeysUnique(env: Env, keyFile: Option<KeyList>)
    requires keyFile.Some? ==> UniqueIds(keyFile.value)
    requires LoadedKeys(env, keyFile).Ok?
    ensures UniqueIds(LoadedKeys(env, keyFile).value)
  {
    if IsProduction(env) {
      ProductionKeysUnique(env);
    }
  }

  lemma ProductionKeysUnique(env: Env)
    ensures UniqueIds(ProductionKeyList(env))
  {
    var n := ConsecutiveCount(env);
    var keys := ProductionKeyList(env);
    var p := |PrimaryKeys(env)|;
    forall i, j | 0 <= i < j < |keys|
      ensures keys[i].0 != keys[j].0
    {
      assert keys[j] == NumberedKeys(env, n)[j - p];
      if i < p {
        if keys[j].0 == KeyId(1) {
          KeyIdInjective(1, j - p + 2);
        }
      } else {
        assert keys[i] == NumberedKeys(env, n)[i - p];
        if keys[i].0 == keys[j].0 {
          KeyIdInjective(i - p + 2, j - p + 2);
        }
      }
    }
  }

  /** `saveKeysToStorage(keys)`: Ok(None) when the save is skipped in production,
      Ok(Some(content)) for the new file content, Err when writing fails. */
  function SaveKeysToStorage(env: Env, keys: KeyList, writeOk: bool): (r: Result<Option<KeyList>, string>)
    ensures r.Err? ==> r.error == SAVE_FAILED
  {
    if IsProduction(env) then Ok(None)
    else if writeOk then Ok(Some(keys))
    else Err(SAVE_FAILED)
  }

  /** Saving is skipped exactly in production, and in development what is saved is loaded
      back unchanged. */
  lemma SaveThenLoad(env: Env, keys: KeyList, writeOk: bool)
    ensures SaveKeysToStorage(env, keys, writeOk) == Ok(None) <==> IsProductionEnvironment(env)
    ensures SaveKeysToStorage(env, keys, writeOk) == Ok(Some(keys)) ==>
            LoadedKeys(env, Some(keys)) == Ok(keys)
  {
  }

  /** `getWorkingKeysCount(keys)`: the number of keys whose value is not blank. */
  function GetWorkingKeysCount(keys: KeyList): (n: nat)
    ensures n <= |keys|
    ensures n == |keys| <==> forall i :: 0 <= i < |keys| ==> HasText(keys[i].1)
    ensures n == 0 <==> forall i :: 0 <= i < |keys| ==> !HasText(keys[i].1)
    decreases |keys|
  {
    if keys == [] then 0
    else
      var rest := GetWorkingKeysCount(keys[1..]);
      assert forall i :: 1 <= i < |keys| ==> keys[i] == keys[1..][i - 1];
      (if HasText(keys[0].1) then 1 else 0) + rest
  }

  /** The count adds up over consecutive parts of a key object. */
  lemma {:induction false} WorkingKeysCountAppend(a: KeyList, b: KeyList)
    ensures GetWorkingKeysCount(a + b) == GetWorkingKeysCount(a) + GetWorkingKeysCount(b)
    decreases |a|
  {
    if a == [] {
      assert a + b == b;
    } else {
      assert (a + b)[1..] == a[1..] + b;
      WorkingKeysCountAppend(a[1..], b);
    }
  }
}
