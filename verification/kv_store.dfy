/** The KV namespace the handlers talk to. It is an external store; the
    model keeps what `list()` returns, what `get()` returns per name, and, per
    operation, the error it throws when it fails (fault injection: a store
    whose `putError` is set throws on `put`). */
module KvStore {
  import opened Wrappers
  import opened Schemas

  /** When a key expires: an absolute time in seconds as `list()` reports
      it, or "now + ttl" for a TTL given to `put`. */
  datatype Expiry = At(seconds: int) | AfterTtl(ttl: Num)

  /** One element of `list().keys`. */
  datatype KeyInfo = KeyInfo(name: string, expiration: Option<Expiry>, metadata: Option<string>)

  function Names(keys: seq<KeyInfo>): (names: seq<string>)
    ensures |names| == |keys|
    ensures forall i :: 0 <= i < |keys| ==> names[i] == keys[i].name
  {
    seq(|keys|, i requires 0 <= i < |keys| => keys[i].name)
  }

  /** No two listed keys share a name, as in any real listing. */
  predicate UniqueNames(keys: seq<KeyInfo>) {
    forall i, j :: 0 <= i < j < |keys| ==> keys[i].name != keys[j].name
  }

  /** The listing after `put`: the key takes the place of the entry with its
      name, if one is listed, else it is added at the end; no other entry
      with that name survives. */
  function Upsert(keys: seq<KeyInfo>, k: KeyInfo): (r: seq<KeyInfo>)
    ensures k in r
    ensures forall x :: x in r ==> x == k || (x in keys && x.name != k.name)
    ensures forall x :: x in keys && x.name != k.name ==> x in r
    ensures forall x :: x in r && x.name == k.name ==> x == k
    decreases |keys|
  {
    if |keys| == 0 then [k]
    else if keys[0].name == k.name then [k] + Remove(keys[1..], k.name)
    else [keys[0]] + Upsert(keys[1..], k)
  }

  /** The listing after `delete(name)`. */
  function Remove(keys: seq<KeyInfo>, name: string): (r: seq<KeyInfo>)
    ensures forall x :: x in r <==> x in keys && x.name != name
    decreases |keys|
  {
    if |keys| == 0 then []
    else if keys[0].name == name then Remove(keys[1..], name)
    else [keys[0]] + Remove(keys[1..], name)
  }

  lemma ConsUnique(x: KeyInfo, rest: seq<KeyInfo>)
    requires UniqueNames(rest)
    requires forall y :: y in rest ==> y.name != x.name
    ensures UniqueNames([x] + rest)
  {
    var r := [x] + rest;
    forall i, j | 0 <= i < j < |r| ensures r[i].name != r[j].name {
      assert r[j] == rest[j - 1];
      if i > 0 {
        assert r[i] == rest[i - 1];
      }
    }
  }

  lemma HeadNameNotInTail(keys: seq<KeyInfo>)
    requires UniqueNames(keys) && |keys| > 0
    ensures UniqueNames(keys[1..])
    ensures forall y :: y in keys[1..] ==> y.name != keys[0].name
  {
    forall y | y in keys[1..] ensures y.name != keys[0].name {
      var m :| 0 <= m < |keys[1..]| && keys[1..][m] == y;
      assert keys[m + 1] == y;
    }
  }

  /** Deleting keeps names unique. */
  lemma {:induction false} RemoveKeepsUnique(keys: seq<KeyInfo>, name: string)
    requires UniqueNames(keys)
    ensures UniqueNames(Remove(keys, name))
    decreases |keys|
  {
    if |keys| > 0 {
      HeadNameNotInTail(keys);
      RemoveKeepsUnique(keys[1..], name);
      if keys[0].name != name {
        ConsUnique(keys[0], Remove(keys[1..], name));
      }
    }
  }

  /** Writing keeps names unique; with `Upsert`'s own contract, the
      written key is then the only entry with its name. */
  lemma {:induction false} UpsertKeepsUnique(keys: seq<KeyInfo>, k: KeyInfo)
    requires UniqueNames(keys)
    ensures UniqueNames(Upsert(keys, k))
    decreases |keys|
  {
    if |keys| > 0 {
      HeadNameNotInTail(keys);
      if keys[0].name == k.name {
        RemoveKeepsUnique(keys[1..], k.name);
        ConsUnique(k, Remove(keys[1..], k.name));
      } else {
        UpsertKeepsUnique(keys[1..], k);
        ConsUnique(keys[0], Upsert(keys[1..], k));
      }
    }
  }

  class KvNamespace {
    /** What `list()` returns as `keys`, in listing order. */
    var keys: seq<KeyInfo>
    /** What `get(name)` returns; a name absent here reads as `null`. */
    var values: map<string, string>
    /** Names whose `get` throws, with the error's message. */
    var getErrors: map<string, string>
    var listError: Option<string>
    var putError: Option<string>
    var deleteError: Option<string>

    constructor (keys: seq<KeyInfo>, values: map<string, string>)
      ensures this.keys == keys && this.values == values
      ensures getErrors == map[] && listError.None? && putError.None? && deleteError.None?
    {
      this.keys := keys;
      this.values := values;
      getErrors := map[];
      listError := None;
      putError := None;
      deleteError := None;
    }

    /** `list()` */
    method List() returns (r: Result<seq<KeyInfo>, string>)
      ensures listError.None? ==> r == Ok(keys)
      ensures listError.Some? ==> r == Err(listError.value)
    {
      if listError.Some? {
        r := Err(listError.value);
      } else {
        r := Ok(keys);
      }
    }

    /** `get(name)` as text: the value, or `None` for `null`. */
    method Get(name: string) returns (r: Result<Option<string>, string>)
      ensures name in getErrors ==> r == Err(getErrors[name])
      ensures name !in getErrors && name in values ==> r == Ok(Some(values[name]))
      ensures name !in getErrors && name !in values ==> r == Ok(None)
    {
      if name in getErrors {
        r := Err(getErrors[name]);
      } else if name in values {
        r := Ok(Some(values[name]));
      } else {
        r := Ok(None);
      }
    }

    /** `put(key, value, {expirationTtl, metadata})`; `metadata` is the JSON
        text whose parsed value is stored. */
    method Put(key: string, value: string, expirationTtl: Option<Num>, metadata: Option<string>)
      returns (r: Result<(), string>)
      modifies this`keys, this`values
      ensures old(putError).Some? ==>
        r == Err(old(putError).value) && keys == old(keys) && values == old(values)
      ensures old(putError).None? ==>
        && r.Ok?
        && keys == Upsert(old(keys), KeyInfo(key, ExpiryOf(expirationTtl), metadata))
        && values == old(values)[key := value]
    ensures UniqueNames(old(keys)) ==> UniqueNames(keys)
    {
      if putError.Some? {
        r := Err(putError.value);
      } else {
        if UniqueNames(keys) {
          UpsertKeepsUnique(keys, KeyInfo(key, ExpiryOf(expirationTtl), metadata));
        }
        keys := Upsert(keys, KeyInfo(key, ExpiryOf(expirationTtl), metadata));
        values := values[key := value];
        r := Ok(());
      }
    }

    /** `delete(key)` */
    method Delete(key: string) returns (r: Result<(), string>)
      modifies this`keys, this`values
      ensures old(deleteError).Some? ==>
        r == Err(old(deleteError).value) && keys == old(keys) && values == old(values)
      ensures old(deleteError).None? ==>
        r.Ok? && keys == Remove(old(keys), key) && values == old(values) - {key}
    ensures UniqueNames(old(keys)) ==> UniqueNames(keys)
    {
      if deleteError.Some? {
        r := Err(deleteError.value);
      } else {
        if UniqueNames(keys) {
          RemoveKeepsUnique(keys, key);
        }
        keys := Remove(keys, key);
        values := values - {key};
        r := Ok(());
      }
    }
  }

  function ExpiryOf(ttl: Option<Num>): Option<Expiry> {
    if ttl.Some? then Some(AfterTtl(ttl.value)) else None
  }
}
