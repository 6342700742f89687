/** The KV request handlers: listing a namespace (with the key search),
    saving an entry from the form, and deleting a key. The handlers run
    their collaborator calls one after another; the concurrent fan-out of
    `Promise.all` is modelled in listing order. */
module KvRoutes {
  import opened Wrappers
  import opened Types
  import opened Strings
  import opened Bindings
  import opened Schemas
  import opened KvStore
  import opened KvPage

  /** `Object.entries(env).find(([k]) => k === name)` finds something. */
  predicate HasNamed(env: Env, name: string) {
    exists i | 0 <= i < |env| :: env[i].0 == name
  }

  /** The same, also requiring the value to be classified as `kind`. */
  predicate HasNamedOfKind(env: Env, name: string, kind: EnvKind) {
    exists i | 0 <= i < |env| :: env[i].0 == name && KindOf(env[i].1) == kind
  }

  // ---------------------------------------------------------------------
  // Key search

  /** The keys whose lower-cased name contains `term`, in listing order.
      `lower` is the runtime's `toLowerCase`. */
  function MatchingKeys(keys: seq<KeyInfo>, term: string, lower: string -> string): seq<KeyInfo>
    decreases |keys|
  {
    if |keys| == 0 then []
    else if Includes(lower(keys[0].name), term) then [keys[0]] + MatchingKeys(keys[1..], term, lower)
    else MatchingKeys(keys[1..], term, lower)
  }

  /** The search: an absent or empty term keeps every key. */
  function FilterKeys(keys: seq<KeyInfo>, search: Option<string>, lower: string -> string): seq<KeyInfo> {
    if search.None? || search.value == "" then keys
    else MatchingKeys(keys, lower(search.value), lower)
  }

  /** The search keeps exactly the keys whose lower-cased name contains the
      lower-cased term. */
  lemma {:induction false} MatchingKeysMembers(keys: seq<KeyInfo>, term: string, lower: string -> string, x: KeyInfo)
    ensures x in MatchingKeys(keys, term, lower) <==> x in keys && Includes(lower(x.name), term)
    decreases |keys|
  {
    if |keys| > 0 {
      MatchingKeysMembers(keys[1..], term, lower, x);
      assert keys == [keys[0]] + keys[1..];
    }
  }

  /** Filtering a listing made of two parts filters each part and keeps
      them in order: the search never reorders keys. */
  lemma {:induction false} MatchingKeysAppend(a: seq<KeyInfo>, b: seq<KeyInfo>, term: string, lower: string -> string)
    ensures MatchingKeys(a + b, term, lower) == MatchingKeys(a, term, lower) + MatchingKeys(b, term, lower)
    decreases |a|
  {
    if |a| == 0 {
      assert a + b == b;
    } else {
      assert (a + b)[1..] == a[1..] + b;
      MatchingKeysAppend(a[1..], b, term, lower);
    }
  }

  /** The search result is no longer than the listing, and all of it when
      the term is absent or empty. */
  lemma {:induction false} FilterKeysShape(keys: seq<KeyInfo>, search: Option<string>, lower: string -> string)
    ensures |FilterKeys(keys, search, lower)| <= |keys|
    ensures search.None? || search.value == "" ==> FilterKeys(keys, search, lower) == keys
    ensures forall x :: x in FilterKeys(keys, search, lower) ==> x in keys
  {
    if !(search.None? || search.value == "") {
      MatchingKeysLength(keys, lower(search.value), lower);
      forall x | x in FilterKeys(keys, search, lower) ensures x in keys {
        MatchingKeysMembers(keys, lower(search.value), lower, x);
      }
    }
  }

  lemma {:induction false} MatchingKeysLength(keys: seq<KeyInfo>, term: string, lower: string -> string)
    ensures |MatchingKeys(keys, term, lower)| <= |keys|
    decreases |keys|
  {
    if |keys| > 0 {
      MatchingKeysLength(keys[1..], term, lower);
    }
  }

  // ---------------------------------------------------------------------
  // GET /kv/:kvId

  const ErrorLoadingValue: string := "[Error loading value]"

  /** One listed key with its value: the text `get` returned, `JSON.stringify`
      of `null` when it returned nothing, the sentinel when it threw. */
  function ListedRow(k: KeyInfo, values: map<string, string>, getErrors: map<string, string>): KvRow {
    KvRow(k.name, k.expiration, k.metadata,
      if k.name in getErrors then ErrorLoadingValue
      else if k.name in values then values[k.name]
      else "null")
  }

  /** The KV data the list route hands to the page: `None` (undefined) when
      `kvId` is not a KV namespace binding, no rows when `list()` throws, and
      otherwise one row per key the search keeps, in order, where a key
      whose `get` throws shows the sentinel and does not stop the others. */
  method LoadKvData(env: Env, kvId: string, search: Option<string>, lower: string -> string, kv: KvNamespace)
    returns (kvData: Option<seq<KvRow>>)
    ensures kvData.None? <==> !HasNamedOfKind(env, kvId, KVNamespace)
    ensures kvData.Some? && kv.listError.Some? ==> kvData.value == []
    ensures kvData.Some? && kv.listError.None? ==>
      var keys := FilterKeys(kv.keys, search, lower);
      && |kvData.value| == |keys|
      && forall j :: 0 <= j < |keys| ==> kvData.value[j] == ListedRow(keys[j], kv.values, kv.getErrors)
  {
    if !HasNamedOfKind(env, kvId, KVNamespace) {
      return None;
    }
    var listed := kv.List();
    if listed.Err? {
      return Some([]);
    }
    var keys := FilterKeys(listed.value, search, lower);
    var rows: seq<KvRow> := [];
    var i := 0;
    while i < |keys|
      invariant 0 <= i <= |keys|
      invariant |rows| == i
      invariant forall j :: 0 <= j < i ==> rows[j] == ListedRow(keys[j], kv.values, kv.getErrors)
    {
      var got := kv.Get(keys[i].name);
      var text := match got
        case Err(_) => ErrorLoadingValue
        case Ok(Some(s)) => s
        case Ok(None) => "null";
      rows := rows + [KvRow(keys[i].name, keys[i].expiration, keys[i].metadata, text)];
      i := i + 1;
    }
    kvData := Some(rows);
  }

  // ---------------------------------------------------------------------
  // Relisting after a write or delete

  const BinaryOrJson: string := "[binary/json]"

  /** A relisted key: its text value, or "[binary/json]" when `get` returned
      nothing. */
  function RelistRow(k: KeyInfo, values: map<string, string>): KvRow {
    KvRow(k.name, k.expiration, k.metadata, if k.name in values then values[k.name] else BinaryOrJson)
  }

  /** The error of the first listed key whose `get` throws, if any. */
  function FirstGetError(keys: seq<KeyInfo>, getErrors: map<string, string>): (e: Option<string>)
    ensures e.None? <==> forall j :: 0 <= j < |keys| ==> keys[j].name !in getErrors
    decreases |keys|
  {
    if |keys| == 0 then None
    else if keys[0].name in getErrors then Some(getErrors[keys[0].name])
    else
      var rest := FirstGetError(keys[1..], getErrors);
      assert rest.None? ==> forall j :: 1 <= j < |keys| ==> keys[j].name !in getErrors by {
        if rest.None? {
          forall j | 1 <= j < |keys| ensures keys[j].name !in getErrors {
            assert keys[j] == keys[1..][j - 1];
          }
        }
      }
      rest
  }

  lemma {:induction false} FirstGetErrorAt(keys: seq<KeyInfo>, getErrors: map<string, string>, i: nat)
    requires i < |keys| && keys[i].name in getErrors
    requires forall j :: 0 <= j < i ==> keys[j].name !in getErrors
    ensures FirstGetError(keys, getErrors) == Some(getErrors[keys[i].name])
    decreases i
  {
    if i > 0 {
      FirstGetErrorAt(keys[1..], getErrors, i - 1);
    }
  }

  /** List, then get every key: fails with the listing's error, or with the
      first failing `get`; otherwise one row per listed key, in order. */
  function Relisted(keys: seq<KeyInfo>, values: map<string, string>, getErrors: map<string, string>,
                    listError: Option<string>): Result<seq<KvRow>, string>
  {
    if listError.Some? then Err(listError.value)
    else if FirstGetError(keys, getErrors).Some? then Err(FirstGetError(keys, getErrors).value)
    else Ok(seq(|keys|, j requires 0 <= j < |keys| => RelistRow(keys[j], values)))
  }

  method Relist(kv: KvNamespace) returns (r: Result<seq<KvRow>, string>)
    ensures r == Relisted(kv.keys, kv.values, kv.getErrors, kv.listError)
  {
    var listed := kv.List();
    if listed.Err? {
      return Err(listed.error);
    }
    var keys := listed.value;
    var rows: seq<KvRow> := [];
    var i := 0;
    while i < |keys|
      invariant 0 <= i <= |keys|
      invariant |rows| == i
      invariant forall j :: 0 <= j < i ==> keys[j].name !in kv.getErrors
      invariant forall j :: 0 <= j < i ==> rows[j] == RelistRow(keys[j], kv.values)
    {
      var got := kv.Get(keys[i].name);
      if got.Err? {
        FirstGetErrorAt(keys, kv.getErrors, i);
        return Err(got.error);
      }
      var text := if got.value.Some? then got.value.value else BinaryOrJson;
      rows := rows + [KvRow(keys[i].name, keys[i].expiration, keys[i].metadata, text)];
      i := i + 1;
    }
    assert FirstGetError(keys, kv.getErrors).None?;
    var values := kv.values;
    assert rows == seq(|keys|, j requires 0 <= j < |keys| => RelistRow(keys[j], values));
    r := Ok(rows);
  }

  /** After a successful `put`, a relisting that succeeds shows the written
      entry with the written value; it fails only when the listing or some
      listed key's `get` throws. */
  lemma PutThenRelistShowsEntry(keys: seq<KeyInfo>, values: map<string, string>,
                                getErrors: map<string, string>, written: KeyInfo, value: string)
    ensures var r := Relisted(Upsert(keys, written), values[written.name := value], getErrors, None);
      && (r.Err? <==> exists j :: 0 <= j < |Upsert(keys, written)| && Upsert(keys, written)[j].name in getErrors)
      && (r.Ok? ==> KvRow(written.name, written.expiration, written.metadata, value) in r.value)
  {
    var ks := Upsert(keys, written);
    var r := Relisted(ks, values[written.name := value], getErrors, None);
    if r.Ok? {
      var j :| 0 <= j < |ks| && ks[j] == written;
      assert r.value[j] == RelistRow(written, values[written.name := value]);
    }
  }

  /** After a successful `delete`, a relisting that succeeds no longer shows
      the key. */
  lemma DeleteThenRelistOmitsKey(keys: seq<KeyInfo>, values: map<string, string>,
                                 getErrors: map<string, string>, key: string)
    ensures var r := Relisted(Remove(keys, key), values - {key}, getErrors, None);
      r.Ok? ==> forall row :: row in r.value ==> row.name != key
  {
    var ks := Remove(keys, key);
    var r := Relisted(ks, values - {key}, getErrors, None);
    if r.Ok? {
      forall row | row in r.value ensures row.name != key {
        var j :| 0 <= j < |r.value| && r.value[j] == row;
        assert ks[j] in ks;
      }
    }
  }

  // ---------------------------------------------------------------------
  // POST /kv/:kvId/entries

  datatype PostOutcome =
    | InvalidForm(entry: FormEntry, error: string)
    | SavedRows(rows: seq<KvRow>)
    | ServerError(message: string)
    | NotFound(message: string)

  /** The entry re-rendered after a failed validation: the body's own
      fields, the TTL as `Number(raw)` only when the raw text is non-empty. */
  function EchoEntry(body: FormBody): FormEntry {
    FormEntry(
      body.key,
      body.value,
      if body.expirationTtl.Some? && body.expirationTtl.value != "" then Some(NumberOf(body.expirationTtl.value)) else None,
      body.metadata)
  }

  /** `metadata ? JSON.parse(metadata) : undefined`: the JSON text whose
      parsed value is stored, when there is one. */
  function MetadataArg(metadata: Option<string>): Option<string> {
    if metadata.Some? && metadata.value != "" then metadata else None
  }

  function SaveError(message: string): string {
    "Error saving KV: " + message
  }

  const KvNotFound: string := "KV not found"

  method PostEntry(env: Env, kvId: string, body: FormBody, isJson: string -> bool, isNaN: string -> bool,
                   kv: KvNamespace)
    returns (out: PostOutcome)
    modifies kv`keys, kv`values
    ensures !Acceptable(body, isJson, isNaN) ==>
      && out == InvalidForm(EchoEntry(body), ErrorText(Issues(body, isJson, isNaN)))
      && kv.keys == old(kv.keys) && kv.values == old(kv.values)
    ensures Acceptable(body, isJson, isNaN) && !HasNamed(env, kvId) ==>
      out == NotFound(KvNotFound) && kv.keys == old(kv.keys) && kv.values == old(kv.values)
    ensures Acceptable(body, isJson, isNaN) && HasNamed(env, kvId) && old(kv.putError).Some? ==>
      && out == ServerError(SaveError(old(kv.putError).value))
      && kv.keys == old(kv.keys) && kv.values == old(kv.values)
    ensures Acceptable(body, isJson, isNaN) && HasNamed(env, kvId) && old(kv.putError).None? ==>
      var e := Validate(body, isJson, isNaN).value;
      && kv.keys == Upsert(old(kv.keys), KeyInfo(e.key, ExpiryOf(e.expirationTtl), MetadataArg(e.metadata)))
      && kv.values == old(kv.values)[e.key := e.value]
      && out == match Relisted(kv.keys, kv.values, kv.getErrors, kv.listError)
                case Ok(rows) => SavedRows(rows)
                case Err(msg) => ServerError(SaveError(msg))
  {
    ValidateExactlyAcceptable(body, isJson, isNaN);
    var validation := Validate(body, isJson, isNaN);
    if validation.Err? {
      return InvalidForm(EchoEntry(body), ErrorText(validation.error));
    }
    var e := validation.value;
    if !HasNamed(env, kvId) {
      return NotFound(KvNotFound);
    }
    var put := kv.Put(e.key, e.value, e.expirationTtl, MetadataArg(e.metadata));
    if put.Err? {
      return ServerError(SaveError(put.error));
    }
    var relisted := Relist(kv);
    match relisted
    case Ok(rows) => out := SavedRows(rows);
    case Err(msg) => out := ServerError(SaveError(msg));
  }

  // ---------------------------------------------------------------------
  // DELETE /kv/:kvId/entries/:key

  /** `Unhandled`: an exception no handler catches; the framework answers
      with its own error response. */
  datatype DeleteOutcome = RowsAfterDelete(rows: seq<KvRow>) | EmptyFragment | Unhandled

  /** The key is the decoded path parameter (`decode` is
      `decodeURIComponent`; `None` when it throws, which happens before the
      handler's `try`). The binding is looked up by name only. A missing
      binding, a failing `delete`, or a failing relisting all give an empty
      fragment. */
  method DeleteEntry(env: Env, kvId: string, rawKey: string, decode: string -> Option<string>,
                     kv: KvNamespace)
    returns (out: DeleteOutcome)
    modifies kv`keys, kv`values
    ensures decode(rawKey).None? ==>
      out == Unhandled && kv.keys == old(kv.keys) && kv.values == old(kv.values)
    ensures decode(rawKey).Some? && !HasNamed(env, kvId) ==>
      out == EmptyFragment && kv.keys == old(kv.keys) && kv.values == old(kv.values)
    ensures decode(rawKey).Some? && HasNamed(env, kvId) && old(kv.deleteError).Some? ==>
      out == EmptyFragment && kv.keys == old(kv.keys) && kv.values == old(kv.values)
    ensures decode(rawKey).Some? && HasNamed(env, kvId) && old(kv.deleteError).None? ==>
      var key := decode(rawKey).value;
      && kv.keys == Remove(old(kv.keys), key)
      && kv.values == old(kv.values) - {key}
      && out == match Relisted(kv.keys, kv.values, kv.getErrors, kv.listError)
                case Ok(rows) => RowsAfterDelete(rows)
                case Err(_) => EmptyFragment
  {
    var decoded := decode(rawKey);
    if decoded.None? {
      return Unhandled;
    }
    var key := decoded.value;
    if !HasNamed(env, kvId) {
      return EmptyFragment;
    }
    var deleted := kv.Delete(key);
    if deleted.Err? {
      return EmptyFragment;
    }
    var relisted := Relist(kv);
    match relisted
    case Ok(rows) => out := RowsAfterDelete(rows);
    case Err(_) => out := EmptyFragment;
  }

  /** Three listed keys where `get` of the second throws: three rows, the
      second carrying the sentinel. */
  lemma ListingSurvivesOneFailingGet(a: string, b: string, c: string)
    requires a != b && b != c && a != c
    ensures var keys := [KeyInfo(a, None, None), KeyInfo(b, None, None), KeyInfo(c, None, None)];
      var getErrors := map[b := "boom"];
      var values := map[a := "1", b := "2", c := "3"];
      && ListedRow(keys[0], values, getErrors).value == "1"
      && ListedRow(keys[1], values, getErrors).value == ErrorLoadingValue
      && ListedRow(keys[2], values, getErrors).value == "3"
  {
  }
}
