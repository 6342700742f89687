/** The R2 request handlers: listing one level of a bucket, the metadata
    lookup behind the preview page, and serving an object's bytes. The
    bucket's `list`, `head` and `get` are given as functions; an `Err`
    stands for a call that throws. */
module R2Routes {
  import opened Wrappers
  import opened Types
  import opened Bindings
  import opened KvRoutes

  /** The parts of an `R2Object` the pages read. `uploaded` and the body
      are not modelled. */
  datatype R2Object = R2Object(key: string, size: nat, contentType: Option<string>, httpEtag: string)

  datatype ListOptions = ListOptions(prefix: Option<string>, delimiter: string)

  datatype R2Listing = R2Listing(objects: seq<R2Object>, delimitedPrefixes: seq<string>)

  /** What the list route hands to the page; both listing fields stay
      undefined when the bucket is missing or `list` throws. */
  datatype R2ListView = R2ListView(
    bucketName: string,
    objects: Option<seq<R2Object>>,
    delimitedPrefixes: Option<seq<string>>,
    currentPrefix: Option<string>)

  /** `c.req.query("prefix") || undefined` */
  function PrefixParam(query: Option<string>): (p: Option<string>)
    ensures p.None? <==> query.None? || query.value == ""
    ensures p.Some? ==> p == query
  {
    if query.Some? && query.value != "" then query else None
  }

  /** GET /r2/:bucketName. The bucket is found by name and kind; it is
      listed one level deep, always with "/" as the delimiter. */
  method ListBucket(env: Env, bucketName: string, prefixQuery: Option<string>,
                    list: ListOptions -> Result<R2Listing, string>)
    returns (view: R2ListView)
    ensures view.bucketName == bucketName
    ensures view.currentPrefix == PrefixParam(prefixQuery)
    ensures view.objects.Some? <==> view.delimitedPrefixes.Some?
    ensures view.objects.Some? <==>
      HasNamedOfKind(env, bucketName, R2Bucket) && list(ListOptions(PrefixParam(prefixQuery), "/")).Ok?
    ensures view.objects.Some? ==>
      var listing := list(ListOptions(PrefixParam(prefixQuery), "/")).value;
      view.objects.value == listing.objects && view.delimitedPrefixes.value == listing.delimitedPrefixes
  {
    var prefix := if prefixQuery.Some? && prefixQuery.value != "" then prefixQuery else None;
    var objects: Option<seq<R2Object>> := None;
    var delimitedPrefixes: Option<seq<string>> := None;
    if HasNamedOfKind(env, bucketName, R2Bucket) {
      var result := list(ListOptions(prefix, "/"));
      if result.Ok? {
        objects := Some(result.value.objects);
        delimitedPrefixes := Some(result.value.delimitedPrefixes);
      }
    }
    view := R2ListView(bucketName, objects, delimitedPrefixes, prefix);
  }

  /** What the preview route looks up: the decoded key and its metadata,
      or `PreviewUnhandled` when decoding throws, before the handler's `try`, and
      the framework answers with its own error response. */
  datatype PreviewLookup = Lookup(key: string, meta: Option<R2Object>) | PreviewUnhandled

  /** GET /r2/:bucketName/view/<key>. The key is the decoded path tail
      (`decode` is `decodeURIComponent`, `None` when it throws); the metadata
      is present only when the bucket exists and `head` finds the object. */
  method PreviewMeta(env: Env, bucketName: string, rawKey: string, decode: string -> Option<string>,
                     head: string -> Result<Option<R2Object>, string>)
    returns (lookup: PreviewLookup)
    ensures lookup.PreviewUnhandled? <==> decode(rawKey).None?
    ensures lookup.Lookup? ==> lookup.key == decode(rawKey).value
    ensures lookup.Lookup? ==>
      (lookup.meta.Some? <==>
        HasNamedOfKind(env, bucketName, R2Bucket) && head(lookup.key).Ok? && head(lookup.key).value.Some?)
    ensures lookup.Lookup? && lookup.meta.Some? ==> lookup.meta == head(lookup.key).value
  {
    var decoded := decode(rawKey);
    if decoded.None? {
      return PreviewUnhandled;
    }
    var key := decoded.value;
    var meta := None;
    if HasNamedOfKind(env, bucketName, R2Bucket) {
      var found := head(key);
      if found.Ok? && found.value.Some? {
        meta := found.value;
      }
    }
    lookup := Lookup(key, meta);
  }

  datatype RawResponse =
    | Served(obj: R2Object, etag: string)
    | FileNotFound(status: nat, message: string)
    | RawUnhandled

  /** GET /r2/:bucketName/raw/<key>: the object's bytes with its HTTP metadata
      and `etag` set to `httpEtag`; a missing bucket, a missing object and a
      throwing `get` all answer 404 "File not found". A key whose decoding
      throws is not caught (`RawUnhandled`). */
  method RawObject(env: Env, bucketName: string, rawKey: string, decode: string -> Option<string>,
                   getObject: string -> Result<Option<R2Object>, string>)
    returns (resp: RawResponse)
    ensures resp.RawUnhandled? <==> decode(rawKey).None?
    ensures resp.Served? <==>
      && decode(rawKey).Some? && HasNamedOfKind(env, bucketName, R2Bucket)
      && getObject(decode(rawKey).value).Ok? && getObject(decode(rawKey).value).value.Some?
    ensures resp.Served? ==> resp.obj == getObject(decode(rawKey).value).value.value && resp.etag == resp.obj.httpEtag
    ensures resp.FileNotFound? ==> resp.status == 404 && resp.message == "File not found"
  {
    var decoded := decode(rawKey);
    if decoded.None? {
      return RawUnhandled;
    }
    var key := decoded.value;
    if HasNamedOfKind(env, bucketName, R2Bucket) {
      var found := getObject(key);
      if found.Ok? && found.value.Some? {
        var obj := found.value.value;
        return Served(obj, obj.httpEtag);
      }
    }
    return FileNotFound(404, "File not found");
  }
}
