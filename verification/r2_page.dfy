/** The R2 page: bucket selection, the preview of one object, the
    breadcrumb trail over `/`-delimited prefixes, the go-up link, and the
    rows of one listing level. */
module R2Page {
  import opened Wrappers
  import opened Strings
  import opened Types
  import opened Bindings
  import opened R2Routes

  // ---------------------------------------------------------------------
  // Prefixes

  /** The non-empty `/`-segments of the current prefix, none when it is
      absent or empty (`split("/").filter(Boolean)`). */
  function Segments(currentPrefix: Option<string>): seq<string> {
    if currentPrefix.None? || currentPrefix.value == "" then []
    else NonEmpty(Split(currentPrefix.value, '/'))
  }

  /** The folder prefix of a segment path: each segment followed by "/". */
  function PrefixOf(parts: seq<string>): string
    decreases |parts|
  {
    if |parts| == 0 then ""
    else PrefixOf(parts[..|parts| - 1]) + parts[|parts| - 1] + "/"
  }

  /** A folder prefix followed by a name is the path joined with "/". */
  lemma {:induction false} PrefixOfJoin(parts: seq<string>, last: string)
    ensures PrefixOf(parts) + last == Join(parts + [last], "/")
    decreases |parts|
  {
    if |parts| > 0 {
      var init, p := parts[..|parts| - 1], parts[|parts| - 1];
      PrefixOfJoin(init, p);
      assert init + [p] == parts;
      JoinSnoc(parts, last, "/");
    }
  }

  /** Segment paths are a prefix's canonical form: splitting the prefix
      built from non-empty, slash-free segments gives the segments back. */
  lemma SegmentsOfPrefix(parts: seq<string>)
    requires forall i :: 0 <= i < |parts| ==> parts[i] != "" && '/' !in parts[i]
    ensures Segments(Some(PrefixOf(parts))) == parts
  {
    PrefixOfJoin(parts, "");
    assert PrefixOf(parts) + "" == PrefixOf(parts);
    SplitJoin(parts + [""], '/');
    NonEmptyAppend(parts, [""]);
    NonEmptyOfNonEmpty(parts);
    assert NonEmpty([""]) == [];
  }

  // ---------------------------------------------------------------------
  // Breadcrumbs

  datatype Crumb = Crumb(name: string, prefix: string)

  /** The trail of a selected bucket: the bucket with prefix "", then one
      crumb per segment whose prefix is the path up to and including that
      segment. */
  function Trail(bucket: string, parts: seq<string>): seq<Crumb> {
    [Crumb(bucket, "")] + seq(|parts|, i requires 0 <= i < |parts| => Crumb(parts[i], PrefixOf(parts[..i + 1])))
  }

  /** No trail when no bucket is selected. */
  function CrumbsOf(selected: Option<string>, currentPrefix: Option<string>): seq<Crumb> {
    if selected.None? || selected.value == "" then []
    else Trail(selected.value, Segments(currentPrefix))
  }

  /** The page's breadcrumb construction. */
  method Breadcrumbs(selected: Option<string>, currentPrefix: Option<string>) returns (crumbs: seq<Crumb>)
    ensures crumbs == CrumbsOf(selected, currentPrefix)
  {
    crumbs := [];
    if selected.Some? && selected.value != "" {
      var parts := [];
      if currentPrefix.Some? && currentPrefix.value != "" {
        parts := NonEmpty(Split(currentPrefix.value, '/'));
      }
      crumbs := PushSegments(selected.value, parts);
    }
  }

  /** The bucket's crumb, then the `forEach` over the segments, growing
      `currentPath`. */
  method PushSegments(bucket: string, parts: seq<string>) returns (crumbs: seq<Crumb>)
    ensures crumbs == Trail(bucket, parts)
  {
    crumbs := [Crumb(bucket, "")];
    var currentPath := "";
    var i := 0;
    while i < |parts|
      invariant 0 <= i <= |parts|
      invariant currentPath == PrefixOf(parts[..i])
      invariant |crumbs| == 1 + i && crumbs[0] == Crumb(bucket, "")
      invariant forall j :: 0 <= j < i ==> crumbs[1 + j] == Crumb(parts[j], PrefixOf(parts[..j + 1]))
    {
      assert parts[..i + 1][..i] == parts[..i];
      currentPath := currentPath + parts[i] + "/";
      crumbs := crumbs + [Crumb(parts[i], currentPath)];
      i := i + 1;
    }
    ghost var expected := Trail(bucket, parts);
    forall j | 0 <= j < |crumbs| ensures crumbs[j] == expected[j] {
      if j > 0 {
        assert crumbs[1 + (j - 1)] == Crumb(parts[j - 1], PrefixOf(parts[..j]));
      }
    }
  }

  /** A selected bucket gets one crumb more than the prefix has segments,
      the first one being the bucket itself at the root. */
  lemma CrumbCount(selected: Option<string>, currentPrefix: Option<string>)
    ensures var crumbs := CrumbsOf(selected, currentPrefix);
      && (crumbs == [] <==> selected.None? || selected.value == "")
      && (crumbs != [] ==> |crumbs| == 1 + |Segments(currentPrefix)| && crumbs[0] == Crumb(selected.value, ""))
  {
  }

  lemma {:induction false} PrefixOfGrows(parts: seq<string>, i: nat, j: nat)
    requires i <= j <= |parts|
    ensures PrefixOf(parts[..i]) <= PrefixOf(parts[..j])
    decreases j - i
  {
    if i < j {
      PrefixOfGrows(parts, i, j - 1);
      assert parts[..j][..j - 1] == parts[..j - 1];
    }
  }

  /** Each crumb's prefix is a prefix of every later crumb's: the trail
      descends one folder at a time. */
  lemma CrumbPrefixesNest(selected: Option<string>, currentPrefix: Option<string>, i: nat, j: nat)
    requires i <= j < |CrumbsOf(selected, currentPrefix)|
    ensures CrumbsOf(selected, currentPrefix)[i].prefix <= CrumbsOf(selected, currentPrefix)[j].prefix
  {
    var crumbs := CrumbsOf(selected, currentPrefix);
    var parts := Segments(currentPrefix);
    if i > 0 {
      assert crumbs[i].prefix == PrefixOf(parts[..i]);
      assert crumbs[j].prefix == PrefixOf(parts[..j]);
      PrefixOfGrows(parts, i, j);
    } else {
      assert crumbs[0].prefix == "";
    }
  }

  /** When the current prefix is a canonical folder prefix, the last crumb
      links to exactly that prefix and names its last segment. */
  lemma LastCrumbIsCurrentFolder(bucket: string, parts: seq<string>)
    requires bucket != "" && |parts| > 0
    requires forall i :: 0 <= i < |parts| ==> parts[i] != "" && '/' !in parts[i]
    ensures var crumbs := CrumbsOf(Some(bucket), Some(PrefixOf(parts)));
      crumbs[|crumbs| - 1] == Crumb(parts[|parts| - 1], PrefixOf(parts))
  {
    SegmentsOfPrefix(parts);
    assert parts[..|parts|] == parts;
  }

  // ---------------------------------------------------------------------
  // Go up

  /** `split("/").slice(0, -2).join("/")`, plus "/" when there were more
      than two pieces. */
  function GoUp(prefix: string): string {
    UpFrom(Split(prefix, '/'))
  }

  function UpFrom(pieces: seq<string>): string {
    var kept := if |pieces| >= 2 then pieces[..|pieces| - 2] else [];
    Join(kept, "/") + (if |pieces| > 2 then "/" else "")
  }

  /** A folder prefix splits into its segments and a final empty piece. */
  lemma SplitOfPrefix(parts: seq<string>)
    requires forall i :: 0 <= i < |parts| ==> '/' !in parts[i]
    ensures Split(PrefixOf(parts), '/') == parts + [""]
  {
    PrefixOfJoin(parts, "");
    assert PrefixOf(parts) + "" == PrefixOf(parts);
    SplitJoin(parts + [""], '/');
  }

  lemma PrefixOfNonEmpty(parts: seq<string>)
    requires parts != []
    ensures PrefixOf(parts) == Join(parts, "/") + "/"
  {
    PrefixOfJoin(parts, "");
    JoinSnoc(parts, "", "/");
    assert PrefixOf(parts) + "" == PrefixOf(parts);
  }

  /** From a canonical folder prefix, going up gives the parent folder's
      prefix ("" at the root). */
  lemma GoUpIsParent(parts: seq<string>, last: string)
    requires forall i :: 0 <= i < |parts| ==> '/' !in parts[i]
    requires '/' !in last
    ensures GoUp(PrefixOf(parts + [last])) == PrefixOf(parts)
  {
    var full := parts + [last];
    assert forall i :: 0 <= i < |full| ==> '/' !in full[i] by {
      forall i | 0 <= i < |full| ensures '/' !in full[i] {
        if i < |parts| { assert full[i] == parts[i]; }
      }
    }
    SplitOfPrefix(full);
    UpFromParent(parts, last);
  }

  lemma UpFromParent(parts: seq<string>, last: string)
    ensures UpFrom(parts + [last] + [""]) == PrefixOf(parts)
  {
    var pieces := parts + [last] + [""];
    assert pieces[..|pieces| - 2] == parts;
    if parts != [] {
      PrefixOfNonEmpty(parts);
    }
  }

  /** The worked cases: "a/b/" goes up to "a/", "a/" to "", and "a/b",
      which has no trailing slash, to "" rather than "a/". */
  lemma GoUpExamples()
    ensures GoUp("a/b/") == "a/"
    ensures GoUp("a/") == ""
    ensures GoUp("a/b") == ""
  {
    assert PrefixOf(["a"]) == "a/" by {
      assert ["a"][..0] == [];
    }
    assert PrefixOf(["a", "b"]) == "a/b/" by {
      assert ["a", "b"][..1] == ["a"];
    }
    assert ["a"] + ["b"] == ["a", "b"];
    GoUpIsParent(["a"], "b");
    assert [] + ["a"] == ["a"];
    GoUpIsParent([], "a");
    PrefixOfJoin(["a"], "b");
    SplitJoin(["a", "b"], '/');
    assert Join(["a", "b"], "/") == "a/b";
  }

  // ---------------------------------------------------------------------
  // Listing rows

  /** A file's shown name: the key with the current prefix removed when it
      starts with it. */
  function DisplayName(key: string, currentPrefix: Option<string>): (name: string)
    ensures StartsWith(key, currentPrefix.GetOr("")) ==> currentPrefix.GetOr("") + name == key
    ensures !StartsWith(key, currentPrefix.GetOr("")) ==> name == key
  {
    var p := currentPrefix.GetOr("");
    if StartsWith(key, p) then key[|p|..] else key
  }

  /** A key listed under a folder shows its name relative to that folder. */
  lemma DisplayNameRoundTrip(prefix: string, name: string)
    ensures DisplayName(prefix + name, Some(prefix)) == name
  {
    assert StartsWith(prefix + name, prefix);
  }

  /** A folder row's label: the last non-empty segment and "/". For an
      all-slash or empty prefix `pop()` gives `undefined`, which JSX
      renders as nothing, so the label is "/" alone. */
  function FolderLabel(prefix: string): string {
    var parts := NonEmpty(Split(prefix, '/'));
    (if |parts| == 0 then "" else parts[|parts| - 1]) + "/"
  }

  /** A canonical folder prefix is labelled by its own last segment. */
  lemma FolderLabelOfPrefix(parts: seq<string>, last: string)
    requires forall i :: 0 <= i < |parts| ==> parts[i] != "" && '/' !in parts[i]
    requires last != "" && '/' !in last
    ensures FolderLabel(PrefixOf(parts + [last])) == last + "/"
  {
    var full := parts + [last];
    assert forall i :: 0 <= i < |full| ==> full[i] != "" && '/' !in full[i] by {
      forall i | 0 <= i < |full| ensures full[i] != "" && '/' !in full[i] {
        if i < |parts| { assert full[i] == parts[i]; }
      }
    }
    SegmentsOfPrefix(full);
    var prefix := PrefixOf(full);
    assert prefix == PrefixOf(parts) + last + "/";
    assert prefix != "";
    assert NonEmpty(Split(prefix, '/')) == full;
  }

  /** A folder listed as "/" (a key such as "/a.txt" at the root) is
      labelled "/" alone. */
  lemma FolderLabelOfSlash()
    ensures FolderLabel("/") == "/"
  {
    assert Split("/", '/') == ["", ""];
    assert NonEmpty(["", ""]) == [];
  }

  /** The suggested download filename: the last "/"-piece of the key. */
  function DownloadName(key: string): string {
    var pieces := Split(key, '/');
    pieces[|pieces| - 1]
  }

  /** A key under a folder downloads as its own last name. */
  lemma DownloadNameOfKey(parts: seq<string>, name: string)
    requires forall i :: 0 <= i < |parts| ==> '/' !in parts[i]
    requires '/' !in name
    ensures DownloadName(PrefixOf(parts) + name) == name
  {
    var full := parts + [name];
    SlashFreeSnoc(parts, name);
    PrefixOfJoin(parts, name);
    SplitJoin(full, '/');
    assert Split(PrefixOf(parts) + name, '/') == full;
  }

  lemma SlashFreeSnoc(parts: seq<string>, name: string)
    requires forall i :: 0 <= i < |parts| ==> '/' !in parts[i]
    requires '/' !in name
    ensures forall i :: 0 <= i < |parts + [name]| ==> '/' !in (parts + [name])[i]
  {
    forall i | 0 <= i < |parts + [name]|
      ensures '/' !in (parts + [name])[i]
    {
      if i < |parts| { assert (parts + [name])[i] == parts[i]; }
    }
  }

  /** `contentType?.startsWith("image/") || false` */
  predicate IsImage(meta: R2Object) {
    meta.contentType.Some? && StartsWith(meta.contentType.value, "image/")
  }

  /** `contentType || fallback` */
  function TypeText(contentType: Option<string>, fallback: string): string {
    if contentType.Some? && contentType.value != "" then contentType.value else fallback
  }

  datatype FolderRow = FolderRow(prefix: string, caption: string)
  datatype FileRow = FileRow(key: string, name: string, size: nat, typeText: string)

  datatype Listing =
    | Loading
    | EmptyFolder
    | Table(goUp: Option<string>, folders: seq<FolderRow>, files: seq<FileRow>)

  /** The object list under a selected bucket. The listing is still loading
      when neither field was given; it is an empty folder only when
      `objects` is given and empty and there are no folders; otherwise it
      is a table with a go-up row when there is a current prefix, then the
      folders and then the files, in order. */
  function ListingOf(objects: Option<seq<R2Object>>, prefixes: Option<seq<string>>,
                     currentPrefix: Option<string>): (l: Listing)
    ensures l.Loading? <==> objects.None? && prefixes.None?
    ensures l.EmptyFolder? <==> objects == Some([]) && (prefixes.None? || prefixes.value == [])
    ensures l.Table? ==>
      && (l.goUp.Some? <==> currentPrefix.Some? && currentPrefix.value != "")
      && (l.goUp.Some? ==> l.goUp.value == GoUp(currentPrefix.value))
      && |l.folders| == |prefixes.GetOr([])|
      && (forall i :: 0 <= i < |l.folders| ==>
            l.folders[i] == FolderRow(prefixes.value[i], FolderLabel(prefixes.value[i])))
      && |l.files| == |objects.GetOr([])|
      && (forall i :: 0 <= i < |l.files| ==>
            var o := objects.value[i];
            l.files[i] == FileRow(o.key, DisplayName(o.key, currentPrefix), o.size, TypeText(o.contentType, "-")))
  {
    if objects.None? && prefixes.None? then Loading
    else if objects == Some([]) && (prefixes.None? || prefixes.value == []) then EmptyFolder
    else
      var folders := prefixes.GetOr([]);
      var files := objects.GetOr([]);
      Table(
        if currentPrefix.Some? && currentPrefix.value != "" then Some(GoUp(currentPrefix.value)) else None,
        seq(|folders|, i requires 0 <= i < |folders| => FolderRow(folders[i], FolderLabel(folders[i]))),
        seq(|files|, i requires 0 <= i < |files| =>
          FileRow(files[i].key, DisplayName(files[i].key, currentPrefix), files[i].size, TypeText(files[i].contentType, "-"))))
  }

  // ---------------------------------------------------------------------
  // The page

  datatype R2PageProps = R2PageProps(
    bucketName: Option<string>,
    objects: Option<seq<R2Object>>,
    delimitedPrefixes: Option<seq<string>>,
    currentPrefix: Option<string>,
    previewKey: Option<string>,
    previewMeta: Option<R2Object>)

  datatype R2PageView =
    | NoBuckets
    | Preview(bucket: string, key: string, isImage: bool, typeText: string, downloadName: string)
    | Browser(names: seq<string>, selected: Option<string>, crumbs: seq<Crumb>, listing: Option<Listing>)

  /** Without R2 bindings the empty state wins over everything. A preview
      needs a bucket name, a key and the object's metadata; otherwise the
      browser shows the selected bucket's trail and listing. */
  function R2PageOf(env: Env, props: R2PageProps): (view: R2PageView)
    ensures view.NoBuckets? <==> NamesOfKind(env, R2Bucket) == []
    ensures view.Preview? <==>
      && NamesOfKind(env, R2Bucket) != []
      && props.bucketName.Some? && props.bucketName.value != ""
      && props.previewKey.Some? && props.previewKey.value != ""
      && props.previewMeta.Some?
    ensures view.Preview? ==>
      && view.bucket == props.bucketName.value && view.key == props.previewKey.value
      && (view.isImage <==> IsImage(props.previewMeta.value))
      && view.typeText == TypeText(props.previewMeta.value.contentType, "Unknown")
      && view.downloadName == DownloadName(props.previewKey.value)
    ensures view.Browser? ==>
      && view.names == NamesOfKind(env, R2Bucket)
      && view.selected == Select(view.names, props.bucketName)
      && view.crumbs == CrumbsOf(view.selected, props.currentPrefix)
      && (view.listing.Some? <==> view.selected.value != "")
      && (view.listing.Some? ==>
            view.listing.value == ListingOf(props.objects, props.delimitedPrefixes, props.currentPrefix))
  {
    var names := NamesOfKind(env, R2Bucket);
    if names == [] then NoBuckets
    else if props.bucketName.Some? && props.bucketName.value != ""
         && props.previewKey.Some? && props.previewKey.value != "" && props.previewMeta.Some? then
      var meta := props.previewMeta.value;
      Preview(props.bucketName.value, props.previewKey.value, IsImage(meta),
              TypeText(meta.contentType, "Unknown"), DownloadName(props.previewKey.value))
    else
      var selected := Select(names, props.bucketName);
      Browser(names, selected, CrumbsOf(selected, props.currentPrefix),
              if selected.value != "" then Some(ListingOf(props.objects, props.delimitedPrefixes, props.currentPrefix))
              else None)
  }
}
