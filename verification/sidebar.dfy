/** The layout around every page: the five sidebar items with the rule
    that highlights the current one, and the header title. */
module Sidebar {
  import opened Strings

  /** `SidebarItem`'s `isActive`: an exact match, or, for an `href` other
      than "/" and "", a path below it. */
  predicate IsActive(currentPath: string, href: string) {
    currentPath == href || (href != "/" && href != "" && StartsWith(currentPath, href + "/"))
  }

  /** The root item is highlighted only on the root itself. */
  lemma RootOnlyExact(currentPath: string)
    ensures IsActive(currentPath, "/") <==> currentPath == "/"
  {
  }

  /** Any other item is highlighted on every path below it, but not on a
      sibling that merely shares its spelling ("/kv" is not active on
      "/kvx"). */
  lemma ActiveBelowOnly(href: string, rest: string)
    requires href != "/" && href != ""
    ensures IsActive(href + "/" + rest, href)
    ensures rest != "" && rest[0] != '/' ==> !IsActive(href + rest, href)
  {
    assert href + "/" <= href + "/" + rest;
    PrefixCancel(href, "/", rest);
  }

  datatype Item = Item(caption: string, href: string)

  /** The five items, always in the same order. */
  function Items(basePath: string): seq<Item> {
    [ Item("Dashboard", basePath + "/"),
      Item("Environment", basePath + "/env"),
      Item("KV Namespaces", basePath + "/kv"),
      Item("R2 Buckets", basePath + "/r2"),
      Item("D1 Databases", basePath + "/d1") ]
  }

  /** The sections a page can be rendered under, as suffixes of the base
      path: the item hrefs of `Items`. */
  const Sections: seq<string> := ["/", "/env", "/kv", "/r2", "/d1"]

  lemma {:induction false} PrefixCancel(p: string, a: string, b: string)
    ensures p + a <= p + b <==> a <= b
  {
    if p + a <= p + b {
      assert a == (p + a)[|p|..];
      assert b[..|a|] == (p + b)[|p|..|p| + |a|];
    }
    if a <= b {
      assert p + b == (p + a) + b[|a|..];
    }
  }

  lemma NotPrefixAt(b: string, a: string, k: nat)
    requires k < |b| && k < |a| && a[k] != b[k]
    ensures !(b <= a)
  {
  }

  /** No section is another's, nor lies below another's. */
  lemma SectionsApart(s: nat, t: nat)
    requires s < |Sections| && t < |Sections| && s != t
    ensures Sections[s] != Sections[t] && !(Sections[t] + "/" <= Sections[s])
  {
    if s == 1 && t == 0 { NotPrefixAt("//", "/env", 1); }
    if s == 1 && t == 2 { NotPrefixAt("/kv/", "/env", 1); }
    if s == 1 && t == 3 { NotPrefixAt("/r2/", "/env", 1); }
    if s == 1 && t == 4 { NotPrefixAt("/d1/", "/env", 1); }
    if s == 2 && t == 0 { NotPrefixAt("//", "/kv", 1); }
    if s == 3 && t == 0 { NotPrefixAt("//", "/r2", 1); }
    if s == 4 && t == 0 { NotPrefixAt("//", "/d1", 1); }
  }

  /** On the page of a section, the item of that section is the only one
      highlighted, whatever the base path. */
  lemma ExactlyOneActive(basePath: string, s: nat, t: nat)
    requires basePath != "" && s < |Sections| && t < |Sections|
    ensures IsActive(basePath + Sections[s], Items(basePath)[t].href) <==> s == t
  {
    var href := Items(basePath)[t].href;
    assert href == basePath + Sections[t];
    if s != t {
      SectionsApart(s, t);
      assert basePath + Sections[t] + "/" == basePath + (Sections[t] + "/");
      PrefixCancel(basePath, Sections[t] + "/", Sections[s]);
      assert (basePath + Sections[s])[|basePath|..] == Sections[s];
      assert (basePath + Sections[t])[|basePath|..] == Sections[t];
    }
  }

  // ---------------------------------------------------------------------
  // The header title

  const EnvTitle: string := "Environment Variables"
  const KvTitle: string := "KV Namespaces"
  const R2Title: string := "R2 Buckets"
  const D1Title: string := "D1 Databases"
  const HomeTitle: string := "Home"

  /** `getTitle`: the first of "/env", "/kv", "/r2", "/d1" occurring
      anywhere in the active path decides the title; "Home" when none
      occurs. */
  function TitleAsWritten(activePath: string): string {
    if Includes(activePath, "/env") then EnvTitle
    else if Includes(activePath, "/kv") then KvTitle
    else if Includes(activePath, "/r2") then R2Title
    else if Includes(activePath, "/d1") then D1Title
    else HomeTitle
  }

  /** Each title is given exactly when its marker occurs and no earlier
      marker does. */
  lemma TitleAsWrittenChain(p: string)
    ensures TitleAsWritten(p) == EnvTitle <==> Includes(p, "/env")
    ensures TitleAsWritten(p) == KvTitle <==> !Includes(p, "/env") && Includes(p, "/kv")
    ensures TitleAsWritten(p) == R2Title
        <==> !Includes(p, "/env") && !Includes(p, "/kv") && Includes(p, "/r2")
    ensures TitleAsWritten(p) == D1Title
        <==> !Includes(p, "/env") && !Includes(p, "/kv") && !Includes(p, "/r2") && Includes(p, "/d1")
    ensures TitleAsWritten(p) == HomeTitle
        <==> !Includes(p, "/env") && !Includes(p, "/kv") && !Includes(p, "/r2") && !Includes(p, "/d1")
  {
  }

  /** Below a base path that does not hold a marker, a marker occurs in
      the path exactly when the "/"-headed tail starts with it. */
  lemma IncludesAfterBase(basePath: string, tail: string, marker: string)
    requires !Includes(basePath, marker)
    requires tail != [] && tail[0] == '/' && '/' !in tail[1..]
    requires marker != [] && marker[0] == '/' && '/' !in marker[1..]
    ensures Includes(basePath + tail, marker) <==> StartsWith(tail, marker)
  {
    IncludesConcat(basePath, tail, marker);
    IncludesSlashHead(tail, marker);
  }

  /** Under a base path free of the four markers, each section's own page
      gets the section's title. */
  lemma TitleAsWrittenOfSection(basePath: string, s: nat)
    requires s < |Sections|
    requires !Includes(basePath, "/env") && !Includes(basePath, "/kv")
    requires !Includes(basePath, "/r2") && !Includes(basePath, "/d1")
    ensures TitleAsWritten(basePath + Sections[s]) == [HomeTitle, EnvTitle, KvTitle, R2Title, D1Title][s]
  {
    var tail := Sections[s];
    assert tail[0] == '/' && '/' !in tail[1..];
    IncludesAfterBase(basePath, tail, "/env");
    IncludesAfterBase(basePath, tail, "/kv");
    IncludesAfterBase(basePath, tail, "/r2");
    IncludesAfterBase(basePath, tail, "/d1");
    if s == 0 {
      assert !StartsWith(tail, "/env") && !StartsWith(tail, "/kv");
      assert !StartsWith(tail, "/r2") && !StartsWith(tail, "/d1");
    } else if s == 1 {
      assert StartsWith(tail, "/env");
    } else if s == 2 {
      NotPrefixAt("/env", tail, 1);
      assert StartsWith(tail, "/kv");
    } else if s == 3 {
      NotPrefixAt("/env", tail, 1);
      NotPrefixAt("/kv", tail, 1);
      assert StartsWith(tail, "/r2");
    } else {
      NotPrefixAt("/env", tail, 1);
      NotPrefixAt("/kv", tail, 1);
      NotPrefixAt("/r2", tail, 1);
      assert StartsWith(tail, "/d1");
    }
  }

  /** Under a base path that holds "/env" (say "/env-admin"), every page is
      titled "Environment Variables". */
  lemma TitleAsWrittenUnderEnvBase(basePath: string, rest: string)
    requires Includes(basePath, "/env")
    ensures TitleAsWritten(basePath + rest) == EnvTitle
  {
    IncludesExtend(basePath, rest, "/env");
  }

  /** The page of KV namespace `kvId` (whose active path is
      `basePath + "/kv/" + kvId`) is titled "Environment Variables" exactly
      when the namespace's name starts with "env", and "KV Namespaces"
      otherwise. */
  lemma TitleAsWrittenOfNamespacePage(basePath: string, kvId: string)
    requires !Includes(basePath, "/env") && '/' !in kvId
    ensures TitleAsWritten(basePath + "/kv/" + kvId)
         == if StartsWith(kvId, "env") then EnvTitle else KvTitle
  {
    NamespacePathHoldsEnv(basePath, kvId);
    NamespacePathHoldsKv(basePath, kvId);
  }

  lemma NamespacePathHoldsEnv(basePath: string, kvId: string)
    requires !Includes(basePath, "/env") && '/' !in kvId
    ensures Includes(basePath + "/kv/" + kvId, "/env") <==> StartsWith(kvId, "env")
  {
    var tail := "/kv/" + kvId;
    assert basePath + "/kv/" + kvId == basePath + tail;
    NamespaceTailHoldsEnv(kvId);
    IncludesConcat(basePath, tail, "/env");
  }

  lemma NamespacePathHoldsKv(basePath: string, kvId: string)
    ensures Includes(basePath + "/kv/" + kvId, "/kv")
  {
    var p := basePath + "/kv/" + kvId;
    assert p[|basePath|..|basePath| + 3] == "/kv";
    IncludesAt(p, "/kv", |basePath|);
  }

  /** The tail "/kv/" + kvId holds "/env" exactly when the name starts
      with "env". */
  lemma NamespaceTailHoldsEnv(kvId: string)
    requires '/' !in kvId
    ensures Includes("/kv/" + kvId, "/env") <==> StartsWith(kvId, "env")
  {
    var tail := "/" + kvId;
    assert "/kv/" + kvId == "/kv" + tail;
    assert tail[1..] == kvId;
    IncludesConcat("/kv", tail, "/env");
    IncludesSlashHead("/kv", "/env");
    IncludesSlashHead(tail, "/env");
    assert StartsWith(tail, "/env") <==> StartsWith(kvId, "env") by {
      assert tail[0] == '/';
      if StartsWith(kvId, "env") {
        assert tail[..4] == "/" + kvId[..3];
      }
      if StartsWith(tail, "/env") {
        assert kvId[..3] == tail[1..4];
      }
    }
  }

  /** The namespace "env_cache" under the default base path "/" is titled
      "Environment Variables", although the sidebar highlights the KV item
      and not the Environment item there. */
  lemma TitleAsWrittenMisreadsNamespace()
    ensures TitleAsWritten("//kv/env_cache") == EnvTitle
    ensures IsActive("//kv/env_cache", "//kv") && !IsActive("//kv/env_cache", "//env")
  {
    IncludesAt("//kv/env_cache", "/env", 4);
    assert "//kv/" <= "//kv/env_cache";
    NotPrefixAt("//env/", "//kv/env_cache", 2);
  }

  /** The title evidently intended: that of the section the active path
      belongs to below the base path, by the same rule that highlights the
      item; "Home" elsewhere. */
  function SectionTitle(basePath: string, activePath: string): string {
    if IsActive(activePath, basePath + "/env") then EnvTitle
    else if IsActive(activePath, basePath + "/kv") then KvTitle
    else if IsActive(activePath, basePath + "/r2") then R2Title
    else if IsActive(activePath, basePath + "/d1") then D1Title
    else HomeTitle
  }

  /** Every section's page gets its own title under any base path; the
      dashboard is "Home". */
  lemma SectionTitleIsSection(basePath: string, s: nat)
    requires basePath != "" && s < |Sections|
    ensures SectionTitle(basePath, basePath + Sections[s])
         == [HomeTitle, EnvTitle, KvTitle, R2Title, D1Title][s]
  {
    var p := basePath + Sections[s];
    ExactlyOneActive(basePath, s, 1);
    ExactlyOneActive(basePath, s, 2);
    ExactlyOneActive(basePath, s, 3);
    ExactlyOneActive(basePath, s, 4);
  }

  /** A KV namespace's page is titled "KV Namespaces" whatever the
      namespace is called and whatever the base path. */
  lemma SectionTitleOfNamespacePage(basePath: string, kvId: string)
    ensures SectionTitle(basePath, basePath + "/kv/" + kvId) == KvTitle
  {
    var p := basePath + "/kv/" + kvId;
    var k := |basePath| + 1;
    assert p[k] == 'k';
    assert (basePath + "/env")[k] == 'e';
    assert (basePath + "/env" + "/")[k] == 'e';
    NotPrefixAt(basePath + "/env" + "/", p, k);
    assert basePath + "/kv" + "/" <= p;
  }

  /** In particular the namespace "env_cache" under the default base path. */
  lemma SectionTitleReadsNamespace()
    ensures SectionTitle("/", "//kv/env_cache") == KvTitle
  {
    SectionTitleOfNamespacePage("/", "env_cache");
    assert "/" + "/kv/" + "env_cache" == "//kv/env_cache";
  }

  datatype Layout = Layout(title: string, items: seq<(Item, bool)>)

  /** `SidebarLayout`: the header title `getTitle()` and each item with
      whether it is highlighted. */
  function LayoutOf(basePath: string, activePath: string): (l: Layout)
    ensures |l.items| == 5
    ensures forall i :: 0 <= i < 5 ==>
      l.items[i].0 == Items(basePath)[i] && (l.items[i].1 <==> IsActive(activePath, Items(basePath)[i].href))
    ensures l.title == TitleAsWritten(activePath)
  {
    var items := Items(basePath);
    Layout(TitleAsWritten(activePath),
      seq(5, i requires 0 <= i < 5 => (items[i], IsActive(activePath, items[i].href))))
  }
}
