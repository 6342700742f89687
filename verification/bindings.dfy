/** Choosing a binding of one kind from the environment: the list of names
    of that kind in entry order, the page's selected name, and the
    "redirect to the first binding" index routes. */
module Bindings {
  import opened Wrappers
  import opened Types
  import opened Utils

  /** The environment as `Object.entries(env)` yields it: name and value, in
      entry order. */
  type Env = seq<(string, Value)>

  function KindOf(v: Value): EnvKind {
    Classify(v).kind
  }

  /** `Object.entries(env).filter(kind).map(([key]) => key)` */
  function NamesOfKind(env: Env, kind: EnvKind): (names: seq<string>)
    ensures |names| <= |env|
    decreases |env|
  {
    if |env| == 0 then []
    else if KindOf(env[0].1) == kind then [env[0].0] + NamesOfKind(env[1..], kind)
    else NamesOfKind(env[1..], kind)
  }

  /** Filtering two runs of entries filters each, keeping entry order. */
  lemma {:induction false} NamesOfKindAppend(a: Env, b: Env, kind: EnvKind)
    ensures NamesOfKind(a + b, kind) == NamesOfKind(a, kind) + NamesOfKind(b, kind)
    decreases |a|
  {
    if |a| == 0 {
      assert a + b == b;
    } else {
      assert (a + b)[1..] == a[1..] + b;
      NamesOfKindAppend(a[1..], b, kind);
    }
  }

  /** Names of the given kind are exactly the names of entries of that kind. */
  lemma {:induction false} NamesOfKindMembers(env: Env, kind: EnvKind, name: string)
    ensures name in NamesOfKind(env, kind)
        <==> exists i :: 0 <= i < |env| && env[i].0 == name && KindOf(env[i].1) == kind
    decreases |env|
  {
    if |env| > 0 {
      NamesOfKindMembers(env[1..], kind, name);
      if exists i :: 0 <= i < |env| && env[i].0 == name && KindOf(env[i].1) == kind {
        var i :| 0 <= i < |env| && env[i].0 == name && KindOf(env[i].1) == kind;
        if i > 0 {
          assert env[1..][i - 1] == env[i];
        }
      }
      if exists i :: 0 <= i < |env[1..]| && env[1..][i].0 == name && KindOf(env[1..][i].1) == kind {
        var i :| 0 <= i < |env[1..]| && env[1..][i].0 == name && KindOf(env[1..][i].1) == kind;
        assert env[i + 1] == env[1..][i];
      }
    }
  }

  /** The first name of the kind is the name of the first entry of that kind
      in entry order. */
  lemma {:induction false} FirstNameIsFirstEntry(env: Env, kind: EnvKind)
    requires NamesOfKind(env, kind) != []
    ensures exists i :: (0 <= i < |env| && env[i].0 == NamesOfKind(env, kind)[0]
      && KindOf(env[i].1) == kind
      && forall j :: 0 <= j < i ==> KindOf(env[j].1) != kind)
    decreases |env|
  {
    if KindOf(env[0].1) != kind {
      FirstNameIsFirstEntry(env[1..], kind);
      var i :| 0 <= i < |env[1..]| && env[1..][i].0 == NamesOfKind(env[1..], kind)[0]
        && KindOf(env[1..][i].1) == kind
        && forall j :: 0 <= j < i ==> KindOf(env[1..][j].1) != kind;
      assert env[i + 1] == env[1..][i];
      forall j | 0 <= j < i + 1 ensures KindOf(env[j].1) != kind {
        if j > 0 { assert env[j] == env[1..][j - 1]; }
      }
    }
  }

  /** The page selection rule: the requested name when it is given (and not
      empty) and is one of the names, else the first name, else none. */
  function Select(names: seq<string>, requested: Option<string>): (selected: Option<string>)
    ensures selected.Some? ==> selected.value in names
    ensures selected.None? <==> names == []
    ensures requested.Some? && requested.value != "" && requested.value in names
        ==> selected == requested
    ensures names != [] && !(requested.Some? && requested.value != "" && requested.value in names)
        ==> selected == Some(names[0])
  {
    if requested.Some? && requested.value != "" && requested.value in names then requested
    else if |names| > 0 then Some(names[0])
    else None
  }

  /** Outcome of the `/kv`, `/r2` and `/d1` index routes. */
  datatype IndexOutcome = RedirectTo(name: string) | NoSelectionPage

  /** Redirect to the first binding of the kind, or show the page with no
      selection. */
  function FirstBindingRoute(env: Env, kind: EnvKind): (out: IndexOutcome)
    ensures out.NoSelectionPage? <==> forall i :: 0 <= i < |env| ==> KindOf(env[i].1) != kind
    ensures out.RedirectTo? ==> exists i :: (0 <= i < |env| && env[i].0 == out.name
      && KindOf(env[i].1) == kind
      && forall j :: 0 <= j < i ==> KindOf(env[j].1) != kind)
  {
    var names := NamesOfKind(env, kind);
    if |names| > 0 then
      FirstNameIsFirstEntry(env, kind);
      RedirectTo(names[0])
    else
      forall i | 0 <= i < |env| ensures KindOf(env[i].1) != kind {
        NamesOfKindMembers(env, kind, env[i].0);
      }
      NoSelectionPage
  }

  /** A KV namespace binding: a value the classifier tags "KVNamespace". */
  const KvValue: Value := Obj(map["get" := Fn, "put" := Fn, "delete" := Fn, "list" := Fn])
  /** An R2 bucket binding. */
  const R2Value: Value := Obj(map["head" := Fn, "get" := Fn, "put" := Fn, "delete" := Fn, "list" := Fn])

  /** The sample bindings classify as their kinds. */
  lemma SampleKinds()
    ensures KindOf(KvValue) == KVNamespace && KindOf(R2Value) == R2Bucket
  {
    var kv := KvValue.members;
    var r2 := R2Value.members;
    assert !IsFn(kv, "create") && !IsStr(kv, "connectionString") && !IsFn(kv, "query");
    assert !IsFn(kv, "run") && !IsFn(kv, "fetch") && !IsFn(kv, "head") && !IsFn(kv, "alarm");
    assert !IsFn(kv, "prepare") && !Truthy(kv, "head");
    assert !IsFn(r2, "create") && !IsStr(r2, "connectionString") && !IsFn(r2, "query");
    assert !IsFn(r2, "run") && !IsFn(r2, "fetch") && IsFn(r2, "head");
  }

  /** With bindings b1 (KV), b2 (R2), b3 (KV) in that order, no request
      selects b1, a request for b3 selects b3, and a request for the R2
      binding b2 falls back to b1. */
  lemma SelectionExample()
    ensures var env := [("b1", KvValue), ("b2", R2Value), ("b3", KvValue)];
      && Select(NamesOfKind(env, KVNamespace), None) == Some("b1")
      && Select(NamesOfKind(env, KVNamespace), Some("b3")) == Some("b3")
      && Select(NamesOfKind(env, KVNamespace), Some("b2")) == Some("b1")
      && FirstBindingRoute(env, R2Bucket) == RedirectTo("b2")
  {
    var env := [("b1", KvValue), ("b2", R2Value), ("b3", KvValue)];
    SampleKinds();
    assert env[1..] == [("b2", R2Value), ("b3", KvValue)];
    assert env[1..][1..] == [("b3", KvValue)];
    assert env[1..][1..][1..] == [];
    assert NamesOfKind(env[1..][1..], KVNamespace) == ["b3"];
    assert NamesOfKind(env[1..], KVNamespace) == ["b3"];
    assert NamesOfKind(env, KVNamespace) == ["b1", "b3"];
    assert NamesOfKind(env[1..][1..], R2Bucket) == [];
    assert NamesOfKind(env[1..], R2Bucket) == ["b2"];
    assert NamesOfKind(env, R2Bucket) == ["b2"];
  }
}
