/** `getTypeOfEnvVariableValue`: classifies a runtime value by its JavaScript
    type first and then by which members it exposes, trying the Cloudflare
    binding shapes in a fixed order; the first shape that fits wins. */
module Utils {
  import opened Types

  predicate IsFn(m: Members, name: string) {
    name in m && m[name] == Fn
  }

  predicate IsStr(m: Members, name: string) {
    name in m && m[name].StrVal?
  }

  /** `!!obj[name]`; an absent member is `undefined`, hence falsy. */
  predicate Truthy(m: Members, name: string) {
    name in m && m[name].IsTruthy()
  }

  // The eleven duck-typed probes, one per Cloudflare kind the classifier
  // can produce.

  predicate WorkflowShape(m: Members) {
    IsFn(m, "create")
  }

  predicate HyperdriveShape(m: Members) {
    IsStr(m, "connectionString")
  }

  predicate VectorizeShape(m: Members) {
    IsFn(m, "query") && IsFn(m, "insert") && IsFn(m, "upsert")
    && IsFn(m, "delete") && IsFn(m, "getByIds")
  }

  predicate AiShape(m: Members) {
    IsFn(m, "run") && !Truthy(m, "fetch")
  }

  predicate FetcherShape(m: Members) {
    IsFn(m, "fetch")
  }

  predicate R2Shape(m: Members) {
    IsFn(m, "head") && IsFn(m, "get") && IsFn(m, "put")
    && IsFn(m, "delete") && IsFn(m, "list")
  }

  predicate DurableObjectShape(m: Members) {
    IsFn(m, "get") && IsFn(m, "alarm") && IsFn(m, "jurisdiction")
  }

  predicate D1Shape(m: Members) {
    IsFn(m, "prepare") && IsFn(m, "dump") && IsFn(m, "batch")
  }

  predicate KvShape(m: Members) {
    IsFn(m, "get") && IsFn(m, "put") && IsFn(m, "delete") && IsFn(m, "list")
    && !Truthy(m, "head")
  }

  predicate QueueShape(m: Members) {
    IsFn(m, "send") && IsFn(m, "sendBatch")
  }

  predicate AnalyticsShape(m: Members) {
    IsFn(m, "writeDataPoint")
  }

  /** The kinds the probes produce, in the order they are tried. */
  const ProbeKinds: seq<EnvKind> := [
    Workflow, Hyperdrive, VectorizeIndex, Ai, Fetcher, R2Bucket,
    DurableObjectNamespace, D1Database, KVNamespace, Queue,
    AnalyticsEngineDataset]

  /** Probe number `i` of the chain. */
  predicate Probe(i: nat, m: Members)
    requires i < 11
  {
    if i == 0 then WorkflowShape(m)
    else if i == 1 then HyperdriveShape(m)
    else if i == 2 then VectorizeShape(m)
    else if i == 3 then AiShape(m)
    else if i == 4 then FetcherShape(m)
    else if i == 5 then R2Shape(m)
    else if i == 6 then DurableObjectShape(m)
    else if i == 7 then D1Shape(m)
    else if i == 8 then KvShape(m)
    else if i == 9 then QueueShape(m)
    else AnalyticsShape(m)
  }

  /** The duck-typed part of the classifier, as the source writes it. */
  function ClassifyObject(m: Members): EnvKind {
    if WorkflowShape(m) then Workflow
    else if HyperdriveShape(m) then Hyperdrive
    else if VectorizeShape(m) then VectorizeIndex
    else if AiShape(m) then Ai
    else if FetcherShape(m) then Fetcher
    else if R2Shape(m) then R2Bucket
    else if DurableObjectShape(m) then DurableObjectNamespace
    else if D1Shape(m) then D1Database
    else if KvShape(m) then KVNamespace
    else if QueueShape(m) then Queue
    else if AnalyticsShape(m) then AnalyticsEngineDataset
    else ObjectKind
  }

  /** `getTypeOfEnvVariableValue`: `typeof` first, then null/undefined, then
      arrays, dates and regular expressions, then the probes. Values that are
      neither objects nor one of the handled primitives (bigint, symbol) reach
      the probes too; none of their members exist, so they become "object". */
  function Classify(v: Value): (r: CloudflareEnvType)
    ensures r.value == v
    ensures r.PayloadMatches()
    ensures r.kind != Service
  {
    match v
    case Str(_) => CloudflareEnvType(StringKind, v)
    case Num(_) => CloudflareEnvType(NumberKind, v)
    case Bool(_) => CloudflareEnvType(BooleanKind, v)
    case Func(_) => CloudflareEnvType(FunctionKind, v)
    case Null => CloudflareEnvType(NullKind, v)
    case Undefined => CloudflareEnvType(UndefinedKind, v)
    case Arr(_) => CloudflareEnvType(ArrayKind, v)
    case Date => CloudflareEnvType(DateKind, v)
    case RegExp => CloudflareEnvType(RegExpKind, v)
    case Obj(m) => CloudflareEnvType(ClassifyObject(m), v)
    case _ => CloudflareEnvType(ClassifyObject(map[]), v)
  }

  /** Reference definition of "the first probe from `i` on that fits". */
  function FirstMatch(m: Members, i: nat): EnvKind
    requires i <= 11
    decreases 11 - i
  {
    if i == 11 then ObjectKind
    else if Probe(i, m) then ProbeKinds[i]
    else FirstMatch(m, i + 1)
  }

  /** The source's case chain is exactly "first fitting probe in order". */
  lemma ClassifyObjectIsFirstMatch(m: Members)
    ensures ClassifyObject(m) == FirstMatch(m, 0)
  {
    FirstMatchStep(m, 10, AnalyticsShape(m));
    FirstMatchStep(m, 9, QueueShape(m));
    FirstMatchStep(m, 8, KvShape(m));
    FirstMatchStep(m, 7, D1Shape(m));
    FirstMatchStep(m, 6, DurableObjectShape(m));
    FirstMatchStep(m, 5, R2Shape(m));
    FirstMatchStep(m, 4, FetcherShape(m));
    FirstMatchStep(m, 3, AiShape(m));
    FirstMatchStep(m, 2, VectorizeShape(m));
    FirstMatchStep(m, 1, HyperdriveShape(m));
    FirstMatchStep(m, 0, WorkflowShape(m));
  }

  /** One step of the reference definition: probe `i` fits exactly when
      `fits` holds. */
  lemma FirstMatchStep(m: Members, i: nat, fits: bool)
    requires i < 11 && Probe(i, m) == fits
    ensures FirstMatch(m, i) == if fits then ProbeKinds[i] else FirstMatch(m, i + 1)
  {
  }

  /** From position `i` on, the first fitting probe decides: the result is
      probe `j`'s kind exactly when probe `j` fits and no probe between `i`
      and `j` does, and it is "object" exactly when none fits. */
  lemma {:induction false} FirstMatchSpec(m: Members, i: nat, j: nat)
    requires i <= j < 11
    ensures FirstMatch(m, i) == ProbeKinds[j]
        <==> Probe(j, m) && forall k :: i <= k < j ==> !Probe(k, m)
    decreases j - i
  {
    if i < j {
      FirstMatchSpec(m, i + 1, j);
      if Probe(i, m) {
        assert ProbeKinds[i] != ProbeKinds[j];
      }
    }
  }

  lemma {:induction false} FirstMatchNone(m: Members, i: nat)
    requires i <= 11
    ensures FirstMatch(m, i) == ObjectKind <==> forall k :: i <= k < 11 ==> !Probe(k, m)
    decreases 11 - i
  {
    if i < 11 {
      FirstMatchNone(m, i + 1);
    }
  }

  /** Probe order decides: an object is classified as probe `j`'s kind
      exactly when probe `j` fits and no earlier probe does. */
  lemma ProbeOrder(m: Members, j: nat)
    requires j < 11
    ensures Classify(Obj(m)).kind == ProbeKinds[j]
        <==> Probe(j, m) && forall k :: 0 <= k < j ==> !Probe(k, m)
  {
    ClassifyObjectIsFirstMatch(m);
    FirstMatchSpec(m, 0, j);
  }

  /** The "object" fallback is taken exactly when no probe fits. */
  lemma ObjectFallback(m: Members)
    ensures Classify(Obj(m)).kind == ObjectKind <==> forall k :: 0 <= k < 11 ==> !Probe(k, m)
  {
    ClassifyObjectIsFirstMatch(m);
    FirstMatchNone(m, 0);
  }

  /** `typeof` decides first: strings, numbers, booleans and functions get
      their own tag whatever members they carry; a callable with a storage
      binding's methods is still "function". */
  lemma TypeofFirst(v: Value)
    ensures v.Str? ==> Classify(v).kind == StringKind
    ensures v.Num? ==> Classify(v).kind == NumberKind
    ensures v.Bool? ==> Classify(v).kind == BooleanKind
    ensures v.Func? ==> Classify(v).kind == FunctionKind
  {
  }

  /** `null`, `undefined`, arrays, dates and regular expressions are tagged
      before any probe runs. */
  lemma StructuralBeforeProbes(v: Value)
    ensures v.Null? ==> Classify(v).kind == NullKind
    ensures v.Undefined? ==> Classify(v).kind == UndefinedKind
    ensures v.Arr? ==> Classify(v).kind == ArrayKind
    ensures v.Date? ==> Classify(v).kind == DateKind
    ensures v.RegExp? ==> Classify(v).kind == RegExpKind
  {
  }

  /** Any object with a function `create` is a Workflow, whatever else it has. */
  lemma WorkflowWins(m: Members)
    requires IsFn(m, "create")
    ensures Classify(Obj(m)).kind == Workflow
  {
  }

  /** Hyperdrive: a string-valued `connectionString` (even an empty one), and
      `create` not a function. */
  lemma HyperdriveRule(m: Members)
    ensures Classify(Obj(m)).kind == Hyperdrive
        <==> IsStr(m, "connectionString") && !IsFn(m, "create")
  {
    ProbeOrder(m, 1);
  }

  /** `run` and `fetch`: with `fetch` falsy a function `run` gives Ai, a
      function `fetch` gives Fetcher, and a truthy `fetch` that is not a
      function gives neither. */
  lemma RunFetchRule(m: Members)
    requires IsFn(m, "run")
    requires !WorkflowShape(m) && !HyperdriveShape(m) && !VectorizeShape(m)
    ensures !Truthy(m, "fetch") ==> Classify(Obj(m)).kind == Ai
    ensures IsFn(m, "fetch") ==> Classify(Obj(m)).kind == Fetcher
    ensures Truthy(m, "fetch") && !IsFn(m, "fetch")
        ==> Classify(Obj(m)).kind != Ai && Classify(Obj(m)).kind != Fetcher
  {
    if Truthy(m, "fetch") && !IsFn(m, "fetch") {
      ProbeOrder(m, 3);
      ProbeOrder(m, 4);
    }
  }

  /** An object that is a KV namespace becomes an R2 bucket once it gains a
      function `head`: `head` is the only thing that tells the two apart. */
  lemma AddingHeadMakesR2(m: Members)
    requires Classify(Obj(m)).kind == KVNamespace
    ensures Classify(Obj(m["head" := Fn])).kind == R2Bucket
  {
    var m' := m["head" := Fn];
    ProbeOrder(m, 8);
    forall k | 0 <= k < 5 ensures !Probe(k, m') {
      assert !Probe(k, m);
    }
    ProbeOrder(m', 5);
  }

  /** The same members with a falsy or absent `head` give KV only if neither
      an earlier probe fits; a truthy `head` that is not a function gives
      neither R2 nor KV. */
  lemma HeadDecidesR2OrKv(m: Members)
    requires IsFn(m, "get") && IsFn(m, "put") && IsFn(m, "delete") && IsFn(m, "list")
    requires forall k :: 0 <= k < 5 ==> !Probe(k, m)
    ensures IsFn(m, "head") ==> Classify(Obj(m)).kind == R2Bucket
    ensures !Truthy(m, "head") && !DurableObjectShape(m) && !D1Shape(m)
        ==> Classify(Obj(m)).kind == KVNamespace
    ensures Truthy(m, "head") && !IsFn(m, "head")
        ==> Classify(Obj(m)).kind != R2Bucket && Classify(Obj(m)).kind != KVNamespace
  {
    ProbeOrder(m, 5);
    ProbeOrder(m, 8);
  }

  /** D1 needs all of `prepare`, `dump` and `batch` as functions, and only
      wins when no earlier probe fits. */
  lemma D1Rule(m: Members)
    ensures Classify(Obj(m)).kind == D1Database
        <==> D1Shape(m) && forall k :: 0 <= k < 7 ==> !Probe(k, m)
  {
    ProbeOrder(m, 7);
  }

  /** A D1-shaped object that also has a function `create` is a Workflow, not
      a D1 database: the D1 shape does not win "regardless of other members". */
  lemma D1LosesToWorkflow()
    ensures var m := map["prepare" := Fn, "dump" := Fn, "batch" := Fn, "create" := Fn];
      D1Shape(m) && Classify(Obj(m)).kind == Workflow
  {
  }

  /** `isCloudflareType` is true exactly on the duck-typed branches. */
  lemma CloudflareExactlyOnProbes(v: Value)
    ensures Classify(v).IsCloudflareType()
        <==> v.Obj? && exists k :: 0 <= k < 11 && Probe(k, v.members)
  {
    match v
    case Obj(m) =>
      ObjectFallback(m);
      ClassifyObjectIsFirstMatch(m);
      FirstMatchInProbeKinds(m, 0);
    case BigInt(_) =>
      ObjectFallback(map[]);
    case Symbol =>
      ObjectFallback(map[]);
    case _ =>
  }

  lemma {:induction false} FirstMatchInProbeKinds(m: Members, i: nat)
    requires i <= 11
    ensures FirstMatch(m, i) == ObjectKind || FirstMatch(m, i) in ProbeKinds
    decreases 11 - i
  {
    if i < 11 && !Probe(i, m) {
      FirstMatchInProbeKinds(m, i + 1);
    }
  }
}
