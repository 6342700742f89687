/** The environment's runtime values, and the tagged kind the classifier
    gives each of them (the `CloudflareEnvType` union). */
module Types {
  import opened Wrappers

  /** What a property probe can observe about one member of an object:
      `typeof m === "function"`, `typeof m === "string"`, or only whether it
      is truthy. A member that is absent (or holds `undefined`) is simply not
      a key of the member map. */
  datatype Member = Fn | StrVal(s: string) | TruthyOther | Falsy {
    /** JavaScript truthiness of the member's value. */
    predicate IsTruthy() {
      match this
      case Fn => true
      case StrVal(s) => s != ""
      case TruthyOther => true
      case Falsy => false
    }
  }

  type Members = map<string, Member>

  /** A JavaScript runtime value, as far as the classifier can tell values
      apart. Functions and plain objects carry their own members; numbers
      keep their value as a real (NaN and the infinities are not modelled). */
  datatype Value =
    | Str(s: string)
    | Num(n: real)
    | Bool(b: bool)
    | Null
    | Undefined
    | Func(fnMembers: Members)
    | Arr(items: seq<Value>)
    | Date
    | RegExp
    | BigInt(i: int)
    | Symbol
    | Obj(members: Members)

  /** The `type` tags of the `CloudflareEnvType` union, in declaration order:
      twelve Cloudflare binding kinds, then ten JavaScript kinds. */
  datatype EnvKind =
    | KVNamespace
    | R2Bucket
    | DurableObjectNamespace
    | D1Database
    | Queue
    | AnalyticsEngineDataset
    | Workflow
    | Hyperdrive
    | Ai
    | VectorizeIndex
    | Service
    | Fetcher
    | StringKind
    | NumberKind
    | BooleanKind
    | NullKind
    | UndefinedKind
    | ArrayKind
    | DateKind
    | RegExpKind
    | ObjectKind
    | FunctionKind
  {
    /** The literal `isCloudflareType` that the union pairs with this tag. */
    predicate IsCloudflare() {
      !(StringKind? || NumberKind? || BooleanKind? || NullKind? || UndefinedKind?
        || ArrayKind? || DateKind? || RegExpKind? || ObjectKind? || FunctionKind?)
    }

    /** The tag's string literal. */
    function Tag(): string {
      match this
      case KVNamespace => "KVNamespace"
      case R2Bucket => "R2Bucket"
      case DurableObjectNamespace => "DurableObjectNamespace"
      case D1Database => "D1Database"
      case Queue => "Queue"
      case AnalyticsEngineDataset => "AnalyticsEngineDataset"
      case Workflow => "Workflow"
      case Hyperdrive => "Hyperdrive"
      case Ai => "Ai"
      case VectorizeIndex => "VectorizeIndex"
      case Service => "Service"
      case Fetcher => "Fetcher"
      case StringKind => "string"
      case NumberKind => "number"
      case BooleanKind => "boolean"
      case NullKind => "null"
      case UndefinedKind => "undefined"
      case ArrayKind => "array"
      case DateKind => "date"
      case RegExpKind => "regexp"
      case ObjectKind => "object"
      case FunctionKind => "function"
    }
  }

  /** All tags in declaration order. */
  const AllKinds: seq<EnvKind> := [
    KVNamespace, R2Bucket, DurableObjectNamespace, D1Database, Queue,
    AnalyticsEngineDataset, Workflow, Hyperdrive, Ai, VectorizeIndex, Service,
    Fetcher, StringKind, NumberKind, BooleanKind, NullKind, UndefinedKind,
    ArrayKind, DateKind, RegExpKind, ObjectKind, FunctionKind]

  /** Reads a tag string back into its kind. */
  function KindOfTag(tag: string): Option<EnvKind> {
    if tag == "KVNamespace" then Some(KVNamespace)
    else if tag == "R2Bucket" then Some(R2Bucket)
    else if tag == "DurableObjectNamespace" then Some(DurableObjectNamespace)
    else if tag == "D1Database" then Some(D1Database)
    else if tag == "Queue" then Some(Queue)
    else if tag == "AnalyticsEngineDataset" then Some(AnalyticsEngineDataset)
    else if tag == "Workflow" then Some(Workflow)
    else if tag == "Hyperdrive" then Some(Hyperdrive)
    else if tag == "Ai" then Some(Ai)
    else if tag == "VectorizeIndex" then Some(VectorizeIndex)
    else if tag == "Service" then Some(Service)
    else if tag == "Fetcher" then Some(Fetcher)
    else if tag == "string" then Some(StringKind)
    else if tag == "number" then Some(NumberKind)
    else if tag == "boolean" then Some(BooleanKind)
    else if tag == "null" then Some(NullKind)
    else if tag == "undefined" then Some(UndefinedKind)
    else if tag == "array" then Some(ArrayKind)
    else if tag == "date" then Some(DateKind)
    else if tag == "regexp" then Some(RegExpKind)
    else if tag == "object" then Some(ObjectKind)
    else if tag == "function" then Some(FunctionKind)
    else None
  }

  /** Every tag reads back as its own kind, so the 22 tags are pairwise
      distinct. */
  lemma TagRoundTrip(k: EnvKind)
    ensures KindOfTag(k.Tag()) == Some(k)
  {
  }

  lemma TagsDistinct(k1: EnvKind, k2: EnvKind)
    requires k1 != k2
    ensures k1.Tag() != k2.Tag()
  {
    TagRoundTrip(k1);
    TagRoundTrip(k2);
  }

  /** Position of a tag in the union's declaration order. */
  function Position(k: EnvKind): nat {
    match k
    case KVNamespace => 0
    case R2Bucket => 1
    case DurableObjectNamespace => 2
    case D1Database => 3
    case Queue => 4
    case AnalyticsEngineDataset => 5
    case Workflow => 6
    case Hyperdrive => 7
    case Ai => 8
    case VectorizeIndex => 9
    case Service => 10
    case Fetcher => 11
    case StringKind => 12
    case NumberKind => 13
    case BooleanKind => 14
    case NullKind => 15
    case UndefinedKind => 16
    case ArrayKind => 17
    case DateKind => 18
    case RegExpKind => 19
    case ObjectKind => 20
    case FunctionKind => 21
  }

  /** The declaration order lists every kind exactly once: the first twelve
      are the Cloudflare kinds (`isCloudflareType: true`) and the last ten the
      JavaScript kinds (`isCloudflareType: false`). */
  lemma KindsPartition(k: EnvKind)
    ensures |AllKinds| == 22
    ensures Position(k) < 22 && AllKinds[Position(k)] == k
    ensures k.IsCloudflare() <==> Position(k) < 12
  {
  }

  /** A classified binding: the tag with its payload, the value itself. */
  datatype CloudflareEnvType = CloudflareEnvType(kind: EnvKind, value: Value) {
    predicate IsCloudflareType() {
      kind.IsCloudflare()
    }

    /** The payload has the type the union declares for the tag. */
    predicate PayloadMatches() {
      match kind
      case StringKind => value.Str?
      case NumberKind => value.Num?
      case BooleanKind => value.Bool?
      case NullKind => value.Null?
      case UndefinedKind => value.Undefined?
      case ArrayKind => value.Arr?
      case DateKind => value.Date?
      case RegExpKind => value.RegExp?
      case FunctionKind => value.Func?
      case ObjectKind => value.Obj? || value.BigInt? || value.Symbol?
      case _ => value.Obj?
    }
  }
}
