/** The dashboard: one pass over the environment's values counting KV
    namespaces, R2 buckets, D1 databases and everything else, and the four
    summary cards. */
module Dashboard {
  import opened Types
  import opened Bindings

  datatype Card = Card(title: string, count: nat, link: string)

  /** One card per section, in the order KV, R2, D1, Environment; the
      Environment card counts every key of the environment. The `forEach`
      over `Object.values(env)` with its `switch` is the loop. */
  method DashboardCards(basePath: string, env: Env) returns (cards: seq<Card>)
    ensures |cards| == 4
    ensures cards[0] == Card("KV Namespaces", |NamesOfKind(env, KVNamespace)|, basePath + "/kv")
    ensures cards[1] == Card("R2 Buckets", |NamesOfKind(env, R2Bucket)|, basePath + "/r2")
    ensures cards[2] == Card("D1 Databases", |NamesOfKind(env, D1Database)|, basePath + "/d1")
    ensures cards[3] == Card("Environment Variables", |env|, basePath + "/env")
  {
    var kvCount, r2Count, d1Count, otherCount := 0, 0, 0, 0;
    var i := 0;
    while i < |env|
      invariant 0 <= i <= |env|
      invariant kvCount == |NamesOfKind(env[..i], KVNamespace)|
      invariant r2Count == |NamesOfKind(env[..i], R2Bucket)|
      invariant d1Count == |NamesOfKind(env[..i], D1Database)|
      invariant kvCount + r2Count + d1Count + otherCount == i
    {
      var entry := [env[i]];
      assert env[..i + 1] == env[..i] + entry;
      NamesOfKindAppend(env[..i], entry, KVNamespace);
      NamesOfKindAppend(env[..i], entry, R2Bucket);
      NamesOfKindAppend(env[..i], entry, D1Database);
      match KindOf(env[i].1) {
        case KVNamespace => kvCount := kvCount + 1;
        case R2Bucket => r2Count := r2Count + 1;
        case D1Database => d1Count := d1Count + 1;
        case _ => otherCount := otherCount + 1;
      }
      i := i + 1;
    }
    assert env[..|env|] == env;
    cards := [
      Card("KV Namespaces", kvCount, basePath + "/kv"),
      Card("R2 Buckets", r2Count, basePath + "/r2"),
      Card("D1 Databases", d1Count, basePath + "/d1"),
      Card("Environment Variables", |env|, basePath + "/env")
    ];
  }

  /** The entries of none of the three storage kinds, in entry order. */
  function OtherEntries(env: Env): (others: Env)
    ensures |others| <= |env|
    decreases |env|
  {
    if |env| == 0 then []
    else
      var k := KindOf(env[0].1);
      if k == KVNamespace || k == R2Bucket || k == D1Database then OtherEntries(env[1..])
      else [env[0]] + OtherEntries(env[1..])
  }

  /** Every entry is counted exactly once: the three storage counts and
      the "other" count add up to the number of entries, every other kind
      (Cloudflare or not) landing in "other". */
  lemma {:induction false} CountsPartitionEnv(env: Env)
    ensures |NamesOfKind(env, KVNamespace)| + |NamesOfKind(env, R2Bucket)| + |NamesOfKind(env, D1Database)|
            + |OtherEntries(env)| == |env|
    ensures forall e :: e in OtherEntries(env) ==>
      e in env && KindOf(e.1) != KVNamespace && KindOf(e.1) != R2Bucket && KindOf(e.1) != D1Database
    decreases |env|
  {
    if |env| > 0 {
      CountsPartitionEnv(env[1..]);
    }
  }
}
