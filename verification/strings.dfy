/** The few JavaScript string operations the dashboard relies on, over
    `seq<char>`: `startsWith`, `includes`, `split` on one character and
    `join`. */
module Strings {

  /** `s.startsWith(p)` */
  predicate StartsWith(s: string, p: string) {
    p <= s
  }

  /** `s.includes(t)`: `t` occurs somewhere in `s`. */
  predicate Includes(s: string, t: string)
    decreases |s|
  {
    StartsWith(s, t) || (|s| > 0 && Includes(s[1..], t))
  }

  lemma {:induction false} IncludesAt(s: string, t: string, i: nat)
    requires i + |t| <= |s| && s[i..i + |t|] == t
    ensures Includes(s, t)
    decreases i
  {
    if i > 0 {
      assert s[1..][i - 1..i - 1 + |t|] == s[i..i + |t|];
      IncludesAt(s[1..], t, i - 1);
    }
  }

  lemma {:induction false} IncludesSuffix(s: string, u: string, t: string)
    requires Includes(u, t)
    ensures Includes(s + u, t)
    decreases |s|
  {
    if s != [] {
      assert (s + u)[1..] == s[1..] + u;
      IncludesSuffix(s[1..], u, t);
      assert |s + u| > 0 && Includes((s + u)[1..], t);
    } else {
      assert s + u == u;
    }
  }

  /** An occurrence of `t` needs `t`'s first character in `s`. */
  lemma {:induction false} IncludesNeedsHead(s: string, t: string)
    requires t != [] && Includes(s, t)
    ensures t[0] in s
    decreases |s|
  {
    if !StartsWith(s, t) {
      IncludesNeedsHead(s[1..], t);
    }
  }

  /** An occurrence in `a` is still one in `a + b`. */
  lemma {:induction false} IncludesExtend(a: string, b: string, t: string)
    requires Includes(a, t)
    ensures Includes(a + b, t)
    decreases |a|
  {
    if StartsWith(a, t) {
      assert (a + b)[..|t|] == a[..|t|];
    } else {
      assert (a + b)[1..] == a[1..] + b;
      IncludesExtend(a[1..], b, t);
    }
  }

  /** A "/"-headed pattern with no other "/" cannot straddle the end of a
      non-empty `a` when `b` starts with "/". */
  lemma StartsWithConcat(a: string, b: string, t: string)
    requires a != [] && b != [] && b[0] == '/'
    requires t != [] && t[0] == '/' && '/' !in t[1..]
    ensures StartsWith(a + b, t) <==> StartsWith(a, t)
  {
    if |a| >= |t| {
      if StartsWith(a + b, t) {
        assert t == (a + b)[..|t|] == a[..|t|];
      }
    } else {
      assert (a + b)[|a|] == '/';
    }
  }

  /** Under the same conditions, `t` occurs in `a + b` exactly when it
      occurs in `a` or in `b`. */
  lemma {:induction false} IncludesConcat(a: string, b: string, t: string)
    requires b != [] && b[0] == '/'
    requires t != [] && t[0] == '/' && '/' !in t[1..]
    ensures Includes(a + b, t) <==> Includes(a, t) || Includes(b, t)
    decreases |a|
  {
    if a == [] {
      assert a + b == b;
    } else {
      StartsWithConcat(a, b, t);
      assert (a + b)[1..] == a[1..] + b;
      IncludesConcat(a[1..], b, t);
    }
  }

  /** In a string whose only "/" is its first character, a "/"-headed
      pattern occurs only at the start. */
  lemma IncludesSlashHead(x: string, t: string)
    requires x != [] && x[0] == '/' && '/' !in x[1..]
    requires t != [] && t[0] == '/'
    ensures Includes(x, t) <==> StartsWith(x, t)
  {
    if Includes(x[1..], t) {
      IncludesNeedsHead(x[1..], t);
    }
  }

  /** `s.split(d)` for a one-character separator: the pieces between
      separators, in order; there is always at least one piece. */
  function Split(s: string, d: char): (r: seq<string>)
    ensures |r| >= 1
    ensures forall i :: 0 <= i < |r| ==> d !in r[i]
    decreases |s|
  {
    if |s| == 0 then [""]
    else if s[0] == d then [""] + Split(s[1..], d)
    else
      var rest := Split(s[1..], d);
      [[s[0]] + rest[0]] + rest[1..]
  }

  /** `parts.join(sep)` */
  function Join(parts: seq<string>, sep: string): string
    decreases |parts|
  {
    if |parts| == 0 then ""
    else if |parts| == 1 then parts[0]
    else parts[0] + sep + Join(parts[1..], sep)
  }

  /** Joining with one more piece at the end appends the separator and
      that piece. */
  lemma {:induction false} JoinSnoc(parts: seq<string>, x: string, sep: string)
    ensures Join(parts + [x], sep) == if parts == [] then x else Join(parts, sep) + sep + x
    decreases |parts|
  {
    if |parts| == 1 {
      assert (parts + [x])[1..] == [x];
    } else if |parts| > 1 {
      assert (parts + [x])[1..] == parts[1..] + [x];
      JoinSnoc(parts[1..], x, sep);
    }
  }

  /** Splitting on `d` and joining with `d` gives back the string. */
  lemma {:induction false} JoinSplit(s: string, d: char)
    ensures Join(Split(s, d), [d]) == s
    decreases |s|
  {
    if |s| > 0 {
      JoinSplit(s[1..], d);
      var rest := Split(s[1..], d);
      if s[0] == d {
        assert s == [d] + s[1..];
      } else {
        if |rest| == 1 {
          assert s == [s[0]] + s[1..];
        } else {
          assert Join(rest, [d]) == rest[0] + [d] + Join(rest[1..], [d]);
          assert s == [s[0]] + s[1..];
        }
      }
    }
  }

  /** Joining separator-free pieces with `d` and splitting on `d` gives back
      the pieces. */
  lemma {:induction false} SplitJoin(parts: seq<string>, d: char)
    requires |parts| >= 1
    requires forall i :: 0 <= i < |parts| ==> d !in parts[i]
    ensures Split(Join(parts, [d]), d) == parts
    decreases |parts|, |parts[0]|
  {
    if |parts[0]| > 0 {
      var p0 := parts[0];
      var tail := [p0[1..]] + parts[1..];
      SplitJoin(tail, d);
      var s := Join(parts, [d]);
      if |parts| == 1 {
        assert s == p0 && s[1..] == Join(tail, [d]);
      } else {
        assert s[1..] == Join(tail, [d]);
      }
      assert s[0] == p0[0] && p0[0] != d;
      assert Split(s, d) == [[p0[0]] + p0[1..]] + parts[1..];
      assert [p0[0]] + p0[1..] == p0;
    } else if |parts| > 1 {
      SplitJoin(parts[1..], d);
      var s := Join(parts, [d]);
      assert s == [d] + Join(parts[1..], [d]);
      assert s[1..] == Join(parts[1..], [d]);
      assert parts == [""] + parts[1..];
    }
  }

  /** The elements of `s` that are non-empty, in order (`filter(Boolean)`). */
  function NonEmpty(s: seq<string>): (r: seq<string>)
    ensures forall i :: 0 <= i < |r| ==> r[i] != "" && r[i] in s
    ensures |r| <= |s|
    decreases |s|
  {
    if |s| == 0 then []
    else if s[0] == "" then NonEmpty(s[1..])
    else [s[0]] + NonEmpty(s[1..])
  }

  lemma {:induction false} NonEmptyAppend(a: seq<string>, b: seq<string>)
    ensures NonEmpty(a + b) == NonEmpty(a) + NonEmpty(b)
    decreases |a|
  {
    if |a| > 0 {
      assert (a + b)[1..] == a[1..] + b;
      NonEmptyAppend(a[1..], b);
    } else {
      assert a + b == b;
    }
  }

  lemma {:induction false} NonEmptyOfNonEmpty(s: seq<string>)
    requires forall i :: 0 <= i < |s| ==> s[i] != ""
    ensures NonEmpty(s) == s
    decreases |s|
  {
    if |s| > 0 {
      NonEmptyOfNonEmpty(s[1..]);
    }
  }
}
