/**
 * The string operations the handlers rely on: `Array.prototype.join`, and
 * the two scanning steps the statement readers in `Ddl` use (dropping a
 * known prefix, cutting at the first occurrence of a character).
 */
module Text {
  import opened Wrappers

  /** `parts.join(sep)`: the parts in order with `sep` between neighbours. */
  function Join(parts: seq<string>, sep: string): string {
    if |parts| == 0 then ""
    else if |parts| == 1 then parts[0]
    else parts[0] + sep + Join(parts[1..], sep)
  }

  /** Appending a part appends a separator and that part, so `join` keeps input order. */
  lemma {:induction false} JoinAppend(parts: seq<string>, sep: string, last: string)
    requires |parts| >= 1
    ensures Join(parts + [last], sep) == Join(parts, sep) + sep + last
  {
    if |parts| > 1 {
      assert (parts + [last])[1..] == parts[1..] + [last];
      JoinAppend(parts[1..], sep, last);
    } else {
      assert (parts + [last])[1..] == [last];
    }
  }

  /** A character found neither in the parts nor in the separator is not in the joined text. */
  lemma {:induction false} JoinAvoids(parts: seq<string>, sep: string, c: char)
    requires c !in sep
    requires forall i :: 0 <= i < |parts| ==> c !in parts[i]
    ensures c !in Join(parts, sep)
  {
    if |parts| > 1 {
      JoinAvoids(parts[1..], sep, c);
    }
  }

  /** The number of occurrences of `c` in `s`. */
  function Count(s: string, c: char): nat {
    if s == [] then 0 else (if s[0] == c then 1 else 0) + Count(s[1..], c)
  }

  lemma {:induction false} CountConcat(a: string, b: string, c: char)
    ensures Count(a + b, c) == Count(a, c) + Count(b, c)
  {
    if a != [] {
      assert (a + b)[1..] == a[1..] + b;
      CountConcat(a[1..], b, c);
    } else {
      assert a + b == b;
    }
  }

  lemma {:induction false} CountAbsent(s: string, c: char)
    ensures Count(s, c) == 0 <==> c !in s
  {
    if s != [] {
      CountAbsent(s[1..], c);
      assert s == [s[0]] + s[1..];
    }
  }

  /** Text free of `c` appended after `x` adds no occurrences. */
  lemma CountPlusFree(x: string, b: string, c: char)
    requires c !in b
    ensures Count(x + b, c) == Count(x, c)
  {
    CountAbsent(b, c);
    CountConcat(x, b, c);
  }

  /** Text free of `c` on both sides of `x` adds no occurrences. */
  lemma CountBetween(a: string, x: string, b: string, c: char)
    requires c !in a && c !in b
    ensures Count(a + x + b, c) == Count(x, c)
  {
    CountAbsent(a, c);
    CountConcat(a, x, c);
    CountPlusFree(a + x, b, c);
  }

  /** The occurrences of `c` in all the parts together. */
  function CountAll(parts: seq<string>, c: char): nat {
    if parts == [] then 0 else Count(parts[0], c) + CountAll(parts[1..], c)
  }

  /** Joining with a separator free of `c` adds no occurrences of `c`. */
  lemma {:induction false} CountJoin(parts: seq<string>, sep: string, c: char)
    requires c !in sep
    ensures Count(Join(parts, sep), c) == CountAll(parts, c)
  {
    if |parts| == 1 {
      assert parts[1..] == [];
    } else if |parts| > 1 {
      CountJoin(parts[1..], sep, c);
      CountAbsent(sep, c);
      CountConcat(parts[0], sep, c);
      CountConcat(parts[0] + sep, Join(parts[1..], sep), c);
    }
  }

  /** Text closed by `)` starts with its opening and ends with `)`. */
  lemma Enclosed(open: string, inner: string)
    ensures var s := open + inner + ")"; StartsWith(s, open) && s[|s| - 1] == ')'
  {
    assert (open + inner + ")")[..|open|] == open;
  }

  /** Regrouping a concatenation of four parts. */
  lemma Regroup4(a: string, b: string, c: string, d: string)
    ensures a + b + c + d == a + (b + c + d)
  {
  }

  /** Regrouping a concatenation of five parts. */
  lemma Regroup5(a: string, b: string, c: string, d: string, e: string)
    ensures a + b + c + d + e == a + (b + c + d + e)
  {
  }

  /** `s` starts with `p`. */
  predicate StartsWith(s: string, p: string) {
    |p| <= |s| && s[..|p|] == p
  }

  /** A string that differs from `p` at some position within both does not start with `p`. */
  lemma NotStartsWith(s: string, p: string, i: nat)
    requires i < |s| && i < |p| && s[i] != p[i]
    ensures !StartsWith(s, p)
  {
    if |p| <= |s| {
      assert s[..|p|][i] == s[i];
    }
  }

  /** Drops the prefix `p` from `s`, or fails when `s` does not start with it. */
  function StripPrefix(s: string, p: string): (r: Option<string>)
    ensures r.Some? <==> StartsWith(s, p)
    ensures r.Some? ==> s == p + r.value
  {
    if StartsWith(s, p) then Some(s[|p|..]) else None
  }

  lemma StripPrefixOfConcat(p: string, rest: string)
    ensures StripPrefix(p + rest, p) == Some(rest)
  {
    assert (p + rest)[..|p|] == p;
    assert (p + rest)[|p|..] == rest;
  }

  /** Splits `s` at the first `d`: the text before it and the text after it. */
  function Cut(s: string, d: char): (r: Option<(string, string)>)
    ensures r.Some? <==> d in s
    ensures r.Some? ==> s == r.value.0 + [d] + r.value.1 && d !in r.value.0
  {
    if s == [] then None
    else if s[0] == d then Some(([], s[1..]))
    else match Cut(s[1..], d)
      case None => None
      case Some(parts) => Some(([s[0]] + parts.0, parts.1))
  }

  /** Cutting a string at a separator that its first part avoids recovers both parts. */
  lemma {:induction false} CutOfConcat(w: string, d: char, rest: string)
    requires d !in w
    ensures Cut(w + [d] + rest, d) == Some((w, rest))
  {
    if w == [] {
      assert w + [d] + rest == [d] + rest;
    } else {
      assert (w + [d] + rest)[1..] == w[1..] + [d] + rest;
      CutOfConcat(w[1..], d, rest);
      assert [w[0]] + w[1..] == w;
    }
  }
}
