/**
 * The two pieces of Go's `strings` package that the request handlers rely on:
 * `strings.Split(s, " ")` on the bytes of a header value, and
 * `strings.Contains` on the text of an error.
 */
module GoStrings {

  type Bytes = seq<bv8>

  /** The separator the handlers split the `Authorization` header on. */
  const Space: bv8 := 0x20

  /** Number of separator bytes in `s`. */
  function Occurrences(s: Bytes): nat
  {
    if s == [] then 0
    else (if s[0] == Space then 1 else 0) + Occurrences(s[1..])
  }

  /**
   * `strings.Split(s, " ")`: the maximal separator-free runs of `s`, one more
   * than there are separators, empty runs included.
   */
  function Split(s: Bytes): (fields: seq<Bytes>)
    ensures |fields| == Occurrences(s) + 1
    ensures forall k :: 0 <= k < |fields| ==> Space !in fields[k]
  {
    if s == [] then [[]]
    else
      var rest := Split(s[1..]);
      if s[0] == Space then [[]] + rest
      else [[s[0]] + rest[0]] + rest[1..]
  }

  /** `strings.Join(fields, " ")`, the inverse of Split. */
  function Join(fields: seq<Bytes>): (s: Bytes)
    requires |fields| >= 1
    ensures |s| >= |fields[0]| && s[..|fields[0]|] == fields[0]
  {
    if |fields| == 1 then fields[0]
    else fields[0] + [Space] + Join(fields[1..])
  }

  /** Index of the first separator in `s`. */
  function IndexOfSpace(s: Bytes): (i: nat)
    requires Space in s
    ensures i < |s| && s[i] == Space && Space !in s[..i]
  {
    if s[0] == Space then 0 else 1 + IndexOfSpace(s[1..])
  }

  /** The bytes of `s` up to its first separator, or all of `s` when it has none. */
  function UpToSpace(s: Bytes): (field: Bytes)
    ensures Space !in field
  {
    if Space in s then s[..IndexOfSpace(s)] else s
  }

  /**
   * Reference reading of a bearer header, independent of Split: the bytes
   * after the first separator, up to the next separator or the end.
   */
  function BearerToken(h: Bytes): (token: Bytes)
    requires Space in h
    ensures Space !in token
  {
    UpToSpace(h[IndexOfSpace(h) + 1..])
  }

  /**
   * `s` starts with `prefix`. The handlers never call `strings.HasPrefix`;
   * this is only the step Contains is built from.
   */
  predicate HasPrefix(s: string, prefix: string)
  {
    |prefix| <= |s| && s[..|prefix|] == prefix
  }

  /** `strings.Contains`: `sub` occurs somewhere in `s`. */
  predicate Contains(s: string, sub: string)
    decreases |s|
  {
    HasPrefix(s, sub) || (s != [] && Contains(s[1..], sub))
  }

  /** `sub` sits in `s` starting at index `i`. */
  predicate OccursAt(s: string, sub: string, i: nat)
  {
    i + |sub| <= |s| && s[i..i + |sub|] == sub
  }

  /** Contains agrees with the plain reading: `sub` is the slice of `s` at some index. */
  lemma {:induction false} ContainsIsSubstring(s: string, sub: string)
    decreases |s|
    ensures Contains(s, sub) <==> exists i: nat :: OccursAt(s, sub, i)
  {
    if HasPrefix(s, sub) {
      assert OccursAt(s, sub, 0);
    } else if s == [] {
      forall i: nat
        ensures !OccursAt(s, sub, i)
      {
      }
    } else {
      ContainsIsSubstring(s[1..], sub);
      if Contains(s[1..], sub) {
        var j: nat :| OccursAt(s[1..], sub, j);
        OccursInTail(s, sub, j + 1);
      } else {
        forall i: nat
          ensures !OccursAt(s, sub, i)
        {
          if i > 0 {
            OccursInTail(s, sub, i);
          }
        }
      }
    }
  }

  /** An occurrence past index 0 is an occurrence in the tail, one index earlier. */
  lemma OccursInTail(s: string, sub: string, i: nat)
    requires s != [] && 0 < i
    ensures OccursAt(s, sub, i) <==> OccursAt(s[1..], sub, i - 1)
  {
    if i + |sub| <= |s| {
      var t := s[1..];
      forall k | i <= k < i + |sub|
        ensures s[k] == t[k - 1]
      {
      }
      assert s[i..i + |sub|] == t[i - 1..i - 1 + |sub|];
    }
  }

  /** Joining the fields of a split gives back the original bytes. */
  lemma {:induction false} JoinSplit(s: Bytes)
    ensures Join(Split(s)) == s
  {
    if s != [] {
      var rest := Split(s[1..]);
      JoinSplit(s[1..]);
      if s[0] == Space {
        assert ([[]] + rest)[1..] == rest;
        assert Join(Split(s)) == [] + [Space] + Join(rest);
        assert s == [s[0]] + s[1..];
      } else if |rest| == 1 {
        assert Join(Split(s)) == [s[0]] + rest[0];
        assert s == [s[0]] + s[1..];
      } else {
        var fields := [[s[0]] + rest[0]] + rest[1..];
        assert fields[1..] == rest[1..];
        assert Join(rest) == rest[0] + [Space] + Join(rest[1..]);
        assert Join(fields) == [s[0]] + rest[0] + [Space] + Join(rest[1..]);
        assert s == [s[0]] + s[1..];
      }
    }
  }

  /** Splitting the join of separator-free fields gives back the fields. */
  lemma {:induction false} SplitJoin(fields: seq<Bytes>)
    requires |fields| >= 1
    requires forall k :: 0 <= k < |fields| ==> Space !in fields[k]
    ensures Split(Join(fields)) == fields
  {
    if |fields| == 1 {
      SplitHeadField(fields[0], []);
      assert fields[0] + [] == fields[0];
      TwoFieldsIffSpace(fields[0]);
    } else {
      SplitJoin(fields[1..]);
      SplitAfterPrefix(fields[0], Join(fields[1..]));
      assert Join(fields) == fields[0] + [Space] + Join(fields[1..]);
      assert [fields[0]] + fields[1..] == fields;
    }
  }

  /** A separator-free prefix followed by a separator is exactly the first field. */
  lemma {:induction false} SplitAfterPrefix(a: Bytes, x: Bytes)
    requires Space !in a
    ensures Split(a + [Space] + x) == [a] + Split(x)
  {
    if a == [] {
      assert ([] + [Space] + x)[1..] == x;
    } else {
      var s := a + [Space] + x;
      assert s[1..] == a[1..] + [Space] + x;
      SplitAfterPrefix(a[1..], x);
      assert [a[0]] + a[1..] == a;
    }
  }

  /** The first field of `t + rest` is `t` when `rest` is empty or starts a new field. */
  lemma {:induction false} SplitHeadField(t: Bytes, rest: Bytes)
    requires Space !in t
    requires rest == [] || rest[0] == Space
    ensures Split(t + rest)[0] == t
  {
    if t != [] {
      assert (t + rest)[1..] == t[1..] + rest;
      SplitHeadField(t[1..], rest);
      assert [t[0]] + t[1..] == t;
    } else {
      assert t + rest == rest;
    }
  }

  /** A header splits into at least two fields exactly when it holds a separator. */
  lemma {:induction false} TwoFieldsIffSpace(h: Bytes)
    ensures |Split(h)| >= 2 <==> Space in h
  {
    if h != [] {
      TwoFieldsIffSpace(h[1..]);
      assert h == [h[0]] + h[1..];
    }
  }

  /**
   * Whatever precedes the first separator and whatever follows the second
   * field, the second field of `scheme + " " + token + rest` is `token`.
   */
  lemma SecondFieldOf(scheme: Bytes, token: Bytes, rest: Bytes)
    requires Space !in scheme && Space !in token
    requires rest == [] || rest[0] == Space
    ensures |Split(scheme + [Space] + token + rest)| >= 2
    ensures Split(scheme + [Space] + token + rest)[0] == scheme
    ensures Split(scheme + [Space] + token + rest)[1] == token
  {
    assert scheme + [Space] + token + rest == scheme + [Space] + (token + rest);
    SplitAfterPrefix(scheme, token + rest);
    SplitHeadField(token, rest);
  }

  /**
   * Conversely, a header with at least two fields is its first field, a
   * separator, its second field, and then either nothing or another separator.
   */
  lemma SecondFieldLayout(h: Bytes)
    requires |Split(h)| >= 2
    ensures var f := Split(h); var n := |f[0]| + 1 + |f[1]|;
      n <= |h| && h[..n] == f[0] + [Space] + f[1] && (n == |h| || h[n] == Space)
  {
    var f := Split(h);
    JoinSplit(h);
    var tail := Join(f[1..]);
    assert h == f[0] + [Space] + tail;
    assert tail[..|f[1]|] == f[1];
    if |f| > 2 {
      assert f[1..][1..] == f[2..];
      assert tail == f[1] + [Space] + Join(f[2..]);
    } else {
      assert tail == f[1];
    }
    var n := |f[0]| + 1 + |f[1]|;
    assert h[..n] == f[0] + [Space] + tail[..|f[1]|];
  }

  /** The second field of the split is the reference bearer token. */
  lemma SecondFieldIsBearerToken(h: Bytes)
    requires Space in h
    ensures |Split(h)| >= 2 && Split(h)[1] == BearerToken(h)
  {
    var scheme, rest := BearerLayout(h);
    SecondFieldOf(scheme, BearerToken(h), rest);
  }

  /** The bytes around the reference bearer token. */
  lemma BearerLayout(h: Bytes) returns (scheme: Bytes, rest: Bytes)
    requires Space in h
    ensures Space !in scheme && (rest == [] || rest[0] == Space)
    ensures h == scheme + [Space] + BearerToken(h) + rest
  {
    var i := IndexOfSpace(h);
    var after := h[i + 1..];
    scheme := h[..i];
    rest := UpToSpaceLayout(after);
    assert h == scheme + [Space] + after;
  }

  /** What follows the first field is empty or starts with a separator. */
  lemma UpToSpaceLayout(s: Bytes) returns (rest: Bytes)
    ensures s == UpToSpace(s) + rest
    ensures rest == [] || rest[0] == Space
  {
    if Space in s {
      var j := IndexOfSpace(s);
      rest := s[j..];
      assert s == s[..j] + rest;
    } else {
      rest := [];
      assert s == s + rest;
    }
  }

  /** Bytes added after a separator behind the second field change neither of the first two fields. */
  lemma TrailingFieldsIgnored(h: Bytes, extra: Bytes)
    requires |Split(h)| >= 2
    ensures |Split(h + [Space] + extra)| >= 2
    ensures Split(h + [Space] + extra)[0] == Split(h)[0]
    ensures Split(h + [Space] + extra)[1] == Split(h)[1]
  {
    var f := Split(h);
    SecondFieldLayout(h);
    var n := |f[0]| + 1 + |f[1]|;
    var rest := h[n..] + [Space] + extra;
    assert h == h[..n] + h[n..];
    assert h + [Space] + extra == f[0] + [Space] + f[1] + rest;
    SecondFieldOf(f[0], f[1], rest);
  }
}
