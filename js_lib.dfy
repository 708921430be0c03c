/** Models of the JavaScript built-ins the dashboard's logic relies on:
    `String.prototype.split` and `trim`, string comparison and the default
    `Array.prototype.sort`, the insertion-ordered `Set`, and the array
    methods `filter`, `findIndex`/`find` and `reduce`. */
module JsLib {

  datatype Option<+T> = None | Some(value: T)

  datatype Result<+T, +E> = Ok(value: T) | Err(error: E)

  predicate NoDuplicates<T(==)>(s: seq<T>)
  {
    forall i, j :: 0 <= i < j < |s| ==> s[i] != s[j]
  }

  // ---------------------------------------------------------------------
  // split on a single character
  // ---------------------------------------------------------------------

  /** `s.split(c)[0]`: the part of `s` before the first `c`, or all of `s`
      when it has no `c`. */
  function PrefixBefore(s: string, c: char): (r: string)
    ensures |r| <= |s| && r == s[..|r|]
    ensures c !in r
    ensures |r| < |s| ==> s[|r|] == c
  {
    if s == [] || s[0] == c then [] else [s[0]] + PrefixBefore(s[1..], c)
  }

  /** `s.split(c)[1]`: the part between the first and the second `c`
      (or up to the end), and `None` (JavaScript's `undefined`) when `s`
      has no `c` at all. */
  function SecondPart(s: string, c: char): (r: Option<string>)
    ensures r.None? <==> c !in s
  {
    var first := PrefixBefore(s, c);
    if |first| == |s| then None else Some(PrefixBefore(s[|first| + 1..], c))
  }

  lemma PrefixBeforeNone(s: string, c: char)
    requires c !in s
    ensures PrefixBefore(s, c) == s
  {
  }

  /** Splitting `a + [c] + b` at its first `c` gives back `a`. */
  lemma {:induction false} PrefixBeforeJoin(a: string, c: char, b: string)
    requires c !in a
    ensures PrefixBefore(a + [c] + b, c) == a
  {
    if a != [] {
      assert (a + [c] + b)[1..] == a[1..] + [c] + b;
      PrefixBeforeJoin(a[1..], c, b);
    }
  }

  /** `(a + c + b).split(c)[1]` is `b` when neither part holds a `c`, and
      stays `b` when a further `c` and anything after it follow. */
  lemma SecondPartJoin(a: string, c: char, b: string, d: string)
    requires c !in a && c !in b
    ensures SecondPart(a + [c] + b, c) == Some(b)
    ensures SecondPart(a + [c] + b + [c] + d, c) == Some(b)
  {
    PrefixBeforeJoin(a, c, b);
    PrefixBeforeNone(b, c);
    assert (a + [c] + b)[|a| + 1..] == b;
    var s := a + [c] + b + [c] + d;
    assert s == a + [c] + (b + [c] + d);
    PrefixBeforeJoin(a, c, b + [c] + d);
    assert s[|a| + 1..] == b + [c] + d;
    PrefixBeforeJoin(b, c, d);
  }

  /** Joining with a separator that the first parts do not contain is
      injective. */
  lemma JoinInjective(a1: string, b1: string, a2: string, b2: string, c: char)
    requires c !in a1 && c !in a2
    requires a1 + [c] + b1 == a2 + [c] + b2
    ensures a1 == a2 && b1 == b2
  {
    PrefixBeforeJoin(a1, c, b1);
    PrefixBeforeJoin(a2, c, b2);
    var s := a1 + [c] + b1;
    assert s[|a1| + 1..] == b1;
    assert (a2 + [c] + b2)[|a2| + 1..] == b2;
  }

  // ---------------------------------------------------------------------
  // trim
  // ---------------------------------------------------------------------

  /** The code points ECMAScript counts as WhiteSpace or LineTerminator,
      which `String.prototype.trim` strips from both ends: TAB, LF, VT, FF,
      CR, SPACE, NO-BREAK SPACE, OGHAM SPACE MARK, the spaces U+2000 to
      U+200A, LINE and PARAGRAPH SEPARATOR, NARROW NO-BREAK SPACE, MEDIUM
      MATHEMATICAL SPACE, IDEOGRAPHIC SPACE and the byte order mark. */
  predicate IsWhitespace(ch: char)
  {
    || '\t' <= ch <= '\r'
    || ch == ' '
    || ch == '\U{00A0}'
    || ch == '\U{1680}'
    || '\U{2000}' <= ch <= '\U{200A}'
    || ch == '\U{2028}' || ch == '\U{2029}'
    || ch == '\U{202F}'
    || ch == '\U{205F}'
    || ch == '\U{3000}'
    || ch == '\U{FEFF}'
  }

  predicate AllWhitespace(s: string)
  {
    forall i :: 0 <= i < |s| ==> IsWhitespace(s[i])
  }

  /** How many whitespace characters `s` starts with. */
  function LeadingWhitespace(s: string): (n: nat)
    ensures n <= |s|
    ensures forall i :: 0 <= i < n ==> IsWhitespace(s[i])
    ensures n < |s| ==> !IsWhitespace(s[n])
  {
    if s == [] || !IsWhitespace(s[0]) then 0 else 1 + LeadingWhitespace(s[1..])
  }

  /** How many whitespace characters `s` ends with. */
  function TrailingWhitespace(s: string): (n: nat)
    ensures n <= |s|
    ensures forall i :: |s| - n <= i < |s| ==> IsWhitespace(s[i])
    ensures n < |s| ==> !IsWhitespace(s[|s| - n - 1])
  {
    if s == [] || !IsWhitespace(s[|s| - 1]) then 0 else 1 + TrailingWhitespace(s[..|s| - 1])
  }

  /** `s.trim()`: `s` without its leading and trailing whitespace. */
  function Trim(s: string): (r: string)
    ensures |r| <= |s|
  {
    var t := s[LeadingWhitespace(s)..];
    t[..|t| - TrailingWhitespace(t)]
  }

  /** What `trim` removes is whitespace, and what it keeps is the middle of
      `s`, which neither starts nor ends with whitespace. */
  lemma TrimKeepsMiddle(s: string)
    ensures var k := LeadingWhitespace(s);
            var r := Trim(s);
            && k + |r| <= |s|
            && r == s[k..k + |r|]
            && AllWhitespace(s[..k])
            && AllWhitespace(s[k + |r|..])
            && (r == [] || (!IsWhitespace(r[0]) && !IsWhitespace(r[|r| - 1])))
  {
    var k := LeadingWhitespace(s);
    var t := s[k..];
    var m := TrailingWhitespace(t);
    var r := Trim(s);
    assert r == s[k..k + |r|];
    forall i | k + |r| <= i < |s| ensures IsWhitespace(s[i]) {
      assert s[i] == t[i - k];
    }
    if r != [] {
      assert r[0] == t[0] == s[k];
    }
  }

  /** Trimming leaves nothing exactly when the string is whitespace only. */
  lemma TrimEmptyIffWhitespace(s: string)
    ensures Trim(s) == [] <==> AllWhitespace(s)
  {
    TrimKeepsMiddle(s);
  }

  lemma {:induction false} TrimIdempotent(s: string)
    ensures Trim(Trim(s)) == Trim(s)
  {
    var r := Trim(s);
    TrimKeepsMiddle(s);
    assert LeadingWhitespace(r) == 0;
    assert r[0..] == r;
    assert TrailingWhitespace(r) == 0;
  }

  // ---------------------------------------------------------------------
  // string order and the default Array.prototype.sort
  // ---------------------------------------------------------------------

  /** `a < b` on JavaScript strings: lexicographic order on characters, a
      proper prefix coming first. */
  predicate StrLess(a: string, b: string)
  {
    if b == [] then false
    else if a == [] then true
    else a[0] < b[0] || (a[0] == b[0] && StrLess(a[1..], b[1..]))
  }

  lemma {:induction false} StrLessIrreflexive(a: string)
    ensures !StrLess(a, a)
  {
    if a != [] {
      StrLessIrreflexive(a[1..]);
    }
  }

  lemma {:induction false} StrLessTransitive(a: string, b: string, c: string)
    requires StrLess(a, b) && StrLess(b, c)
    ensures StrLess(a, c)
  {
    if a != [] && a[0] == b[0] && b[0] == c[0] {
      StrLessTransitive(a[1..], b[1..], c[1..]);
    }
  }

  lemma {:induction false} StrLessTotal(a: string, b: string)
    ensures a == b || StrLess(a, b) || StrLess(b, a)
  {
    if a != [] && b != [] && a[0] == b[0] {
      StrLessTotal(a[1..], b[1..]);
      if a[1..] == b[1..] {
        assert a == [a[0]] + a[1..] && b == [b[0]] + b[1..];
      }
    }
  }

  lemma StrLessAsymmetric(a: string, b: string)
    requires StrLess(a, b)
    ensures !StrLess(b, a)
  {
    if StrLess(b, a) {
      StrLessTransitive(a, b, a);
      StrLessIrreflexive(a);
    }
  }

  /** Strictly ascending: sorted and without duplicates. */
  predicate StrictlySorted(s: seq<string>)
  {
    forall i, j :: 0 <= i < j < |s| ==> StrLess(s[i], s[j])
  }

  lemma StrictlySortedNoDuplicates(s: seq<string>)
    requires StrictlySorted(s)
    ensures NoDuplicates(s)
  {
    forall i, j | 0 <= i < j < |s| ensures s[i] != s[j] {
      StrLessIrreflexive(s[i]);
    }
  }

  /** One step of an insertion sort: `x` placed before the first element
      that is not smaller than it. */
  function Insert(x: string, s: seq<string>): (r: seq<string>)
    ensures multiset(r) == multiset(s) + multiset{x}
  {
    if s == [] then [x]
    else
      assert s == [s[0]] + s[1..];
      if StrLess(s[0], x) then [s[0]] + Insert(x, s[1..])
    else [x] + s
  }

  /** A head smaller than every element of a strictly ascending tail
      extends it. */
  lemma PrependStrictlySorted(h: string, t: seq<string>)
    requires StrictlySorted(t)
    requires forall k :: 0 <= k < |t| ==> StrLess(h, t[k])
    ensures StrictlySorted([h] + t)
  {
    var r := [h] + t;
    forall i, j | 0 <= i < j < |r| ensures StrLess(r[i], r[j]) {
      assert r[j] == t[j - 1];
      if i > 0 {
        assert r[i] == t[i - 1];
      }
    }
  }

  lemma {:induction false} InsertStrictlySorted(x: string, s: seq<string>)
    requires StrictlySorted(s) && x !in s
    ensures StrictlySorted(Insert(x, s))
  {
    if s == [] {
    } else if StrLess(s[0], x) {
      var rest := Insert(x, s[1..]);
      InsertStrictlySorted(x, s[1..]);
      forall k | 0 <= k < |rest| ensures StrLess(s[0], rest[k]) {
        assert rest[k] in multiset(s[1..]) + multiset{x};
        if rest[k] != x {
          var m :| 0 <= m < |s[1..]| && s[1..][m] == rest[k];
          assert s[m + 1] == rest[k];
        }
      }
      PrependStrictlySorted(s[0], rest);
    } else {
      assert x != s[0];
      StrLessTotal(x, s[0]);
      forall k | 0 <= k < |s| ensures StrLess(x, s[k]) {
        if k > 0 {
          StrLessTransitive(x, s[0], s[k]);
        }
      }
      PrependStrictlySorted(x, s);
    }
  }

  /** The default `Array.prototype.sort` on an array of strings. */
  function SortStrings(s: seq<string>): (r: seq<string>)
    ensures multiset(r) == multiset(s)
  {
    if s == [] then []
    else
      assert s == [s[0]] + s[1..];
      Insert(s[0], SortStrings(s[1..]))
  }

  /** Sorting a sequence without duplicates gives a strictly ascending one. */
  lemma {:induction false} SortStringsStrict(s: seq<string>)
    requires NoDuplicates(s)
    ensures StrictlySorted(SortStrings(s))
  {
    if s != [] {
      var rest := SortStrings(s[1..]);
      assert NoDuplicates(s[1..]) by {
        forall i, j | 0 <= i < j < |s[1..]| ensures s[1..][i] != s[1..][j] {
          assert s[1..][i] == s[i + 1] && s[1..][j] == s[j + 1];
        }
      }
      SortStringsStrict(s[1..]);
      assert s[0] !in rest by {
        forall m | 0 <= m < |s[1..]| ensures s[1..][m] != s[0] {
          assert s[1..][m] == s[m + 1];
        }
        assert s[0] !in multiset(s[1..]);
      }
      InsertStrictlySorted(s[0], rest);
    }
  }

  // ---------------------------------------------------------------------
  // the insertion-ordered Set
  // ---------------------------------------------------------------------

  /** `set.add(x)` on a JavaScript `Set`, whose iteration order is the order
      of first insertion. */
  function SetAdd<T(==)>(s: seq<T>, x: T): seq<T>
  {
    if x in s then s else s + [x]
  }

  /** `Array.from(new Set(xs))`: every value of `xs` once, in the order of
      its first occurrence. */
  function FirstSeen<T(==,!new)>(xs: seq<T>): (r: seq<T>)
    ensures NoDuplicates(r)
    ensures forall y :: y in r <==> y in xs
  {
    if xs == [] then []
    else
      var prev := FirstSeen(xs[..|xs| - 1]);
      assert forall y :: y in xs <==> y in xs[..|xs| - 1] || y == xs[|xs| - 1] by {
        assert xs == xs[..|xs| - 1] + [xs[|xs| - 1]];
      }
      SetAdd(prev, xs[|xs| - 1])
  }

  lemma FirstSeenAppend<T(!new)>(xs: seq<T>, x: T)
    ensures FirstSeen(xs + [x]) == SetAdd(FirstSeen(xs), x)
  {
    assert (xs + [x])[..|xs|] == xs;
  }

  /** `xs.indexOf(y)`: the position of the first occurrence of `y`. */
  function FirstIndex<T(==)>(xs: seq<T>, y: T): (k: nat)
    requires y in xs
    ensures k < |xs| && xs[k] == y
    ensures forall j :: 0 <= j < k ==> xs[j] != y
  {
    if xs[0] == y then 0 else 1 + FirstIndex(xs[1..], y)
  }

  lemma FirstIndexPrefix<T>(xs: seq<T>, n: nat, y: T)
    requires n <= |xs| && y in xs[..n]
    ensures FirstIndex(xs[..n], y) == FirstIndex(xs, y)
  {
    var k1 := FirstIndex(xs[..n], y);
    var k2 := FirstIndex(xs, y);
    assert xs[k1] == y;
    forall j | 0 <= j < k1 ensures xs[j] != y {
      assert xs[..n][j] == xs[j];
    }
  }

  /** The values come out in the order in which they were first seen. */
  lemma {:induction false} FirstSeenOrder<T(!new)>(xs: seq<T>)
    ensures forall i, j :: 0 <= i < j < |FirstSeen(xs)| ==>
              FirstIndex(xs, FirstSeen(xs)[i]) < FirstIndex(xs, FirstSeen(xs)[j])
  {
    if xs != [] {
      var n := |xs| - 1;
      var init := xs[..n];
      var last := xs[n];
      var prev := FirstSeen(init);
      var r := FirstSeen(xs);
      FirstSeenOrder(init);
      assert xs[..n] == init;
      forall y | y in prev ensures FirstIndex(xs, y) == FirstIndex(init, y) {
        FirstIndexPrefix(xs, n, y);
      }
      if last !in prev {
        assert r == prev + [last];
        assert FirstIndex(xs, last) == n;
        forall i | 0 <= i < |prev| ensures FirstIndex(xs, r[i]) < n {
          assert r[i] == prev[i];
        }
      }
    }
  }

  // ---------------------------------------------------------------------
  // filter, findIndex / find, reduce
  // ---------------------------------------------------------------------

  /** `s.filter(keep)`. */
  function Filter<T(==,!new)>(s: seq<T>, keep: T -> bool): (r: seq<T>)
    ensures |r| <= |s|
    ensures forall x :: x in r <==> x in s && keep(x)
  {
    if s == [] then []
    else (if keep(s[0]) then [s[0]] else []) + Filter(s[1..], keep)
  }

  /** Filtering distributes over concatenation, so the kept elements keep
      their relative order. */
  lemma {:induction false} FilterConcat<T(!new)>(a: seq<T>, b: seq<T>, keep: T -> bool)
    ensures Filter(a + b, keep) == Filter(a, keep) + Filter(b, keep)
  {
    if a == [] {
      assert a + b == b;
    } else {
      assert (a + b)[1..] == a[1..] + b;
      FilterConcat(a[1..], b, keep);
    }
  }

  /** No two elements of `s` share a key. */
  predicate DistinctKeys<T, K(==)>(s: seq<T>, key: T -> K)
  {
    forall i, j :: 0 <= i < j < |s| ==> key(s[i]) != key(s[j])
  }

  /** Filtering never makes two elements share a key. */
  lemma {:induction false} FilterDistinctKeys<T(!new), K>(s: seq<T>, keep: T -> bool, key: T -> K)
    requires DistinctKeys(s, key)
    ensures DistinctKeys(Filter(s, keep), key)
  {
    if s != [] {
      var rest := Filter(s[1..], keep);
      FilterDistinctKeys(s[1..], keep, key);
      forall x | x in rest
        ensures key(x) != key(s[0])
      {
        var j :| 0 <= j < |s[1..]| && s[1..][j] == x;
        assert s[j + 1] == x;
      }
    }
  }

  /** `s.findIndex(p)`, with `|s|` standing for JavaScript's `-1`. */
  function FindIndex<T>(s: seq<T>, p: T -> bool): (k: nat)
    ensures k <= |s|
    ensures k < |s| ==> p(s[k])
    ensures forall j :: 0 <= j < k ==> !p(s[j])
  {
    if s == [] then 0 else if p(s[0]) then 0 else 1 + FindIndex(s[1..], p)
  }

  /** `s.reduce((sum, x) => sum + f(x), 0)`: a left fold. */
  function SumBy<T>(s: seq<T>, f: T -> int): (total: int)
    ensures s == [] ==> total == 0
    ensures (forall x :: x in s ==> f(x) >= 0) ==> total >= 0
  {
    if s == [] then 0 else SumBy(s[..|s| - 1], f) + f(s[|s| - 1])
  }

  lemma {:induction false} SumByConcat<T>(a: seq<T>, b: seq<T>, f: T -> int)
    ensures SumBy(a + b, f) == SumBy(a, f) + SumBy(b, f)
  {
    if b != [] {
      assert (a + b)[..|a + b| - 1] == a + b[..|b| - 1];
      SumByConcat(a, b[..|b| - 1], f);
    } else {
      assert a + b == a;
    }
  }
}
