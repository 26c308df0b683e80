/** The table operations the dashboard builds on: boolean-mask selection,
    column sums, `sort_values` and `head`. Rows are values, so a table is a
    sequence of rows. */
module Seqs {
  import opened Base

  /** `df[mask]`: the rows that satisfy `keep`, in their original order. */
  function Filter<T>(s: seq<T>, keep: T -> bool): (r: seq<T>)
    ensures |r| <= |s|
    ensures forall x :: x in r ==> x in s && keep(x)
  {
    if s == [] then [] else (if keep(s[0]) then [s[0]] else []) + Filter(s[1..], keep)
  }

  /** Selection distributes over concatenation, so it keeps the relative
      order of the rows it keeps. */
  lemma {:induction false} FilterAppend<T>(a: seq<T>, b: seq<T>, keep: T -> bool)
    ensures Filter(a + b, keep) == Filter(a, keep) + Filter(b, keep)
  {
    if a == [] {
      assert a + b == b;
    } else {
      assert (a + b)[1..] == a[1..] + b;
      FilterAppend(a[1..], b, keep);
    }
  }

  /** Selection keeps every copy of a kept row and no copy of any other row. */
  lemma {:induction false} FilterCount<T>(s: seq<T>, keep: T -> bool, x: T)
    ensures multiset(Filter(s, keep))[x] == if keep(x) then multiset(s)[x] else 0
  {
    if s != [] {
      FilterCount(s[1..], keep, x);
      assert s == [s[0]] + s[1..];
    }
  }

  /** A row satisfying the mask is selected. */
  lemma FilterKeeps<T>(s: seq<T>, keep: T -> bool, x: T)
    requires x in s && keep(x)
    ensures x in Filter(s, keep)
  {
    FilterCount(s, keep, x);
  }

  /** A mask every row satisfies selects the whole table. */
  lemma {:induction false} FilterAll<T>(s: seq<T>, keep: T -> bool)
    requires forall x :: x in s ==> keep(x)
    ensures Filter(s, keep) == s
  {
    if s != [] {
      FilterAll(s[1..], keep);
    }
  }

  /** A mask no row satisfies selects nothing. */
  lemma {:induction false} FilterNone<T>(s: seq<T>, keep: T -> bool)
    requires forall x :: x in s ==> !keep(x)
    ensures Filter(s, keep) == []
  {
    if s != [] {
      FilterNone(s[1..], keep);
    }
  }

  /** Two masks applied one after the other select what their conjunction
      selects. */
  lemma {:induction false} FilterFilter<T>(s: seq<T>, p: T -> bool, q: T -> bool, both: T -> bool)
    requires forall x :: both(x) == (p(x) && q(x))
    ensures Filter(Filter(s, p), q) == Filter(s, both)
  {
    if s != [] {
      FilterFilter(s[1..], p, q, both);
      FilterAppend(if p(s[0]) then [s[0]] else [], Filter(s[1..], p), q);
    }
  }

  /** Masks that agree on every row select the same rows. */
  lemma {:induction false} SameMask<T>(s: seq<T>, p: T -> bool, q: T -> bool)
    requires forall x :: p(x) == q(x)
    ensures Filter(s, p) == Filter(s, q)
  {
    if s != [] {
      SameMask(s[1..], p, q);
    }
  }

  /** Applying a mask twice is applying it once. */
  lemma FilterIdempotent<T>(s: seq<T>, keep: T -> bool)
    ensures Filter(Filter(s, keep), keep) == Filter(s, keep)
  {
    FilterAll(Filter(s, keep), keep);
  }

  /** Two masks commute. */
  lemma FilterCommute<T>(s: seq<T>, p: T -> bool, q: T -> bool)
    ensures Filter(Filter(s, p), q) == Filter(Filter(s, q), p)
  {
    var both := (x: T) => p(x) && q(x);
    FilterFilter(s, p, q, both);
    FilterFilter(s, q, p, both);
  }

  /** A column sum with `f` reading the column (missing cells as 0). */
  function Total<T>(s: seq<T>, f: T -> int): int
  {
    if s == [] then 0 else f(s[0]) + Total(s[1..], f)
  }

  lemma {:induction false} TotalAppend<T>(a: seq<T>, b: seq<T>, f: T -> int)
    ensures Total(a + b, f) == Total(a, f) + Total(b, f)
  {
    if a == [] {
      assert a + b == b;
    } else {
      assert (a + b)[1..] == a[1..] + b;
      TotalAppend(a[1..], b, f);
    }
  }

  /** Summing a 0/1 column counts the rows where it is 1. */
  lemma {:induction false} TotalOfFlags<T>(s: seq<T>, f: T -> int)
    requires forall x :: x in s ==> 0 <= f(x) <= 1
    ensures 0 <= Total(s, f) <= |s|
  {
    if s != [] {
      TotalOfFlags(s[1..], f);
    }
  }

  /** Summing a column that is 1 on every row counts the rows. */
  lemma {:induction false} TotalOfOnes<T>(s: seq<T>, f: T -> int)
    requires forall x :: x in s ==> f(x) == 1
    ensures Total(s, f) == |s|
  {
    if s != [] {
      TotalOfOnes(s[1..], f);
    }
  }

  /** Summing two columns row by row sums their totals, each with its weight. */
  lemma {:induction false} TotalLinear<T>(s: seq<T>, f: T -> int, g: T -> int, h: T -> int, a: int)
    requires forall x :: h(x) == f(x) + a * g(x)
    ensures Total(s, h) == Total(s, f) + a * Total(s, g)
  {
    if s != [] {
      TotalLinear(s[1..], f, g, h, a);
    }
  }

  /** `head(k)`: the first `k` rows, or all of them when there are fewer. */
  function Take<T>(s: seq<T>, k: nat): (r: seq<T>)
    ensures |r| == Min(k, |s|)
    ensures r <= s
  {
    if k <= |s| then s[..k] else s
  }

  /** `le(x, y)`: `x` may come before `y` in the order a sort produces. */
  ghost predicate TotalPreorder<T(!new)>(le: (T, T) -> bool)
  {
    && (forall x, y :: le(x, y) || le(y, x))
    && (forall x, y, z :: le(x, y) && le(y, z) ==> le(x, z))
  }

  predicate SortedBy<T>(s: seq<T>, le: (T, T) -> bool)
  {
    forall i, j :: 0 <= i < j < |s| ==> le(s[i], s[j])
  }

  /** Places `x` before the first row it may precede. */
  function Insert<T>(x: T, s: seq<T>, le: (T, T) -> bool): (r: seq<T>)
    ensures multiset(r) == multiset(s) + multiset{x}
  {
    if s == [] || le(x, s[0]) then [x] + s
    else
      assert s == [s[0]] + s[1..];
      [s[0]] + Insert(x, s[1..], le)
  }

  /** `sort_values` under the order `le`. pandas does not promise which of two
      equal rows comes first, and neither does any lemma here. */
  function SortBy<T>(s: seq<T>, le: (T, T) -> bool): (r: seq<T>)
    ensures multiset(r) == multiset(s)
  {
    if s == [] then []
    else
      assert s == [s[0]] + s[1..];
      Insert(s[0], SortBy(s[1..], le), le)
  }

  lemma {:induction false} InsertSorted<T(!new)>(x: T, s: seq<T>, le: (T, T) -> bool)
    requires TotalPreorder(le)
    requires SortedBy(s, le)
    ensures SortedBy(Insert(x, s, le), le)
  {
    var r := Insert(x, s, le);
    if s == [] {
    } else if le(x, s[0]) {
      forall i, j | 0 <= i < j < |r| ensures le(r[i], r[j]) {
        if i == 0 && j > 1 {
          assert le(x, s[0]) && le(s[0], s[j - 1]);
        }
      }
    } else {
      var t := Insert(x, s[1..], le);
      InsertSorted(x, s[1..], le);
      assert r == [s[0]] + t;
      forall j | 0 <= j < |t| ensures le(s[0], t[j]) {
        assert t[j] in multiset(t);
        if t[j] != x {
          assert t[j] in multiset(s[1..]);
          var k :| 0 <= k < |s[1..]| && s[1..][k] == t[j];
          assert s[k + 1] == t[j];
        }
      }
    }
  }

  /** The sort yields its rows in the order `le`. */
  lemma {:induction false} SortBySorted<T(!new)>(s: seq<T>, le: (T, T) -> bool)
    requires TotalPreorder(le)
    ensures SortedBy(SortBy(s, le), le)
  {
    if s != [] {
      SortBySorted(s[1..], le);
      InsertSorted(s[0], SortBy(s[1..], le), le);
    }
  }

  /** In a sorted sequence every row of a prefix may precede every row
      after it. */
  lemma PrefixPrecedesRest<T>(p: seq<T>, le: (T, T) -> bool, n: nat, y: T, x: T)
    requires SortedBy(p, le)
    requires n <= |p|
    requires y in p[..n] && x in multiset(p[n..])
    ensures le(y, x)
  {
    var i :| 0 <= i < n && p[..n][i] == y;
    var j :| 0 <= j < |p[n..]| && p[n..][j] == x;
    assert p[i] == y && p[n + j] == x;
  }

  /** `sort_values(...).head(k)` selects a top-k: `min(k, n)` rows of the
      table, in order, and no row left out may precede a row selected. */
  lemma TopK<T(!new)>(s: seq<T>, le: (T, T) -> bool, k: nat)
    requires TotalPreorder(le)
    ensures var r := Take(SortBy(s, le), k);
      && |r| == Min(k, |s|)
      && SortedBy(r, le)
      && multiset(r) <= multiset(s)
      && forall y, x :: y in r && x in multiset(s) - multiset(r) ==> le(y, x)
  {
    var p := SortBy(s, le);
    SortBySorted(s, le);
    var r := Take(p, k);
    var n := |r|;
    assert r == p[..n];
    assert p == r + p[n..];
    assert multiset(p) == multiset(r) + multiset(p[n..]);
    forall y, x | y in r && x in multiset(s) - multiset(r) ensures le(y, x) {
      PrefixPrecedesRest(p, le, n, y, x);
    }
  }
}
