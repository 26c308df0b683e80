/** Grouping by player name: the group keys (the distinct names, in the
    order pandas sorts them) and the rows of one group. */
module Grouping {
  import opened Base
  import opened Seqs

  /** Python's `a <= b` on strings: code-point lexicographic order, a proper
      prefix coming first. */
  predicate NameAtMost(a: string, b: string)
  {
    a == [] || (b != [] && (a[0] < b[0] || (a[0] == b[0] && NameAtMost(a[1..], b[1..]))))
  }

  lemma {:induction false} NameOrderTotal(a: string, b: string)
    ensures NameAtMost(a, b) || NameAtMost(b, a)
  {
    if a != [] && b != [] && a[0] == b[0] {
      NameOrderTotal(a[1..], b[1..]);
    }
  }

  lemma {:induction false} NameOrderTransitive(a: string, b: string, c: string)
    requires NameAtMost(a, b) && NameAtMost(b, c)
    ensures NameAtMost(a, c)
  {
    if a != [] && a[0] == b[0] && b[0] == c[0] {
      NameOrderTransitive(a[1..], b[1..], c[1..]);
    }
  }

  lemma NameOrderIsTotalPreorder()
    ensures TotalPreorder(NameAtMost)
  {
    forall a, b ensures NameAtMost(a, b) || NameAtMost(b, a) {
      NameOrderTotal(a, b);
    }
    forall a, b, c | NameAtMost(a, b) && NameAtMost(b, c) ensures NameAtMost(a, c) {
      NameOrderTransitive(a, b, c);
    }
  }

  predicate NoDup<T(==)>(s: seq<T>)
  {
    forall i, j :: 0 <= i < j < |s| ==> s[i] != s[j]
  }

  /** A sequence has no duplicates exactly when it holds one copy of each
      of its elements. */
  lemma {:induction false} NoDupSingleCopies<T>(s: seq<T>)
    ensures NoDup(s) <==> forall x :: multiset(s)[x] <= 1
  {
    if s != [] {
      NoDupSingleCopies(s[1..]);
      assert s == [s[0]] + s[1..];
      if NoDup(s) {
        assert NoDup(s[1..]);
        assert s[0] !in s[1..];
      }
      if forall x :: multiset(s)[x] <= 1 {
        assert forall x :: multiset(s[1..])[x] <= multiset(s)[x];
        assert multiset(s[1..])[s[0]] == 0;
        forall i, j | 0 <= i < j < |s| ensures s[i] != s[j] {
          if i == 0 {
            assert s[j] in s[1..];
          } else {
            assert s[1..][i - 1] != s[1..][j - 1];
          }
        }
      }
    }
  }

  /** The distinct elements of `s`, one copy each. */
  function Distinct<T(==)>(s: seq<T>): (r: seq<T>)
    ensures NoDup(r)
    ensures forall x :: x in r ==> x in s
    ensures forall x :: x in s ==> x in r
  {
    if s == [] then []
    else if s[0] in s[1..] then Distinct(s[1..])
    else [s[0]] + Distinct(s[1..])
  }

  /** The name column of a table, read with `nameOf`. */
  function Names<T>(rows: seq<T>, nameOf: T -> string): (r: seq<string>)
    ensures |r| == |rows|
    ensures forall i :: 0 <= i < |rows| ==> r[i] == nameOf(rows[i])
  {
    seq(|rows|, i requires 0 <= i < |rows| => nameOf(rows[i]))
  }

  /** The group keys of `groupby`: every name of the table exactly once, in
      ascending order (pandas sorts group keys by default). */
  function GroupKeys<T>(rows: seq<T>, nameOf: T -> string): (keys: seq<string>)
    ensures NoDup(keys)
    ensures SortedBy(keys, NameAtMost)
    ensures forall k :: k in keys <==> k in Names(rows, nameOf)
  {
    var d := Distinct(Names(rows, nameOf));
    var keys := SortBy(d, NameAtMost);
    NameOrderIsTotalPreorder();
    SortBySorted(d, NameAtMost);
    NoDupSingleCopies(d);
    NoDupSingleCopies(keys);
    assert forall k :: k in keys <==> k in multiset(d);
    keys
  }

  /** The mask selecting one group. */
  function NameIs<T>(nameOf: T -> string, k: string): T -> bool
  {
    r => nameOf(r) == k
  }

  /** The rows of the group with key `k`, in table order; every group key
      of the table names a non-empty group. */
  function Group<T>(rows: seq<T>, nameOf: T -> string, k: string): (g: seq<T>)
    ensures forall r :: r in g ==> r in rows && nameOf(r) == k
    ensures forall r :: r in rows && nameOf(r) == k ==> r in g
    ensures k in Names(rows, nameOf) ==> g != []
  {
    var g := Filter(rows, NameIs(nameOf, k));
    assert forall r :: r in rows && nameOf(r) == k ==> r in g by {
      forall r | r in rows && nameOf(r) == k ensures r in g {
        FilterKeeps(rows, NameIs(nameOf, k), r);
      }
    }
    assert k in Names(rows, nameOf) ==> g != [] by {
      if k in Names(rows, nameOf) {
        var i :| 0 <= i < |rows| && Names(rows, nameOf)[i] == k;
        assert rows[i] in g;
      }
    }
    g
  }

  /** The sum of one column over the groups of `keys`. */
  function PerKeyTotal<T>(keys: seq<string>, rows: seq<T>, nameOf: T -> string, f: T -> int): int
  {
    if keys == [] then 0
    else Total(Group(rows, nameOf, keys[0]), f) + PerKeyTotal(keys[1..], rows, nameOf, f)
  }

  lemma {:induction false} PerKeyTotalEmpty<T>(keys: seq<string>, nameOf: T -> string, f: T -> int)
    ensures PerKeyTotal(keys, [], nameOf, f) == 0
  {
    if keys != [] {
      PerKeyTotalEmpty(keys[1..], nameOf, f);
    }
  }

  /** Adding one row to a table adds its value to the one group it joins. */
  lemma {:induction false} PerKeyTotalCons<T>(keys: seq<string>, r: T, rest: seq<T>, nameOf: T -> string, f: T -> int)
    requires NoDup(keys)
    ensures PerKeyTotal(keys, [r] + rest, nameOf, f)
         == (if nameOf(r) in keys then f(r) else 0) + PerKeyTotal(keys, rest, nameOf, f)
  {
    if keys != [] {
      assert NoDup(keys[1..]);
      PerKeyTotalCons(keys[1..], r, rest, nameOf, f);
      var rows := [r] + rest;
      assert rows[1..] == rest;
      assert Group(rows, nameOf, keys[0])
          == (if nameOf(r) == keys[0] then [r] else []) + Group(rest, nameOf, keys[0]);
      TotalAppend(if nameOf(r) == keys[0] then [r] else [], Group(rest, nameOf, keys[0]), f);
      assert nameOf(r) == keys[0] ==> nameOf(r) !in keys[1..];
      assert nameOf(r) in keys <==> nameOf(r) == keys[0] || nameOf(r) in keys[1..];
    }
  }

  /** The groups partition the table: summed over all groups, a column adds
      up to its total over the table, so each row is counted exactly once. */
  lemma {:induction false} GroupsPartition<T>(keys: seq<string>, rows: seq<T>, nameOf: T -> string, f: T -> int)
    requires NoDup(keys)
    requires forall r :: r in rows ==> nameOf(r) in keys
    ensures PerKeyTotal(keys, rows, nameOf, f) == Total(rows, f)
  {
    if rows == [] {
      PerKeyTotalEmpty(keys, nameOf, f);
    } else {
      GroupsPartition(keys, rows[1..], nameOf, f);
      PerKeyTotalCons(keys, rows[0], rows[1..], nameOf, f);
      assert rows == [rows[0]] + rows[1..];
    }
  }

  /** Every row of a table belongs to one of its groups. */
  lemma KeysCoverRows<T>(rows: seq<T>, nameOf: T -> string)
    ensures forall r :: r in rows ==> nameOf(r) in GroupKeys(rows, nameOf)
  {
    forall r | r in rows ensures nameOf(r) in GroupKeys(rows, nameOf) {
      var i :| 0 <= i < |rows| && rows[i] == r;
      assert Names(rows, nameOf)[i] == nameOf(r);
    }
  }
}
