/**
 * In-memory stand-ins for the SQL the repositories issue: a table is a map
 * from auto-increment key to row; `SELECT ... WHERE ... ORDER BY ...` is a
 * filter over the rows in key order followed by a stable insertion sort under
 * a total preorder; `fetchone()` without `ORDER BY` takes the smallest key.
 */
module Query {
  import opened Wrappers

  ghost predicate Total<T(!new)>(le: (T, T) -> bool) {
    forall a, b :: le(a, b) || le(b, a)
  }

  ghost predicate Transitive<T(!new)>(le: (T, T) -> bool) {
    forall a, b, c :: le(a, b) && le(b, c) ==> le(a, c)
  }

  ghost predicate SortedBy<T>(s: seq<T>, le: (T, T) -> bool) {
    forall i, j :: 0 <= i < j < |s| ==> le(s[i], s[j])
  }

  /** The elements of `s` that satisfy `keep`, in their original order. */
  function Filter<T(!new)>(s: seq<T>, keep: T -> bool): (r: seq<T>)
    ensures forall x :: x in r <==> x in s && keep(x)
    ensures |r| <= |s|
  {
    if s == [] then []
    else (if keep(s[0]) then [s[0]] else []) + Filter(s[1..], keep)
  }

  /** Inserts `x` before the first element it is `le`-below. */
  function Insert<T>(x: T, s: seq<T>, le: (T, T) -> bool): (r: seq<T>)
    ensures multiset(r) == multiset(s) + multiset{x}
  {
    if s == [] then [x]
    else if le(x, s[0]) then [x] + s
    else
      assert s == [s[0]] + s[1..];
      [s[0]] + Insert(x, s[1..], le)
  }

  /** Stable insertion sort: among equal elements the earlier one stays first. */
  function Sort<T>(s: seq<T>, le: (T, T) -> bool): (r: seq<T>)
    ensures multiset(r) == multiset(s)
  {
    if s == [] then []
    else
      assert s == [s[0]] + s[1..];
      Insert(s[0], Sort(s[1..], le), le)
  }

  lemma {:induction false} InsertSorted<T(!new)>(x: T, s: seq<T>, le: (T, T) -> bool)
    requires Total(le) && Transitive(le)
    requires SortedBy(s, le)
    ensures SortedBy(Insert(x, s, le), le)
  {
    if s != [] && !le(x, s[0]) {
      var tail := Insert(x, s[1..], le);
      InsertSorted(x, s[1..], le);
      assert multiset(tail) == multiset(s[1..]) + multiset{x};
      forall j | 0 <= j < |tail|
        ensures le(s[0], tail[j])
      {
        assert tail[j] in multiset(tail);
        if tail[j] == x {
        } else {
          assert tail[j] in multiset(s[1..]);
          var k :| 0 <= k < |s[1..]| && s[1..][k] == tail[j];
          assert s[k + 1] == tail[j];
        }
      }
    }
  }

  /** The sort puts its result in `le` order. */
  lemma {:induction false} SortSorted<T(!new)>(s: seq<T>, le: (T, T) -> bool)
    requires Total(le) && Transitive(le)
    ensures SortedBy(Sort(s, le), le)
  {
    if s != [] {
      SortSorted(s[1..], le);
      InsertSorted(s[0], Sort(s[1..], le), le);
    }
  }

  /** Lexicographic order on strings by character code. */
  predicate StrLe(a: string, b: string) {
    a == [] || (b != [] && (a[0] < b[0] || (a[0] == b[0] && StrLe(a[1..], b[1..]))))
  }

  lemma {:induction false} StrLeTotal(a: string, b: string)
    ensures StrLe(a, b) || StrLe(b, a)
  {
    if a != [] && b != [] && a[0] == b[0] {
      StrLeTotal(a[1..], b[1..]);
    }
  }

  lemma {:induction false} StrLeTransitive(a: string, b: string, c: string)
    requires StrLe(a, b) && StrLe(b, c)
    ensures StrLe(a, c)
  {
    if a != [] && b != [] && c != [] && a[0] == b[0] && b[0] == c[0] {
      StrLeTransitive(a[1..], b[1..], c[1..]);
    }
  }

  /** `ORDER BY` on a nullable text column: NULL first, then by character code. */
  predicate OptStrLe(a: Option<string>, b: Option<string>) {
    a.None? || (b.Some? && StrLe(a.value, b.value))
  }

  lemma OptStrLeIsPreorder()
    ensures Total(OptStrLe) && Transitive(OptStrLe)
  {
    forall a: Option<string>, b: Option<string>
      ensures OptStrLe(a, b) || OptStrLe(b, a)
    {
      if a.Some? && b.Some? { StrLeTotal(a.value, b.value); }
    }
    forall a: Option<string>, b: Option<string>, c: Option<string> | OptStrLe(a, b) && OptStrLe(b, c)
      ensures OptStrLe(a, c)
    {
      if a.Some? { StrLeTransitive(a.value, b.value, c.value); }
    }
  }

  /** The rows of `t` whose keys lie in `[1, hi)`, in ascending key order. */
  function RowsBelow<R(!new)>(t: map<int, R>, hi: int): (r: seq<R>)
    decreases hi
    ensures forall x :: x in r <==> exists k :: 1 <= k < hi && k in t && t[k] == x
  {
    if hi <= 1 then []
    else RowsBelow(t, hi - 1) + (if hi - 1 in t then [t[hi - 1]] else [])
  }

  /** `SELECT * FROM t WHERE keep ORDER BY le`, over the keys below `hi`. */
  function Select<R(!new)>(t: map<int, R>, hi: int, keep: R -> bool, le: (R, R) -> bool): (r: seq<R>)
    ensures forall x :: x in r <==> (exists k :: 1 <= k < hi && k in t && t[k] == x) && keep(x)
  {
    var f := Filter(RowsBelow(t, hi), keep);
    var r := Sort(f, le);
    assert forall x :: x in r <==> x in multiset(r);
    assert forall x :: x in f <==> x in multiset(f);
    r
  }

  lemma SelectSorted<R(!new)>(t: map<int, R>, hi: int, keep: R -> bool, le: (R, R) -> bool)
    requires Total(le) && Transitive(le)
    ensures SortedBy(Select(t, hi, keep, le), le)
  {
    SortSorted(Filter(RowsBelow(t, hi), keep), le);
  }

  /** The smallest key in `[lo, hi)` whose row satisfies `keep`, if any. */
  function FirstKey<R(!new)>(t: map<int, R>, keep: R -> bool, lo: int, hi: int): (r: Option<int>)
    decreases hi - lo
    ensures r.Some? ==> lo <= r.value < hi && r.value in t && keep(t[r.value])
    ensures r.Some? ==> forall k :: lo <= k < r.value && k in t ==> !keep(t[k])
    ensures r.None? ==> forall k :: lo <= k < hi && k in t ==> !keep(t[k])
  {
    if lo >= hi then None
    else if lo in t && keep(t[lo]) then Some(lo)
    else FirstKey(t, keep, lo + 1, hi)
  }

  /** A key under which a value of the map is stored. */
  lemma KeyOf<K, V>(m: map<K, V>, v: V) returns (k: K)
    requires v in m.Values
    ensures k in m && m[k] == v
  {
    k :| k in m && m[k] == v;
  }
}
