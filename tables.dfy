/** The query primitives the views rely on, over a table held as a map from
    primary key to record: a scan in key order, `filter` and `order_by`. */
module Tables {

  /** A row of a table: its primary key and its record. */
  type Row<T> = (nat, T)

  /** Every key of m is below n: the table's auto-increment counter. */
  ghost predicate KeysBelow<T>(m: map<nat, T>, n: nat) {
    forall k :: k in m ==> k < n
  }

  /** Keys strictly increase along s, as in a scan by primary key. */
  ghost predicate Increasing<T>(s: seq<Row<T>>) {
    forall i, j :: 0 <= i < j < |s| ==> s[i].0 < s[j].0
  }

  /** No primary key appears twice in s. */
  ghost predicate DistinctKeys<T>(s: seq<Row<T>>) {
    forall i, j :: 0 <= i < j < |s| ==> s[i].0 != s[j].0
  }

  /** le is total and transitive: a valid `order_by` key. */
  ghost predicate TotalPreorder<T(!new)>(le: (T, T) -> bool) {
    && (forall a, b :: le(a, b) || le(b, a))
    && (forall a, b, c :: le(a, b) && le(b, c) ==> le(a, c))
  }

  /** Every pair of rows of s appears in le's order. */
  ghost predicate Sorted<T>(s: seq<Row<T>>, le: (T, T) -> bool) {
    forall i, j :: 0 <= i < j < |s| ==> le(s[i].1, s[j].1)
  }

  /** The rows of m whose key is below n, in key order. */
  function Scan<T>(m: map<nat, T>, n: nat): (r: seq<Row<T>>)
    ensures forall x :: x in r ==> x.0 < n && x.0 in m && m[x.0] == x.1
    ensures forall k :: k < n && k in m ==> (k, m[k]) in r
    ensures Increasing(r)
  {
    if n == 0 then []
    else Scan(m, n - 1) + if n - 1 in m then [(n - 1, m[n - 1])] else []
  }

  /** The rows of s whose record satisfies f, in the order of s. */
  function Filter<T(!new)>(s: seq<Row<T>>, f: T -> bool): (r: seq<Row<T>>)
    ensures forall x :: x in r <==> x in s && f(x.1)
  {
    if s == [] then []
    else
      assert s == [s[0]] + s[1..];
      (if f(s[0].1) then [s[0]] else []) + Filter(s[1..], f)
  }

  lemma IncreasingCons<T>(x: Row<T>, s: seq<Row<T>>)
    requires Increasing(s) && forall y :: y in s ==> x.0 < y.0
    ensures Increasing([x] + s)
  {
    var r := [x] + s;
    forall i, j | 0 <= i < j < |r| ensures r[i].0 < r[j].0 {
      assert r[j] == s[j - 1];
      if i == 0 {
        assert s[j - 1] in s;
      } else {
        assert r[i] == s[i - 1];
      }
    }
  }

  lemma {:induction false} FilterIncreasing<T(!new)>(s: seq<Row<T>>, f: T -> bool)
    requires Increasing(s)
    ensures Increasing(Filter(s, f))
  {
    if s != [] {
      var rest := Filter(s[1..], f);
      FilterIncreasing(s[1..], f);
      if f(s[0].1) {
        forall y | y in rest ensures s[0].0 < y.0 {
          var j :| 0 <= j < |s[1..]| && s[1..][j] == y;
          assert s[j + 1] == y;
        }
        IncreasingCons(s[0], rest);
      }
    }
  }

  /** Puts x before the first row that x is le-before. */
  function Insert<T>(x: Row<T>, s: seq<Row<T>>, le: (T, T) -> bool): (r: seq<Row<T>>)
    ensures multiset(r) == multiset(s) + multiset{x}
  {
    if s == [] || le(x.1, s[0].1) then [x] + s
    else
      assert s == [s[0]] + s[1..];
      [s[0]] + Insert(x, s[1..], le)
  }

  /** Insertion sort by le; rows that tie keep their order in s. */
  function OrderBy<T>(s: seq<Row<T>>, le: (T, T) -> bool): (r: seq<Row<T>>)
    ensures multiset(r) == multiset(s)
  {
    if s == [] then []
    else
      assert s == [s[0]] + s[1..];
      Insert(s[0], OrderBy(s[1..], le), le)
  }

  lemma {:induction false} InsertSorted<T(!new)>(x: Row<T>, s: seq<Row<T>>, le: (T, T) -> bool)
    requires TotalPreorder(le) && Sorted(s, le)
    ensures Sorted(Insert(x, s, le), le)
  {
    if s == [] || le(x.1, s[0].1) {
    } else {
      var rest := s[1..];
      InsertSorted(x, rest, le);
      var t := Insert(x, rest, le);
      assert le(s[0].1, x.1);
      forall j | 0 <= j < |t| ensures le(s[0].1, t[j].1) {
        assert t[j] in multiset(t);
        if t[j] != x {
          assert t[j] in multiset(rest);
          var i :| 0 <= i < |rest| && rest[i] == t[j];
          assert s[i + 1] == t[j];
        }
      }
    }
  }

  lemma {:induction false} OrderBySorted<T(!new)>(s: seq<Row<T>>, le: (T, T) -> bool)
    requires TotalPreorder(le)
    ensures Sorted(OrderBy(s, le), le)
  {
    if s != [] {
      OrderBySorted(s[1..], le);
      InsertSorted(s[0], OrderBy(s[1..], le), le);
    }
  }

  lemma {:induction false} InsertDistinct<T>(x: Row<T>, s: seq<Row<T>>, le: (T, T) -> bool)
    requires DistinctKeys(s)
    requires forall y :: y in s ==> y.0 != x.0
    ensures DistinctKeys(Insert(x, s, le))
  {
    if s == [] || le(x.1, s[0].1) {
    } else {
      var rest := s[1..];
      InsertDistinct(x, rest, le);
      var t := Insert(x, rest, le);
      forall j | 0 <= j < |t| ensures t[j].0 != s[0].0 {
        assert t[j] in multiset(t);
        if t[j] != x {
          assert t[j] in multiset(rest);
          var i :| 0 <= i < |rest| && rest[i] == t[j];
          assert s[i + 1] == t[j];
        }
      }
    }
  }

  lemma {:induction false} OrderByDistinct<T>(s: seq<Row<T>>, le: (T, T) -> bool)
    requires DistinctKeys(s)
    ensures DistinctKeys(OrderBy(s, le))
  {
    if s != [] {
      var rest := s[1..];
      OrderByDistinct(rest, le);
      var t := OrderBy(rest, le);
      forall y | y in t ensures y.0 != s[0].0 {
        assert y in multiset(t);
        var i :| 0 <= i < |rest| && rest[i] == y;
        assert s[i + 1] == y;
      }
      InsertDistinct(s[0], t, le);
    }
  }

  /** Sorting keeps exactly the rows it was given. */
  lemma OrderBySameRows<T>(s: seq<Row<T>>, le: (T, T) -> bool)
    ensures forall x :: x in OrderBy(s, le) <==> x in s
  {
    var r := OrderBy(s, le);
    forall x ensures x in r <==> x in s {
      assert x in r <==> x in multiset(r);
      assert x in s <==> x in multiset(s);
    }
  }

  /** A non-empty sequence holds its first element. */
  lemma FirstIn<T>(s: seq<T>)
    ensures s != [] ==> s[0] in s
  {
  }

  /** `Model.objects.filter(f).order_by(le)` over the rows of m with key below n:
      exactly the rows that satisfy f, each once, in le's order. */
  function Query<T(!new)>(m: map<nat, T>, n: nat, f: T -> bool, le: (T, T) -> bool): (r: seq<Row<T>>)
    requires TotalPreorder(le)
    ensures forall x :: x in r ==> x.0 in m && m[x.0] == x.1 && f(x.1)
    ensures forall k :: k < n && k in m && f(m[k]) ==> (k, m[k]) in r
    ensures DistinctKeys(r)
    ensures Sorted(r, le)
  {
    var rows := Filter(Scan(m, n), f);
    FilterIncreasing(Scan(m, n), f);
    OrderBySorted(rows, le);
    OrderByDistinct(rows, le);
    OrderBySameRows(rows, le);
    OrderBy(rows, le)
  }
}
