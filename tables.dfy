/**
 * What the SQLAlchemy query builders used by the helpers mean over one table,
 * taken as a sequence of rows in store order: `.filter(pk == id).first()`,
 * `.filter(...)`, `.offset(skip).limit(limit)` and `.count()`, plus the key
 * sets that primary- and foreign-key constraints speak about.
 */
module Tables {
  import opened Wrappers

  function Min(a: int, b: int): int { if a <= b then a else b }

  /** No two rows of the table share a key (a primary-key constraint). */
  ghost predicate UniqueKeys<T>(rows: seq<T>, key: T -> int) {
    forall i, j :: 0 <= i < j < |rows| ==> key(rows[i]) != key(rows[j])
  }

  /** The keys present in the table. */
  function Keys<T>(rows: seq<T>, key: T -> int): (ks: set<int>)
    ensures KeysOf(rows, key, ks)
    ensures |ks| <= |rows|
  {
    if rows == [] then {}
    else
      var rest := Keys(rows[1..], key);
      KeysCons(rows, key, rest);
      {key(rows[0])} + rest
  }

  /** `ks` holds exactly the keys of the rows. */
  ghost predicate KeysOf<T>(rows: seq<T>, key: T -> int, ks: set<int>) {
    && (forall i :: 0 <= i < |rows| ==> key(rows[i]) in ks)
    && (forall k :: k in ks ==> exists i :: 0 <= i < |rows| && key(rows[i]) == k)
  }

  /** Adding the first row's key to the keys of the other rows gives the keys of all rows. */
  lemma KeysCons<T>(rows: seq<T>, key: T -> int, rest: set<int>)
    requires rows != [] && KeysOf(rows[1..], key, rest) && |rest| <= |rows| - 1
    ensures KeysOf(rows, key, {key(rows[0])} + rest)
    ensures |{key(rows[0])} + rest| <= |rows|
  {
    forall i | 1 <= i < |rows| ensures key(rows[i]) in rest {
      assert rows[i] == rows[1..][i - 1];
    }
    forall k | k in rest ensures exists i :: 0 <= i < |rows| && key(rows[i]) == k {
      var j :| 0 <= j < |rows[1..]| && key(rows[1..][j]) == k;
      assert key(rows[j + 1]) == k;
    }
  }

  /**
   * `.filter(key == id).first()`: the first row, in store order, whose key is
   * `id`, or nothing when no row carries that key.
   */
  function Lookup<T>(rows: seq<T>, key: T -> int, id: int): (r: Option<T>)
    ensures r.Some? ==> r.value in rows && key(r.value) == id
    ensures r.None? <==> id !in Keys(rows, key)
  {
    if rows == [] then None
    else if key(rows[0]) == id then Some(rows[0])
    else Lookup(rows[1..], key, id)
  }

  /** Under a primary-key constraint the lookup finds exactly the row carrying the key. */
  lemma LookupExact<T>(rows: seq<T>, key: T -> int, id: int, x: T)
    requires UniqueKeys(rows, key)
    ensures Lookup(rows, key, id) == Some(x) <==> x in rows && key(x) == id
  {
    var r := Lookup(rows, key, id);
    if x in rows && key(x) == id {
      var j :| 0 <= j < |rows| && rows[j] == x;
      assert id in Keys(rows, key);
      var i :| 0 <= i < |rows| && rows[i] == r.value;
      assert i == j;
    }
  }

  /** `.filter(keep)`: the rows satisfying `keep`, in store order. */
  function Filter<T(!new)>(rows: seq<T>, keep: T -> bool): (r: seq<T>)
    ensures |r| <= |rows|
  {
    if rows == [] then []
    else (if keep(rows[0]) then [rows[0]] else []) + Filter(rows[1..], keep)
  }

  /** The filtered table holds exactly the rows that pass the test. */
  lemma {:induction false} FilterMembers<T(!new)>(rows: seq<T>, keep: T -> bool)
    ensures forall x :: x in Filter(rows, keep) <==> x in rows && keep(x)
  {
    if rows != [] {
      FilterMembers(rows[1..], keep);
      assert rows == [rows[0]] + rows[1..];
    }
  }

  /** Filtering keeps store order: the kept rows of an earlier segment come first. */
  lemma {:induction false} FilterAppend<T(!new)>(a: seq<T>, b: seq<T>, keep: T -> bool)
    ensures Filter(a + b, keep) == Filter(a, keep) + Filter(b, keep)
  {
    if a != [] {
      var h := if keep(a[0]) then [a[0]] else [];
      assert (a + b)[0] == a[0];
      assert (a + b)[1..] == a[1..] + b;
      assert Filter(a + b, keep) == h + Filter(a[1..] + b, keep);
      FilterAppend(a[1..], b, keep);
      assert Filter(a, keep) == h + Filter(a[1..], keep);
    } else {
      assert a + b == b;
    }
  }

  /** A filter every row passes keeps the whole table. */
  lemma {:induction false} FilterAll<T(!new)>(rows: seq<T>, keep: T -> bool)
    requires forall x :: x in rows ==> keep(x)
    ensures Filter(rows, keep) == rows
  {
    if rows != [] {
      assert keep(rows[0]);
      forall x | x in rows[1..] ensures keep(x) {
        assert x in rows;
      }
      FilterAll(rows[1..], keep);
    }
  }

  /** Filtering by `first`, then by `second`, is filtering once by both. */
  lemma {:induction false} FilterTwice<T(!new)>(rows: seq<T>, first: T -> bool, second: T -> bool, both: T -> bool)
    requires forall x :: x in rows ==> (both(x) <==> first(x) && second(x))
    ensures Filter(Filter(rows, first), second) == Filter(rows, both)
  {
    if rows != [] {
      var d, t := rows[0], rows[1..];
      var h := if first(d) then [d] else [];
      assert Filter(rows, first) == h + Filter(t, first);
      FilterAppend(h, Filter(t, first), second);
      forall x | x in t ensures both(x) <==> first(x) && second(x) {
        assert x in rows;
      }
      FilterTwice(t, first, second, both);
      assert both(d) <==> first(d) && second(d);
      if first(d) {
        assert Filter(h, second) == (if second(d) then [d] else []) + Filter([], second);
      } else {
        assert h == [];
      }
    }
  }

  /** Filtering a table with unique keys keeps them unique. */
  lemma {:induction false} FilterKeepsKeysUnique<T(!new)>(rows: seq<T>, key: T -> int, keep: T -> bool)
    requires UniqueKeys(rows, key)
    ensures UniqueKeys(Filter(rows, keep), key)
  {
    if rows != [] {
      var t := rows[1..];
      UniqueKeysTail(rows, key);
      FilterKeepsKeysUnique(t, key, keep);
      FilterMembers(t, keep);
      var rest := Filter(t, keep);
      if keep(rows[0]) {
        forall j | 0 <= j < |rest| ensures key(rest[j]) != key(rows[0]) {
          assert rest[j] in t;
          var k :| 0 <= k < |t| && t[k] == rest[j];
          assert rows[k + 1] == t[k];
        }
        var r := [rows[0]] + rest;
        assert Filter(rows, keep) == r;
        forall i, j | 0 <= i < j < |r| ensures key(r[i]) != key(r[j]) {
          assert r[j] == rest[j - 1];
          if i > 0 { assert r[i] == rest[i - 1]; }
        }
      }
    }
  }

  /**
   * `.offset(skip).limit(limit)`: the rows from position `skip` on, at most
   * `limit` of them, in store order.
   */
  function Page<T>(rows: seq<T>, skip: nat, limit: nat): (r: seq<T>)
    ensures |r| <= limit
    ensures |r| == if skip >= |rows| then 0 else Min(limit, |rows| - skip)
    ensures forall i :: 0 <= i < |r| ==> r[i] == rows[skip + i]
  {
    var rest := if skip <= |rows| then rows[skip..] else [];
    if limit <= |rest| then rest[..limit] else rest
  }

  /** Two consecutive pages reassemble into the page spanning both. */
  lemma PagesConcat<T>(rows: seq<T>, skip: nat, n: nat, m: nat)
    ensures Page(rows, skip, n) + Page(rows, skip + n, m) == Page(rows, skip, n + m)
  {
    var a, b, c := Page(rows, skip, n), Page(rows, skip + n, m), Page(rows, skip, n + m);
    assert |a + b| == |c|;
    forall i | 0 <= i < |c| ensures (a + b)[i] == c[i] {
      if i >= |a| { assert (a + b)[i] == b[i - |a|] == rows[skip + n + (i - |a|)]; }
    }
  }

  /** Under a primary-key constraint, consecutive pages share no key. */
  lemma ConsecutivePagesDisjoint<T>(rows: seq<T>, key: T -> int, skip: nat, n: nat, m: nat)
    requires UniqueKeys(rows, key)
    ensures Keys(Page(rows, skip, n), key) !! Keys(Page(rows, skip + n, m), key)
  {
    var a, b := Page(rows, skip, n), Page(rows, skip + n, m);
    forall k | k in Keys(a, key) ensures k !in Keys(b, key) {
      var i :| 0 <= i < |a| && key(a[i]) == k;
      assert |a| <= n;
      forall j | 0 <= j < |b| ensures key(b[j]) != k {
        assert key(rows[skip + i]) != key(rows[skip + n + j]);
      }
    }
  }

  /** The first two pages of `n` rows of a key-unique table share no key and join into the page of `2n` rows. */
  lemma PageHalves<T>(rows: seq<T>, key: T -> int, n: nat)
    requires UniqueKeys(rows, key)
    ensures Keys(Page(rows, 0, n), key) !! Keys(Page(rows, n, n), key)
    ensures Page(rows, 0, n) + Page(rows, n, n) == Page(rows, 0, 2 * n)
  {
    ConsecutivePagesDisjoint(rows, key, 0, n, n);
    PagesConcat(rows, 0, n, n);
  }

  /** Dropping the first row keeps a primary-key constraint. */
  lemma UniqueKeysTail<T>(rows: seq<T>, key: T -> int)
    requires UniqueKeys(rows, key) && rows != []
    ensures UniqueKeys(rows[1..], key)
  {
    var rest := rows[1..];
    forall i, j | 0 <= i < j < |rest| ensures key(rest[i]) != key(rest[j]) {
      assert key(rows[i + 1]) != key(rows[j + 1]);
    }
  }

  /** Under a primary-key constraint there are as many keys as rows. */
  lemma {:induction false} UniqueKeysCount<T>(rows: seq<T>, key: T -> int)
    requires UniqueKeys(rows, key)
    ensures |Keys(rows, key)| == |rows|
  {
    if rows != [] {
      var rest := rows[1..];
      UniqueKeysTail(rows, key);
      UniqueKeysCount(rest, key);
      forall j | 0 <= j < |rest| ensures key(rest[j]) != key(rows[0]) {
        assert key(rows[0]) != key(rows[j + 1]);
      }
    }
  }

  lemma NonEmptyHasElement(a: set<int>)
    requires a != {}
    ensures exists x :: x in a
  {
    if forall x :: x !in a { assert false; }
  }

  lemma {:induction false} SubsetCardinality(a: set<int>, b: set<int>)
    requires a <= b
    ensures |a| <= |b|
    decreases |a|
  {
    if a != {} {
      NonEmptyHasElement(a);
      var x :| x in a;
      SubsetCardinality(a - {x}, b - {x});
    }
  }

  /**
   * A table whose key is also a foreign key into another table cannot have
   * more rows than the table it references.
   */
  lemma ReferencingTableBound<T, U>(child: seq<T>, ckey: T -> int, parent: seq<U>, pkey: U -> int)
    requires UniqueKeys(child, ckey)
    requires Keys(child, ckey) <= Keys(parent, pkey)
    ensures |child| <= |parent|
  {
    UniqueKeysCount(child, ckey);
    SubsetCardinality(Keys(child, ckey), Keys(parent, pkey));
  }
}
