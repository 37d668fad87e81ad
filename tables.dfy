/**
 * The part of Django's ORM the model needs: a table is a sequence of rows, `.filter(...)` keeps
 * the rows a predicate admits in table order, and `.get(id=...)` finds a row by its key.
 */
module Tables {
  import opened Optional

  /** `.filter(p)`: the rows that satisfy `p`, in their table order. */
  function Where<T(!new)>(rows: seq<T>, p: T -> bool): (r: seq<T>)
    ensures |r| <= |rows|
    ensures forall x :: x in r <==> x in rows && p(x)
  {
    if rows == [] then []
    else (if p(rows[0]) then [rows[0]] else []) + Where(rows[1..], p)
  }

  /** A filter every row passes keeps the whole table. */
  lemma {:induction false} WhereAll<T(!new)>(rows: seq<T>, p: T -> bool)
    requires forall i :: 0 <= i < |rows| ==> p(rows[i])
    ensures Where(rows, p) == rows
  {
    if rows != [] {
      WhereAll(rows[1..], p);
    }
  }

  /** Filtering twice is filtering by the conjunction. */
  lemma {:induction false} WhereWhere<T(!new)>(rows: seq<T>, p: T -> bool, q: T -> bool)
    ensures Where(Where(rows, p), q) == Where(rows, x => p(x) && q(x))
  {
    if rows != [] {
      WhereWhere(rows[1..], p, q);
      var head := if p(rows[0]) then [rows[0]] else [];
      var tail := Where(rows[1..], p);
      assert Where(rows, p) == head + tail;
      WhereAppend(head, tail, q);
    }
  }

  lemma {:induction false} WhereAppend<T(!new)>(a: seq<T>, b: seq<T>, p: T -> bool)
    ensures Where(a + b, p) == Where(a, p) + Where(b, p)
  {
    if a != [] {
      WhereAppend(a[1..], b, p);
      assert (a + b)[1..] == a[1..] + b;
    } else {
      assert a + b == b;
    }
  }

  /** `.get(pk=key)` on a table whose keys are read by `keyOf`: the first row with that key. */
  function Find<T(!new)>(rows: seq<T>, keyOf: T -> nat, key: nat): (r: Option<T>)
    ensures r.None? <==> forall x :: x in rows ==> keyOf(x) != key
    ensures r.Some? ==> r.value in rows && keyOf(r.value) == key
  {
    if rows == [] then None
    else if keyOf(rows[0]) == key then Some(rows[0])
    else Find(rows[1..], keyOf, key)
  }

  /** The position of the first row with the key. */
  function IndexOfKey<T>(rows: seq<T>, keyOf: T -> nat, key: nat): (r: Option<nat>)
    ensures r.None? <==> forall i :: 0 <= i < |rows| ==> keyOf(rows[i]) != key
    ensures r.Some? ==> r.value < |rows| && keyOf(rows[r.value]) == key
  {
    if rows == [] then None
    else if keyOf(rows[0]) == key then Some(0)
    else match IndexOfKey(rows[1..], keyOf, key)
      case None => None
      case Some(i) => Some(i + 1)
  }

  /** A primary key: no two rows share a key. */
  ghost predicate KeysUnique<T>(rows: seq<T>, keyOf: T -> nat) {
    forall i, j :: 0 <= i < j < |rows| ==> keyOf(rows[i]) != keyOf(rows[j])
  }

  /** With unique keys, the row found at a position is the only one with its key. */
  lemma FindUnique<T(!new)>(rows: seq<T>, keyOf: T -> nat, i: nat)
    requires KeysUnique(rows, keyOf) && i < |rows|
    ensures IndexOfKey(rows, keyOf, keyOf(rows[i])) == Some(i)
    ensures Find(rows, keyOf, keyOf(rows[i])) == Some(rows[i])
  {
    if i > 0 {
      FindUnique(rows[1..], keyOf, i - 1);
    }
  }

  /** A filter keeps a primary key a primary key. */
  lemma {:induction false} WhereKeepsKeysUnique<T(!new)>(rows: seq<T>, keyOf: T -> nat, p: T -> bool)
    requires KeysUnique(rows, keyOf)
    ensures KeysUnique(Where(rows, p), keyOf)
  {
    if rows != [] {
      var tail := rows[1..];
      assert KeysUnique(tail, keyOf) by {
        forall i, j | 0 <= i < j < |tail| ensures keyOf(tail[i]) != keyOf(tail[j]) {
          assert tail[i] == rows[i + 1] && tail[j] == rows[j + 1];
        }
      }
      WhereKeepsKeysUnique(tail, keyOf, p);
      var w := Where(tail, p);
      if p(rows[0]) {
        assert Where(rows, p) == [rows[0]] + w;
        forall x | x in w ensures keyOf(x) != keyOf(rows[0]) {
          var k :| 0 <= k < |tail| && tail[k] == x;
          assert rows[k + 1] == x;
        }
        ConsKeysUnique(rows[0], w, keyOf);
      } else {
        assert Where(rows, p) == [] + w;
      }
    }
  }

  /** A row whose key no other row has, in front of a table with a primary key. */
  lemma ConsKeysUnique<T>(x: T, rows: seq<T>, keyOf: T -> nat)
    requires KeysUnique(rows, keyOf)
    requires forall y :: y in rows ==> keyOf(y) != keyOf(x)
    ensures KeysUnique([x] + rows, keyOf)
  {
    var r := [x] + rows;
    forall i, j | 0 <= i < j < |r| ensures keyOf(r[i]) != keyOf(r[j]) {
      assert r[j] == rows[j - 1];
      if i > 0 {
        assert r[i] == rows[i - 1];
      }
    }
  }

  /** A key greater than every key in the table: the one the next insert gets. */
  function NextKey<T(!new)>(rows: seq<T>, keyOf: T -> nat): (k: nat)
    ensures forall x :: x in rows ==> keyOf(x) < k
  {
    if rows == [] then 1
    else var rest := NextKey(rows[1..], keyOf);
      if keyOf(rows[0]) < rest then rest else keyOf(rows[0]) + 1
  }

  /** Inserting a row under the next key keeps the keys unique. */
  lemma InsertKeepsKeysUnique<T(!new)>(rows: seq<T>, keyOf: T -> nat, x: T)
    requires KeysUnique(rows, keyOf) && keyOf(x) == NextKey(rows, keyOf)
    ensures KeysUnique(rows + [x], keyOf)
  {
    var rs := rows + [x];
    forall i, j | 0 <= i < j < |rs| ensures keyOf(rs[i]) != keyOf(rs[j]) {
      if j == |rows| {
        assert rs[i] in rows;
      }
    }
  }

  /** `.filter(pk=key).update(...)`: every row with the key rewritten by `f`, the others kept. */
  function Update<T(!new)>(rows: seq<T>, keyOf: T -> nat, key: nat, f: T -> T): (r: seq<T>)
    ensures |r| == |rows|
  {
    if rows == [] then []
    else [if keyOf(rows[0]) == key then f(rows[0]) else rows[0]] + Update(rows[1..], keyOf, key, f)
  }

  /** Exactly the rows with the key change, and a rewrite that keeps keys keeps them unique and findable. */
  lemma {:induction false} UpdateSpec<T(!new)>(rows: seq<T>, keyOf: T -> nat, key: nat, f: T -> T)
    requires forall x :: keyOf(f(x)) == keyOf(x)
    ensures forall i :: 0 <= i < |rows| ==>
      Update(rows, keyOf, key, f)[i] == if keyOf(rows[i]) == key then f(rows[i]) else rows[i]
    ensures forall i :: 0 <= i < |rows| ==> keyOf(Update(rows, keyOf, key, f)[i]) == keyOf(rows[i])
    ensures KeysUnique(rows, keyOf) ==> KeysUnique(Update(rows, keyOf, key, f), keyOf)
    ensures forall k :: Find(Update(rows, keyOf, key, f), keyOf, k).None? <==> Find(rows, keyOf, k).None?
  {
    if rows != [] {
      UpdateSpec(rows[1..], keyOf, key, f);
      var r := Update(rows, keyOf, key, f);
      assert r[1..] == Update(rows[1..], keyOf, key, f);
      forall i | 0 <= i < |rows|
        ensures r[i] == if keyOf(rows[i]) == key then f(rows[i]) else rows[i]
      {
        if i > 0 {
          assert r[i] == r[1..][i - 1];
        }
      }
      forall k ensures Find(r, keyOf, k).None? <==> Find(rows, keyOf, k).None? {
        if Find(r, keyOf, k).Some? {
          var x := Find(r, keyOf, k).value;
          var i :| 0 <= i < |r| && r[i] == x;
          assert keyOf(rows[i]) == k;
        }
        if Find(rows, keyOf, k).Some? {
          var x := Find(rows, keyOf, k).value;
          var i :| 0 <= i < |rows| && rows[i] == x;
          assert keyOf(r[i]) == k;
        }
      }
    }
  }
}
