/**
 * Ordering used by the catalog queries' ORDER BY clauses.
 *
 * Strings compare character by character on their code points (binary
 * collation, the order of Oracle's BINARY sort and of PostgreSQL's "C"
 * collation for the `name` and `"char"` catalog columns); a shorter string
 * sorts before every longer string it is a prefix of.  A sort key is a list
 * of strings compared lexicographically, one per ORDER BY column.
 */
module Collation {
  import opened Seqs

  predicate StringLe(a: string, b: string)
    decreases |a|
  {
    |a| == 0 || (|b| > 0 && (a[0] < b[0] || (a[0] == b[0] && StringLe(a[1..], b[1..]))))
  }

  predicate StringLt(a: string, b: string) {
    StringLe(a, b) && a != b
  }

  /** Lexicographic order on sort keys; equal keys are ties. */
  predicate KeyLe(a: seq<string>, b: seq<string>)
    decreases |a|
  {
    |a| == 0 || (|b| > 0 && (StringLt(a[0], b[0]) || (a[0] == b[0] && KeyLe(a[1..], b[1..]))))
  }

  predicate SortedBy<T>(s: seq<T>, key: T -> seq<string>) {
    forall i, j | 0 <= i < j < |s| :: KeyLe(key(s[i]), key(s[j]))
  }

  lemma {:induction false} StringLeReflexive(a: string)
    ensures StringLe(a, a)
    decreases |a|
  {
    if |a| > 0 {
      StringLeReflexive(a[1..]);
    }
  }

  lemma {:induction false} StringLeTotal(a: string, b: string)
    ensures StringLe(a, b) || StringLe(b, a)
    decreases |a|
  {
    if |a| > 0 && |b| > 0 && a[0] == b[0] {
      StringLeTotal(a[1..], b[1..]);
    }
  }

  lemma {:induction false} StringLeAntisymmetric(a: string, b: string)
    requires StringLe(a, b) && StringLe(b, a)
    ensures a == b
    decreases |a|
  {
    if |a| > 0 {
      StringLeAntisymmetric(a[1..], b[1..]);
      assert a == [a[0]] + a[1..];
      assert b == [b[0]] + b[1..];
    }
  }

  lemma {:induction false} StringLeTransitive(a: string, b: string, c: string)
    requires StringLe(a, b) && StringLe(b, c)
    ensures StringLe(a, c)
    decreases |a|
  {
    if |a| > 0 && a[0] == b[0] && b[0] == c[0] {
      StringLeTransitive(a[1..], b[1..], c[1..]);
    }
  }

  lemma {:induction false} KeyLeTotal(a: seq<string>, b: seq<string>)
    ensures KeyLe(a, b) || KeyLe(b, a)
    decreases |a|
  {
    if |a| > 0 && |b| > 0 {
      StringLeTotal(a[0], b[0]);
      if a[0] == b[0] {
        KeyLeTotal(a[1..], b[1..]);
      }
    }
  }

  lemma StringLtIsLe(a: string, b: string)
    requires StringLt(a, b) || a == b
    ensures StringLe(a, b)
  {
    if a == b {
      StringLeReflexive(a);
    }
  }

  lemma {:induction false} KeyLeTransitive(a: seq<string>, b: seq<string>, c: seq<string>)
    requires KeyLe(a, b) && KeyLe(b, c)
    ensures KeyLe(a, c)
    decreases |a|
  {
    if |a| > 0 {
      if a[0] == b[0] && b[0] == c[0] {
        KeyLeTransitive(a[1..], b[1..], c[1..]);
      } else {
        StringLtIsLe(a[0], b[0]);
        StringLtIsLe(b[0], c[0]);
        StringLeTransitive(a[0], b[0], c[0]);
        if a[0] == c[0] {
          StringLeAntisymmetric(a[0], b[0]);
        }
      }
    }
  }

  /** Inserts `x` into sorted `s` before the first element it does not follow. */
  function Insert<T>(x: T, s: seq<T>, key: T -> seq<string>): seq<T>
    decreases |s|
  {
    if |s| == 0 then [x]
    else if KeyLe(key(x), key(s[0])) then [x] + s
    else [s[0]] + Insert(x, s[1..], key)
  }

  /** `y` sorts no later than any element of `s`. */
  predicate Precedes<T>(y: T, s: seq<T>, key: T -> seq<string>) {
    forall j | 0 <= j < |s| :: KeyLe(key(y), key(s[j]))
  }

  lemma PrependKeepsOrder<T>(y: T, s: seq<T>, key: T -> seq<string>)
    requires SortedBy(s, key) && Precedes(y, s, key)
    ensures SortedBy([y] + s, key)
  {
    var r := [y] + s;
    forall i, j | 0 <= i < j < |r|
      ensures KeyLe(key(r[i]), key(r[j]))
    {
      if i > 0 {
        assert r[i] == s[i - 1] && r[j] == s[j - 1];
      }
    }
  }

  /** A lower bound of every element carries over to any permutation. */
  lemma PrecedesPermutation<T>(y: T, s: seq<T>, t: seq<T>, key: T -> seq<string>)
    requires Precedes(y, s, key) && multiset(t) == multiset(s)
    ensures Precedes(y, t, key)
  {
    forall j | 0 <= j < |t|
      ensures KeyLe(key(y), key(t[j]))
    {
      assert t[j] in multiset(s);
      var k :| 0 <= k < |s| && s[k] == t[j];
    }
  }

  /** Inserting before the head: `x` sorts no later than the head, so no later than any element. */
  lemma InsertAtHead<T>(x: T, s: seq<T>, key: T -> seq<string>)
    requires SortedBy(s, key) && |s| > 0 && KeyLe(key(x), key(s[0]))
    ensures SortedBy([x] + s, key)
  {
    forall j | 0 <= j < |s|
      ensures KeyLe(key(x), key(s[j]))
    {
      if j > 0 {
        KeyLeTransitive(key(x), key(s[0]), key(s[j]));
      }
    }
    PrependKeepsOrder(x, s, key);
  }

  /** Inserting after the head: the head still sorts first among the tail with `x` inserted. */
  lemma InsertAfterHead<T>(x: T, s: seq<T>, tail: seq<T>, key: T -> seq<string>)
    requires SortedBy(s, key) && |s| > 0 && !KeyLe(key(x), key(s[0]))
    requires SortedBy(tail, key) && multiset(tail) == multiset(s[1..]) + multiset{x}
    ensures SortedBy([s[0]] + tail, key)
  {
    KeyLeTotal(key(x), key(s[0]));
    var rest := s[1..] + [x];
    assert Precedes(s[0], rest, key) by {
      forall j | 0 <= j < |rest|
        ensures KeyLe(key(s[0]), key(rest[j]))
      {
        if j < |s| - 1 {
          assert rest[j] == s[j + 1];
        }
      }
    }
    PrecedesPermutation(s[0], rest, tail, key);
    PrependKeepsOrder(s[0], tail, key);
  }

  lemma {:induction false} InsertKeepsOrder<T>(x: T, s: seq<T>, key: T -> seq<string>)
    requires SortedBy(s, key)
    ensures SortedBy(Insert(x, s, key), key)
    ensures multiset(Insert(x, s, key)) == multiset(s) + multiset{x}
    decreases |s|
  {
    if |s| == 0 {
    } else if KeyLe(key(x), key(s[0])) {
      InsertAtHead(x, s, key);
    } else {
      var tail := Insert(x, s[1..], key);
      InsertKeepsOrder(x, s[1..], key);
      InsertAfterHead(x, s, tail, key);
      assert s == [s[0]] + s[1..];
    }
  }

  /** Insertion sort on the key: the model of an ORDER BY clause. */
  function SortBy<T>(s: seq<T>, key: T -> seq<string>): (r: seq<T>)
    ensures SortedBy(r, key)
    ensures multiset(r) == multiset(s)
    decreases |s|
  {
    if |s| == 0 then []
    else
      var sortedTail := SortBy(s[1..], key);
      InsertKeepsOrder(s[0], sortedTail, key);
      assert s == [s[0]] + s[1..];
      Insert(s[0], sortedTail, key)
  }

  /** Projecting sorted rows keeps them sorted under any key the projection preserves. */
  lemma ProjectionKeepsOrder<R, U>(rows: seq<R>, project: R -> U, rowKey: R -> seq<string>, key: U -> seq<string>)
    requires SortedBy(rows, rowKey)
    requires forall i | 0 <= i < |rows| :: key(project(rows[i])) == rowKey(rows[i])
    ensures SortedBy(Map(project, rows), key)
  {
  }

  /**
   * `SELECT .. FROM rows WHERE admit ORDER BY key`: exactly the admitted rows,
   * each as often as in the catalog, in key order.
   */
  function SelectOrderBy<R(==)>(rows: seq<R>, admit: R -> bool, key: R -> seq<string>): (r: seq<R>)
    ensures multiset(r) == multiset(Filter(rows, admit))
    ensures SortedBy(r, key)
    ensures forall i | 0 <= i < |r| :: admit(r[i]) && r[i] in rows
  {
    var selected := Filter(rows, admit);
    var sorted := SortBy(selected, key);
    assert forall i | 0 <= i < |sorted| :: sorted[i] in multiset(selected);
    sorted
  }
}
