/** Small shared vocabulary: optional values, results with an error message,
    integer min/max, and a stable ordering of records by a date key. */
module Common {

  datatype Option<+T> = None | Some(value: T)

  /** The result of an operation that may raise: the message is the
      exception text the source raises. */
  datatype Result<+T> = Ok(value: T) | Err(error: string)

  function Min(a: int, b: int): int { if a <= b then a else b }

  function Max(a: int, b: int): int { if a >= b then a else b }

  /** Dates are calendar day numbers; `Date - 1` is the previous day. */
  type Date = int

  /** `key` is non-decreasing along `s`. */
  ghost predicate SortedBy<T>(s: seq<T>, key: T -> int)
  {
    forall i, j :: 0 <= i < j < |s| ==> key(s[i]) <= key(s[j])
  }

  /** `key` is strictly increasing along `s` (so keys are also unique). */
  ghost predicate StrictlySortedBy<T>(s: seq<T>, key: T -> int)
  {
    forall i, j :: 0 <= i < j < |s| ==> key(s[i]) < key(s[j])
  }

  /** No two elements of `s` share a key. */
  ghost predicate KeysUnique<T>(s: seq<T>, key: T -> int)
  {
    forall i, j :: 0 <= i < j < |s| ==> key(s[i]) != key(s[j])
  }

  /** Inserts `x` into a sequence already sorted by `key`, after every
      element whose key is not larger (the insertion is stable). */
  function InsertByKey<T>(x: T, s: seq<T>, key: T -> int): (r: seq<T>)
    requires SortedBy(s, key)
    ensures SortedBy(r, key)
    ensures multiset(r) == multiset(s) + multiset{x}
    ensures |r| == |s| + 1
  {
    if s == [] then [x]
    else if key(x) < key(s[0]) then [x] + s
    else
      var rest := InsertByKey(x, s[1..], key);
      assert s == [s[0]] + s[1..];
      assert forall k :: 0 <= k < |s[1..]| ==> key(s[0]) <= key(s[1..][k]) by {
        forall k | 0 <= k < |s[1..]| ensures key(s[0]) <= key(s[1..][k]) {
          assert s[1..][k] == s[k + 1];
        }
      }
      KeysAtLeast(rest, s[1..], x, key, key(s[0]));
      [s[0]] + rest
  }

  /** A lower bound on the keys of `s` and of `x` bounds the keys of any
      arrangement of `s` with `x` added. */
  lemma KeysAtLeast<T>(r: seq<T>, s: seq<T>, x: T, key: T -> int, b: int)
    requires multiset(r) == multiset(s) + multiset{x}
    requires b <= key(x) && forall k :: 0 <= k < |s| ==> b <= key(s[k])
    ensures forall j :: 0 <= j < |r| ==> b <= key(r[j])
  {
    forall j | 0 <= j < |r| ensures b <= key(r[j]) {
      assert r[j] in multiset(r);
      if r[j] != x {
        assert r[j] in multiset(s);
        var k :| 0 <= k < |s| && s[k] == r[j];
      }
    }
  }

  /** Ordering by ascending key, as an `ORDER BY date ASC` or `sorted(...)`
      produces it: the result is a sorted permutation of the input. */
  function SortByKey<T>(s: seq<T>, key: T -> int): (r: seq<T>)
    ensures SortedBy(r, key)
    ensures multiset(r) == multiset(s)
    ensures |r| == |s|
  {
    if s == [] then []
    else
      assert s == [s[0]] + s[1..];
      InsertByKey(s[0], SortByKey(s[1..], key), key)
  }

  /** A sorted sequence whose keys are unique is strictly sorted. */
  lemma SortedUniqueIsStrict<T>(s: seq<T>, key: T -> int)
    requires SortedBy(s, key) && KeysUnique(s, key)
    ensures StrictlySortedBy(s, key)
  {
  }

  /** A value counted at least twice occurs at two distinct positions. */
  lemma {:induction false} TwoOccurrences<T>(s: seq<T>, a: T)
    requires multiset(s)[a] >= 2
    ensures exists p, q :: 0 <= p < q < |s| && s[p] == a && s[q] == a
  {
    assert s != [];
    assert s == [s[0]] + s[1..];
    if s[0] == a {
      assert a in multiset(s[1..]);
      var q :| 0 <= q < |s[1..]| && s[1..][q] == a;
      assert s[q + 1] == a;
    } else {
      TwoOccurrences(s[1..], a);
      var p, q :| 0 <= p < q < |s[1..]| && s[1..][p] == a && s[1..][q] == a;
      assert s[p + 1] == a && s[q + 1] == a;
    }
  }

  /** A value at two distinct positions is counted at least twice. */
  lemma AtTwoPositions<T>(t: seq<T>, i: int, j: int)
    requires 0 <= i < j < |t| && t[i] == t[j]
    ensures multiset(t)[t[i]] >= 2
  {
    assert t == t[..j] + t[j..];
    assert t[i] == t[..j][i];
    assert t[j] == t[j..][0];
  }

  /** Two distinct positions of a permutation `t` of `s` come from two
      distinct positions of `s`. */
  lemma PositionsOf<T>(s: seq<T>, t: seq<T>, i: int, j: int) returns (p: int, q: int)
    requires multiset(s) == multiset(t) && 0 <= i < j < |t|
    ensures 0 <= p < |s| && 0 <= q < |s| && p != q
    ensures s[p] == t[i] && s[q] == t[j]
  {
    if t[i] == t[j] {
      AtTwoPositions(t, i, j);
      TwoOccurrences(s, t[i]);
      p, q :| 0 <= p < q < |s| && s[p] == t[i] && s[q] == t[i];
    } else {
      assert t[i] in multiset(s) && t[j] in multiset(s);
      p :| 0 <= p < |s| && s[p] == t[i];
      q :| 0 <= q < |s| && s[q] == t[j];
    }
  }

  /** Keys that are unique in `s` stay unique in any permutation of `s`. */
  lemma {:induction false} PermutationKeepsKeysUnique<T>(s: seq<T>, t: seq<T>, key: T -> int)
    requires multiset(s) == multiset(t) && KeysUnique(s, key)
    ensures KeysUnique(t, key)
  {
    forall i, j | 0 <= i < j < |t| ensures key(t[i]) != key(t[j]) {
      var p, q := PositionsOf(s, t, i, j);
      if p < q { assert key(s[p]) != key(s[q]); } else { assert key(s[q]) != key(s[p]); }
    }
  }

  /** Descending from a member of a set of dates reaches its earliest
      one. */
  lemma {:induction false} LeastFrom(s: set<Date>, x: Date) returns (m: Date)
    requires x in s
    ensures m in s && forall y :: y in s ==> m <= y
    decreases set z | z in s && z < x
  {
    if forall y :: y in s ==> x <= y {
      m := x;
    } else {
      var y :| y in s && y < x;
      var lo := set z | z in s && z < y;
      var hi := set z | z in s && z < x;
      assert y in hi && y !in lo;
      assert lo <= hi;
      assert lo != hi;
      m := LeastFrom(s, y);
    }
  }

  /** The earliest date of a set that has one. */
  function Least(s: set<Date>): (m: Date)
    requires exists x :: x in s
    ensures m in s && forall y :: y in s ==> m <= y
  {
    LeastExists(s);
    var m :| m in s && forall y :: y in s ==> m <= y;
    m
  }

  lemma LeastExists(s: set<Date>)
    requires exists x :: x in s
    ensures exists m :: m in s && forall y :: y in s ==> m <= y
  {
    var x :| x in s;
    var m := LeastFrom(s, x);
  }
}
