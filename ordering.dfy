/** How the store orders and filters rows: string comparison as SQL's `>=` and
    `ASC` see it on the stored names and symbols, three-part sort keys
    (`CASE ... THEN 1 ELSE 2 END`, then a number, then a text), a stable
    insertion sort, and a filter. */
module Ordering {

  /** Code-point lexicographic order on strings: a proper prefix comes first. */
  predicate StrLe(a: string, b: string)
    decreases |a|
  {
    |a| == 0 || (|b| > 0 && (a[0] < b[0] || (a[0] == b[0] && StrLe(a[1..], b[1..]))))
  }

  lemma {:induction false} StrLeReflexive(a: string)
    ensures StrLe(a, a)
    decreases |a|
  {
    if |a| > 0 {
      StrLeReflexive(a[1..]);
    }
  }

  lemma {:induction false} StrLeTotal(a: string, b: string)
    ensures StrLe(a, b) || StrLe(b, a)
    decreases |a|
  {
    if |a| > 0 && |b| > 0 && a[0] == b[0] {
      StrLeTotal(a[1..], b[1..]);
    }
  }

  lemma {:induction false} StrLeTransitive(a: string, b: string, c: string)
    requires StrLe(a, b) && StrLe(b, c)
    ensures StrLe(a, c)
    decreases |a|
  {
    if |a| > 0 && a[0] == b[0] && b[0] == c[0] {
      StrLeTransitive(a[1..], b[1..], c[1..]);
    }
  }

  lemma {:induction false} StrLeAntisymmetric(a: string, b: string)
    requires StrLe(a, b) && StrLe(b, a)
    ensures a == b
    decreases |a|
  {
    if |a| > 0 {
      StrLeAntisymmetric(a[1..], b[1..]);
      assert a == [a[0]] + a[1..];
      assert b == [b[0]] + b[1..];
    }
  }

  /** A sort key: the pivot bucket, then a number (a root's position in the
      alphabet, or a group id), then a text (a chord symbol). */
  datatype Key = Key(bucket: int, num: int, text: string)

  predicate KeyLe(a: Key, b: Key) {
    a.bucket < b.bucket
    || (a.bucket == b.bucket && (a.num < b.num || (a.num == b.num && StrLe(a.text, b.text))))
  }

  lemma KeyLeTotal(a: Key, b: Key)
    ensures KeyLe(a, b) || KeyLe(b, a)
  {
    StrLeTotal(a.text, b.text);
  }

  lemma KeyLeTransitive(a: Key, b: Key, c: Key)
    requires KeyLe(a, b) && KeyLe(b, c)
    ensures KeyLe(a, c)
  {
    if a.bucket == b.bucket == c.bucket && a.num == b.num == c.num {
      StrLeTransitive(a.text, b.text, c.text);
    }
  }

  ghost predicate SortedBy<T>(s: seq<T>, key: T -> Key) {
    forall i, j | 0 <= i < j < |s| :: KeyLe(key(s[i]), key(s[j]))
  }

  /** Inserts x before the first element whose key is not smaller. */
  function Insert<T>(x: T, s: seq<T>, key: T -> Key): (r: seq<T>)
    requires SortedBy(s, key)
    ensures SortedBy(r, key)
    ensures multiset(r) == multiset(s) + multiset{x}
  {
    if |s| == 0 then [x]
    else if KeyLe(key(x), key(s[0])) then
      assert forall j | 0 < j < |s| :: KeyLe(key(x), key(s[j])) by {
        forall j | 0 < j < |s| ensures KeyLe(key(x), key(s[j])) {
          KeyLeTransitive(key(x), key(s[0]), key(s[j]));
        }
      }
      [x] + s
    else
      var rest := Insert(x, s[1..], key);
      KeyLeTotal(key(x), key(s[0]));
      assert s == [s[0]] + s[1..];
      assert forall y | y in rest :: KeyLe(key(s[0]), key(y)) by {
        forall y | y in rest ensures KeyLe(key(s[0]), key(y)) {
          assert y in multiset(rest);
          if y != x {
            assert y in multiset(s[1..]);
            var j :| 0 <= j < |s[1..]| && s[1..][j] == y;
            assert s[j + 1] == y;
          }
        }
      }
      [s[0]] + rest
  }

  /** Insertion sort by key; rows with equal keys keep their relative order. */
  function SortBy<T>(s: seq<T>, key: T -> Key): (r: seq<T>)
    ensures SortedBy(r, key)
    ensures multiset(r) == multiset(s)
  {
    if |s| == 0 then []
    else
      assert s == [s[0]] + s[1..];
      Insert(s[0], SortBy(s[1..], key), key)
  }

  lemma SortByMembership<T>(s: seq<T>, key: T -> Key, x: T)
    ensures x in SortBy(s, key) <==> x in s
  {
    assert x in SortBy(s, key) <==> x in multiset(SortBy(s, key));
    assert x in s <==> x in multiset(s);
  }

  /** The elements of s that satisfy p, in the order of s. */
  function Filter<T(!new)>(s: seq<T>, p: T -> bool): (r: seq<T>)
    ensures forall x :: x in r <==> x in s && p(x)
    ensures |r| <= |s|
  {
    if |s| == 0 then []
    else
      assert s == [s[0]] + s[1..];
      (if p(s[0]) then [s[0]] else []) + Filter(s[1..], p)
  }

  /** Filter keeps the order of s: filtering a concatenation filters each
      part and concatenates the results. */
  lemma {:induction false} FilterConcat<T(!new)>(a: seq<T>, b: seq<T>, p: T -> bool)
    ensures Filter(a + b, p) == Filter(a, p) + Filter(b, p)
    decreases |a|
  {
    if |a| == 0 {
      assert a + b == b;
    } else {
      assert (a + b)[0] == a[0] && (a + b)[1..] == a[1..] + b;
      FilterConcat(a[1..], b, p);
    }
  }

  /** The first element Filter keeps is the first element of s satisfying p. */
  lemma {:induction false} FilterFirst<T(!new)>(s: seq<T>, p: T -> bool)
    requires |Filter(s, p)| > 0
    ensures exists i | 0 <= i < |s| :: p(s[i]) && Filter(s, p)[0] == s[i] && forall j | 0 <= j < i :: !p(s[j])
  {
    if !p(s[0]) {
      assert Filter(s, p) == Filter(s[1..], p);
      FilterFirst(s[1..], p);
      var i :| 0 <= i < |s[1..]| && p(s[1..][i]) && Filter(s[1..], p)[0] == s[1..][i]
        && forall j | 0 <= j < i :: !p(s[1..][j]);
      assert forall j | 0 < j < i + 1 :: s[j] == s[1..][j - 1];
      assert p(s[i + 1]) && Filter(s, p)[0] == s[i + 1];
    }
  }

  function Map<T, U>(s: seq<T>, f: T -> U): (r: seq<U>)
    ensures |r| == |s|
    ensures forall i | 0 <= i < |s| :: r[i] == f(s[i])
  {
    if |s| == 0 then [] else [f(s[0])] + Map(s[1..], f)
  }

  /** Mapping over a list with one more element at its end. */
  lemma MapSnoc<T, U>(a: seq<T>, x: T, f: T -> U)
    ensures Map(a + [x], f) == Map(a, f) + [f(x)]
  {
    assert forall i | 0 <= i < |a| + 1 :: Map(a + [x], f)[i] == (Map(a, f) + [f(x)])[i];
  }

  /** The integer sort key. */
  function IntKey(n: int): Key {
    Key(0, n, "")
  }

  /** Drops the repeats of a sorted list of integers, leaving each value once
      and the list strictly ascending (SQL's DISTINCT under ORDER BY ... ASC). */
  function Squeeze(s: seq<int>): (r: seq<int>)
    requires SortedBy(s, IntKey)
    ensures forall x :: x in r <==> x in s
    ensures forall i, j | 0 <= i < j < |r| :: r[i] < r[j]
  {
    if |s| <= 1 then s
    else
      var rest := Squeeze(s[1..]);
      assert forall x | x in s[1..] :: s[0] <= x by {
        forall x | x in s[1..] ensures s[0] <= x {
          var k :| 0 <= k < |s[1..]| && s[1..][k] == x;
          assert KeyLe(IntKey(s[0]), IntKey(s[k + 1]));
        }
      }
      if s[0] == s[1] then
        assert s[0] in s[1..];
        assert forall x | x in s :: x in s[1..] by {
          forall x | x in s ensures x in s[1..] {
            if x != s[0] { var k :| 0 <= k < |s| && s[k] == x; assert s[k] == s[1..][k - 1]; }
          }
        }
        rest
      else
        assert KeyLe(IntKey(s[0]), IntKey(s[1]));
        assert forall j | 0 <= j < |rest| :: s[0] < rest[j] by {
          forall j | 0 <= j < |rest| ensures s[0] < rest[j] {
            assert rest[j] in rest;
            assert rest[j] in s[1..];
          }
        }
        assert s == [s[0]] + s[1..];
        [s[0]] + rest
  }
}
