/**
 * Python's `<` on strings and on lists, and the stable sort `sorted(xs, key=k)`
 * that `_prepare` applies with the list of a record's field names as its key.
 */
module Ordering {

  /**
   * Python's `<` on two sequences, given `<` on their elements: the first
   * position where they differ decides; a proper prefix is smaller.
   */
  function LexLess<T(==)>(a: seq<T>, b: seq<T>, less: (T, T) -> bool): bool
    decreases |a|
  {
    if |a| == 0 then |b| > 0
    else if |b| == 0 then false
    else if a[0] == b[0] then LexLess(a[1..], b[1..], less)
    else less(a[0], b[0])
  }

  ghost predicate StrictTotalOrder<T(!new)>(less: (T, T) -> bool)
  {
    && (forall x :: !less(x, x))
    && (forall x, y, z :: less(x, y) && less(y, z) ==> less(x, z))
    && (forall x, y :: x != y ==> less(x, y) || less(y, x))
  }

  lemma {:induction false} LexIrreflexive<T(!new)>(a: seq<T>, less: (T, T) -> bool)
    requires StrictTotalOrder(less)
    ensures !LexLess(a, a, less)
    decreases |a|
  {
    if |a| > 0 {
      LexIrreflexive(a[1..], less);
    }
  }

  lemma {:induction false} LexTransitive<T(!new)>(a: seq<T>, b: seq<T>, c: seq<T>, less: (T, T) -> bool)
    requires StrictTotalOrder(less)
    requires LexLess(a, b, less) && LexLess(b, c, less)
    ensures LexLess(a, c, less)
    decreases |a|
  {
    if |a| > 0 && |b| > 0 && |c| > 0 && a[0] == b[0] && b[0] == c[0] {
      LexTransitive(a[1..], b[1..], c[1..], less);
    }
  }

  lemma {:induction false} LexConnected<T(!new)>(a: seq<T>, b: seq<T>, less: (T, T) -> bool)
    requires StrictTotalOrder(less)
    requires a != b
    ensures LexLess(a, b, less) || LexLess(b, a, less)
    decreases |a|
  {
    if |a| > 0 && |b| > 0 && a[0] == b[0] {
      assert a == [a[0]] + a[1..] && b == [b[0]] + b[1..];
      LexConnected(a[1..], b[1..], less);
    }
  }

  /** Python's `<` on characters compares code points. */
  function CharLess(x: char, y: char): bool
  {
    x < y
  }

  /** Python's `<` on `str`. */
  function StrLess(a: string, b: string): bool
  {
    LexLess(a, b, CharLess)
  }

  /** Python's `<` on a list of `str`, such as `list(cls.to_dict(r).keys())`. */
  function KeysLess(a: seq<string>, b: seq<string>): bool
  {
    LexLess(a, b, StrLess)
  }

  lemma StrLessIsStrictTotal()
    ensures StrictTotalOrder(StrLess)
  {
    forall a: string
      ensures !StrLess(a, a)
    {
      LexIrreflexive(a, CharLess);
    }
    forall a: string, b: string, c: string | StrLess(a, b) && StrLess(b, c)
      ensures StrLess(a, c)
    {
      LexTransitive(a, b, c, CharLess);
    }
    forall a: string, b: string | a != b
      ensures StrLess(a, b) || StrLess(b, a)
    {
      LexConnected(a, b, CharLess);
    }
  }

  lemma KeysLessIsStrictTotal()
    ensures StrictTotalOrder(KeysLess)
  {
    StrLessIsStrictTotal();
    forall a: seq<string>
      ensures !KeysLess(a, a)
    {
      LexIrreflexive(a, StrLess);
    }
    forall a: seq<string>, b: seq<string>, c: seq<string> | KeysLess(a, b) && KeysLess(b, c)
      ensures KeysLess(a, c)
    {
      LexTransitive(a, b, c, StrLess);
    }
    forall a: seq<string>, b: seq<string> | a != b
      ensures KeysLess(a, b) || KeysLess(b, a)
    {
      LexConnected(a, b, StrLess);
    }
  }

  /** No element's key is smaller than the key of an element before it. */
  predicate SortedBy<T>(s: seq<T>, key: T -> seq<string>)
  {
    forall i, j :: 0 <= i < j < |s| ==> !KeysLess(key(s[j]), key(s[i]))
  }

  /**
   * Puts `x` in front of the first element whose key is not smaller than its
   * own, so that `x` stays ahead of the elements with an equal key.
   */
  function InsertByKey<T>(x: T, s: seq<T>, key: T -> seq<string>): (r: seq<T>)
    ensures multiset(r) == multiset(s) + multiset{x}
    ensures |r| == |s| + 1
  {
    if s == [] || !KeysLess(key(s[0]), key(x)) then [x] + s
    else
      assert s == [s[0]] + s[1..];
      [s[0]] + InsertByKey(x, s[1..], key)
  }

  lemma {:induction false} InsertKeepsSorted<T>(x: T, s: seq<T>, key: T -> seq<string>)
    requires SortedBy(s, key)
    ensures SortedBy(InsertByKey(x, s, key), key)
    decreases |s|
  {
    KeysLessIsStrictTotal();
    var r := InsertByKey(x, s, key);
    if s == [] {
    } else if !KeysLess(key(s[0]), key(x)) {
      forall j | 0 <= j < |s|
        ensures !KeysLess(key(s[j]), key(x))
      {
        if j > 0 {
          assert !KeysLess(key(s[j]), key(s[0]));
        }
      }
    } else {
      var rest := InsertByKey(x, s[1..], key);
      InsertKeepsSorted(x, s[1..], key);
      forall j | 0 <= j < |rest|
        ensures !KeysLess(key(rest[j]), key(s[0]))
      {
        assert rest[j] in multiset(rest);
        if rest[j] != x {
          assert rest[j] in multiset(s[1..]);
          var k :| 0 <= k < |s[1..]| && s[1..][k] == rest[j];
          assert s[k + 1] == rest[j];
        }
      }
    }
  }

  /**
   * `sorted(s, key=key)`: a stable insertion sort; each element goes in front
   * of the later elements with an equal key.
   */
  function SortByKey<T>(s: seq<T>, key: T -> seq<string>): seq<T>
    decreases |s|
  {
    if s == [] then [] else InsertByKey(s[0], SortByKey(s[1..], key), key)
  }

  /** The sort returns a permutation of its input, ordered by key. */
  lemma {:induction false} SortByKeySorts<T>(s: seq<T>, key: T -> seq<string>)
    ensures multiset(SortByKey(s, key)) == multiset(s)
    ensures SortedBy(SortByKey(s, key), key)
    decreases |s|
  {
    if s != [] {
      assert s == [s[0]] + s[1..];
      var rest := SortByKey(s[1..], key);
      SortByKeySorts(s[1..], key);
      InsertKeepsSorted(s[0], rest, key);
    }
  }
}
