/** Small sequence vocabulary shared by the model: optional values, counting,
    duplicate-free sequences (the shape of a JavaScript `Set`, which iterates
    in insertion order) and removal of one element. */
module Util {

  /** A value that may be absent (`null` / `undefined` in the page code). */
  datatype Option<+T> = None | Some(value: T)

  /** No element occurs twice. */
  ghost predicate NoDup<T>(s: seq<T>) {
    forall i, j :: 0 <= i < j < |s| ==> s[i] != s[j]
  }

  /** The set of elements of a sequence. */
  ghost function Elements<T>(s: seq<T>): set<T> {
    set x | x in s
  }

  /** Number of occurrences of `x` in `s`. */
  function Count<T(==)>(s: seq<T>, x: T): nat {
    if s == [] then 0 else (if s[0] == x then 1 else 0) + Count(s[1..], x)
  }

  /** `n` copies of `x`. */
  function Repeat<T>(x: T, n: nat): (r: seq<T>)
    ensures |r| == n
    ensures forall i :: 0 <= i < n ==> r[i] == x
  {
    if n == 0 then [] else [x] + Repeat(x, n - 1)
  }

  /** `s` with every occurrence of `x` removed, the rest kept in order. */
  function Without<T(==)>(s: seq<T>, x: T): (r: seq<T>)
    ensures forall y | y in r :: y in s && y != x
    ensures forall i | 0 <= i < |s| && s[i] != x :: s[i] in r
    ensures Count(r, x) == 0
    ensures |r| == |s| - Count(s, x)
    ensures NoDup(s) ==> NoDup(r)
  {
    if s == [] then []
    else if s[0] == x then Without(s[1..], x)
    else
      var rest := Without(s[1..], x);
      assert s[0] !in rest ==> NoDup(s) ==> NoDup([s[0]] + rest) by {
        if s[0] !in rest && NoDup(s) {
          forall i, j | 0 <= i < j < |[s[0]] + rest|
            ensures ([s[0]] + rest)[i] != ([s[0]] + rest)[j]
          {
            if i > 0 { assert ([s[0]] + rest)[i] == rest[i - 1]; }
          }
        }
      }
      assert NoDup(s) ==> s[0] !in s[1..];
      [s[0]] + rest
  }

  /** Removing `x` leaves the number of occurrences of every other value as it was. */
  lemma {:induction false} WithoutKeepsOthers<T>(s: seq<T>, x: T, y: T)
    requires y != x
    ensures Count(Without(s, x), y) == Count(s, y)
  {
    if s != [] {
      WithoutKeepsOthers(s[1..], x, y);
      if s[0] != x {
        assert ([s[0]] + Without(s[1..], x))[1..] == Without(s[1..], x);
      }
    }
  }

  lemma {:induction false} CountAppend<T>(a: seq<T>, b: seq<T>, x: T)
    ensures Count(a + b, x) == Count(a, x) + Count(b, x)
  {
    if a == [] {
      assert a + b == b;
    } else {
      assert (a + b)[1..] == a[1..] + b;
      CountAppend(a[1..], b, x);
    }
  }

  /** In a duplicate-free sequence every element occurs exactly once and
      every other value not at all. */
  lemma {:induction false} NoDupCount<T>(s: seq<T>, x: T)
    requires NoDup(s)
    ensures Count(s, x) == if x in s then 1 else 0
  {
    if s != [] {
      assert NoDup(s[1..]) by {
        forall i, j | 0 <= i < j < |s[1..]| ensures s[1..][i] != s[1..][j] {
          assert s[1..][i] == s[i + 1] && s[1..][j] == s[j + 1];
        }
      }
      NoDupCount(s[1..], x);
      if s[0] == x {
        assert x !in s[1..];
      }
      assert x in s <==> s[0] == x || x in s[1..];
    }
  }

  /** A value occurs in a sequence exactly when it is counted there. */
  lemma {:induction false} CountPositive<T>(s: seq<T>, x: T)
    ensures Count(s, x) > 0 <==> x in s
  {
    if s != [] {
      CountPositive(s[1..], x);
      assert x in s <==> s[0] == x || x in s[1..];
    }
  }
}
