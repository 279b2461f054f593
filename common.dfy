/** Small shared vocabulary: an optional value, sequence helpers and the
    arithmetic of the host language that differs from Dafny's. */
module Common {

  datatype Option<+T> = None | Some(value: T)

  /** No object or value occurs twice (a Python list holding each object once). */
  predicate Distinct<T(==)>(s: seq<T>) {
    s == [] || (s[0] !in s[1..] && Distinct(s[1..]))
  }

  /** The recursive definition of `Distinct` agrees with the pairwise one. */
  lemma {:induction false} DistinctIndex<T>(s: seq<T>)
    ensures Distinct(s) <==> forall i, j :: 0 <= i < j < |s| ==> s[i] != s[j]
  {
    if s != [] {
      DistinctIndex(s[1..]);
      if Distinct(s) {
        forall i, j | 0 <= i < j < |s|
          ensures s[i] != s[j]
        {
          if i == 0 {
            assert s[j] == s[1..][j - 1];
          } else {
            assert s[i] == s[1..][i - 1] && s[j] == s[1..][j - 1];
          }
        }
      }
      if forall i, j :: 0 <= i < j < |s| ==> s[i] != s[j] {
        forall i, j | 0 <= i < j < |s[1..]|
          ensures s[1..][i] != s[1..][j]
        {
          assert s[1..][i] == s[i + 1] && s[1..][j] == s[j + 1];
        }
      }
    }
  }

  function Abs(n: int): (r: nat)
    ensures r == n || r == -n
  {
    if n < 0 then -n else n
  }

  function Max(a: int, b: int): (r: int)
    ensures r >= a && r >= b && (r == a || r == b)
  {
    if a < b then b else a
  }

  function Min(a: int, b: int): (r: int)
    ensures r <= a && r <= b && (r == a || r == b)
  {
    if a < b then a else b
  }

  /** Python's `int(a / b)` for a positive divisor: the quotient truncated toward zero
      (Dafny's `/` is Euclidean and rounds a negative quotient down instead). */
  function TruncDiv(a: int, b: int): (q: int)
    requires b > 0
    ensures Abs(q) == Abs(a) / b
    ensures (q < 0 ==> a < 0) && (a >= 0 ==> q >= 0)
  {
    if a >= 0 then a / b else -((-a) / b)
  }

  /** `s` with the element at index `i` taken out (Python's `list.remove` once the index
      of the first occurrence is known). */
  function RemoveAt<T>(s: seq<T>, i: nat): (r: seq<T>)
    requires i < |s|
    ensures |r| == |s| - 1
  {
    s[..i] + s[i + 1..]
  }

  /** Taking out index `i` keeps every element before it in place and moves every
      element after it down by one. */
  lemma {:induction false} RemoveAtIndex<T>(s: seq<T>, i: nat)
    requires i < |s|
    ensures forall k :: 0 <= k < i ==> RemoveAt(s, i)[k] == s[k]
    ensures forall k :: i <= k < |s| - 1 ==> RemoveAt(s, i)[k] == s[k + 1]
  {
  }

  /** What was at index `i` does not matter once it is taken out. */
  lemma {:induction false} RemoveAtUpdate<T>(s: seq<T>, i: nat, x: T)
    requires i < |s|
    ensures RemoveAt(s[i := x], i) == RemoveAt(s, i)
  {
    assert s[i := x][..i] == s[..i] && s[i := x][i + 1..] == s[i + 1..];
  }

  lemma {:induction false} RemoveAtKeepsDistinct<T>(s: seq<T>, i: nat)
    requires i < |s| && Distinct(s)
    ensures Distinct(RemoveAt(s, i))
    ensures forall x :: x in RemoveAt(s, i) <==> x in s && x != s[i]
  {
    var r := RemoveAt(s, i);
    RemoveAtIndex(s, i);
    DistinctIndex(s);
    DistinctIndex(r);
    forall x | x in s && x != s[i] ensures x in r {
      var k :| 0 <= k < |s| && s[k] == x;
      if k < i { assert r[k] == x; } else { assert r[k - 1] == x; }
    }
  }

  /** In a list without repeats, the element at `i` occurs neither before nor after `i`. */
  lemma {:induction false} DistinctAt<T>(s: seq<T>, i: nat)
    requires Distinct(s) && i < |s|
    ensures s[i] !in s[..i] && s[i] !in s[i + 1..]
  {
    DistinctIndex(s);
  }

  /** The first element of `c[i..]`, placed right after prefix `a`, is at index `|a|`,
      and taking it out leaves `a` followed by the rest of `c`. */
  lemma {:induction false} SpliceOut<T>(a: seq<T>, c: seq<T>, i: nat)
    requires i < |c|
    ensures var s := a + c[i..]; |a| < |s| && s[|a|] == c[i] && RemoveAt(s, |a|) == a + c[i + 1..]
  {
    var s := a + c[i..];
    assert s[..|a|] == a;
    assert s[|a| + 1..] == c[i + 1..];
  }

  /** Moving the first element of `c[i..]` to the end of prefix `a`. */
  lemma {:induction false} SpliceKeep<T>(a: seq<T>, c: seq<T>, i: nat)
    requires i < |c|
    ensures a + c[i..] == (a + [c[i]]) + c[i + 1..]
  {
    assert c[i..] == [c[i]] + c[i + 1..];
  }

  lemma {:induction false} AppendAssoc<T>(a: seq<T>, b: seq<T>, c: seq<T>)
    ensures a + (b + c) == (a + b) + c
  {
  }

  lemma {:induction false} TakeSnoc<T>(s: seq<T>, i: nat)
    requires i < |s|
    ensures s[..i + 1] == s[..i] + [s[i]]
  {
  }

  /** Appending an element that is not yet in a list without repeats keeps it so. */
  lemma {:induction false} DistinctSnoc<T>(s: seq<T>, x: T)
    requires Distinct(s) && x !in s
    ensures Distinct(s + [x])
  {
    DistinctIndex(s);
    DistinctIndex(s + [x]);
  }
}
