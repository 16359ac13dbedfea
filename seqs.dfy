/** Sequence helpers shared by the stores and the views: the first-match
    search behind `find`/`findIndex`/`indexOf`, `filter`, and the
    properties of sequences that the screens' contracts are stated with. */
module Seqs {

  datatype Option<T> = None | Some(value: T)

  /** `s.indexOf(x)`: the first position holding `x`, or -1 when there is none. */
  function IndexOf<T(==)>(s: seq<T>, x: T): (k: int)
    ensures -1 <= k < |s|
    ensures k == -1 <==> x !in s
    ensures 0 <= k ==> s[k] == x && x !in s[..k]
  {
    if |s| == 0 then -1
    else if s[0] == x then 0
    else
      var k := IndexOf(s[1..], x);
      assert s[1..][..if k < 0 then 0 else k] == s[1..if k < 0 then 1 else k + 1];
      if k < 0 then -1 else k + 1
  }

  /** No element occurs twice. */
  predicate Distinct<T(==)>(s: seq<T>) {
    forall i, j :: 0 <= i < j < |s| ==> s[i] != s[j]
  }

  /** A new element in front keeps a sequence free of repetitions. */
  lemma DistinctCons<T>(x: T, s: seq<T>)
    requires Distinct(s) && x !in s
    ensures Distinct([x] + s)
  {
    var r := [x] + s;
    forall i, j | 0 <= i < j < |r| ensures r[i] != r[j] {
      assert r[j] == s[j - 1];
      if i > 0 {
        assert r[i] == s[i - 1];
      }
    }
  }

  /** In a sequence without repetitions `IndexOf` finds the only position. */
  lemma IndexOfDistinct<T>(s: seq<T>, i: int)
    requires Distinct(s) && 0 <= i < |s|
    ensures IndexOf(s, s[i]) == i
  {
  }

  /** The first match in a sequence with one more element in front. */
  lemma IndexOfCons<T>(x: T, s: seq<T>, y: T)
    ensures IndexOf([x] + s, y) == if x == y then 0 else (var j := IndexOf(s, y); if j < 0 then -1 else j + 1)
  {
    assert ([x] + s)[1..] == s;
  }

  /** The first match of `x` once the `k`-th element, which is not `x`,
      is taken out: positions before `k` stay, later ones move down by one. */
  lemma {:induction false} IndexOfRemoveAt<T>(s: seq<T>, k: nat, x: T)
    requires k < |s| && s[k] != x
    ensures var j := IndexOf(s, x);
      IndexOf(s[..k] + s[k + 1..], x) == if j < 0 then -1 else if j < k then j else j - 1
    decreases k
  {
    var t := s[..k] + s[k + 1..];
    if k == 0 {
      assert t == s[1..];
    } else if s[0] == x {
      assert t[0] == x;
    } else {
      assert t[0] == s[0];
      assert t[1..] == s[1..][..k - 1] + s[1..][k..];
      IndexOfRemoveAt(s[1..], k - 1, x);
    }
  }

  /** How many times `x` occurs in `s`. */
  function Count<T(==)>(s: seq<T>, x: T): (n: nat)
    ensures n <= |s|
    ensures n == 0 <==> x !in s
  {
    if |s| == 0 then 0 else (if s[0] == x then 1 else 0) + Count(s[1..], x)
  }

  lemma {:induction false} CountAppend<T>(s: seq<T>, t: seq<T>, x: T)
    ensures Count(s + t, x) == Count(s, x) + Count(t, x)
    decreases |s|
  {
    if |s| == 0 {
      assert s + t == t;
    } else {
      assert (s + t)[1..] == s[1..] + t;
      CountAppend(s[1..], t, x);
    }
  }

  /** `a` is `b` with some elements left out and the rest in their order. */
  predicate IsSubsequence<T(==)>(a: seq<T>, b: seq<T>)
    decreases |b|
  {
    |a| == 0 ||
    (|b| > 0 && if a[0] == b[0] then IsSubsequence(a[1..], b[1..]) else IsSubsequence(a, b[1..]))
  }

  lemma {:induction false} SubsequenceElements<T>(a: seq<T>, b: seq<T>, x: T)
    requires IsSubsequence(a, b) && x in a
    ensures x in b
    decreases |b|
  {
    if a[0] == b[0] {
      if x != a[0] {
        assert x in a[1..];
        SubsequenceElements(a[1..], b[1..], x);
      }
    } else {
      SubsequenceElements(a, b[1..], x);
    }
  }

  /** A subsequence of `b` minus its first element is still a subsequence of `b`. */
  lemma {:induction false} SubsequenceDropFront<T>(a: seq<T>, b: seq<T>)
    requires |a| > 0 && IsSubsequence(a, b)
    ensures IsSubsequence(a[1..], b)
    decreases |b|, 0
  {
    if a[0] == b[0] {
      SubsequenceWeaken(a[1..], b[1..], b[0]);
    } else {
      SubsequenceDropFront(a, b[1..]);
      SubsequenceWeaken(a[1..], b[1..], b[0]);
    }
    assert [b[0]] + b[1..] == b;
  }

  /** Adding an element in front of the larger sequence keeps a subsequence. */
  lemma {:induction false} SubsequenceWeaken<T>(a: seq<T>, b: seq<T>, x: T)
    requires IsSubsequence(a, b)
    ensures IsSubsequence(a, [x] + b)
    decreases |b|, 1
  {
    assert ([x] + b)[1..] == b;
    if |a| > 0 && a[0] == x {
      SubsequenceDropFront(a, b);
    }
  }

  /** `s.filter(p)`. */
  function Filter<T>(s: seq<T>, p: T -> bool): (r: seq<T>)
    ensures |r| <= |s|
    ensures forall i :: 0 <= i < |r| ==> p(r[i])
  {
    if |s| == 0 then []
    else if p(s[0]) then [s[0]] + Filter(s[1..], p)
    else Filter(s[1..], p)
  }

  /** An element is kept exactly when it is in the input and passes the test. */
  lemma {:induction false} FilterMembership<T>(s: seq<T>, p: T -> bool, x: T)
    ensures x in Filter(s, p) <==> x in s && p(x)
    decreases |s|
  {
    if |s| > 0 {
      FilterMembership(s[1..], p, x);
      assert s == [s[0]] + s[1..];
    }
  }

  /** The kept elements keep their order. */
  lemma {:induction false} FilterIsSubsequence<T>(s: seq<T>, p: T -> bool)
    ensures IsSubsequence(Filter(s, p), s)
    decreases |s|
  {
    if |s| > 0 {
      FilterIsSubsequence(s[1..], p);
      if p(s[0]) {
        assert Filter(s, p)[1..] == Filter(s[1..], p);
      } else {
        SubsequenceWeaken(Filter(s[1..], p), s[1..], s[0]);
        assert [s[0]] + s[1..] == s;
      }
    }
  }

  /** A stricter test keeps a subsequence of what a looser one keeps. */
  lemma {:induction false} FilterStricter<T>(s: seq<T>, p: T -> bool, q: T -> bool)
    requires forall x :: p(x) ==> q(x)
    ensures IsSubsequence(Filter(s, p), Filter(s, q))
    decreases |s|
  {
    if |s| > 0 {
      FilterStricter(s[1..], p, q);
      if p(s[0]) {
        assert Filter(s, p)[1..] == Filter(s[1..], p);
        assert Filter(s, q)[1..] == Filter(s[1..], q);
      } else if q(s[0]) {
        SubsequenceWeaken(Filter(s[1..], p), Filter(s[1..], q), s[0]);
      }
    }
  }

  /** A filtered list of a list without repetitions has none either. */
  lemma {:induction false} FilterDistinct<T>(s: seq<T>, p: T -> bool)
    requires Distinct(s)
    ensures Distinct(Filter(s, p))
    decreases |s|
  {
    if |s| > 0 {
      assert Distinct(s[1..]) by {
        forall i, j | 0 <= i < j < |s| - 1 ensures s[1..][i] != s[1..][j] {
          assert s[1..][i] == s[i + 1] && s[1..][j] == s[j + 1];
        }
      }
      FilterDistinct(s[1..], p);
      if p(s[0]) {
        FilterMembership(s[1..], p, s[0]);
        var r := Filter(s, p);
        assert r == [s[0]] + Filter(s[1..], p);
        forall i, j | 0 <= i < j < |r| ensures r[i] != r[j] {
          if i == 0 {
            assert r[j] in Filter(s[1..], p);
          } else {
            assert r[i] == Filter(s[1..], p)[i - 1] && r[j] == Filter(s[1..], p)[j - 1];
          }
        }
      }
    }
  }

  /** A filter that passes everything changes nothing. */
  lemma {:induction false} FilterKeepsAll<T>(s: seq<T>, p: T -> bool)
    requires forall i :: 0 <= i < |s| ==> p(s[i])
    ensures Filter(s, p) == s
    decreases |s|
  {
    if |s| > 0 {
      FilterKeepsAll(s[1..], p);
      assert [s[0]] + s[1..] == s;
    }
  }

  /** Filtering out the last element when it fails the test. */
  lemma {:induction false} FilterAppendLast<T>(s: seq<T>, x: T, p: T -> bool)
    requires !p(x)
    ensures Filter(s + [x], p) == Filter(s, p)
    decreases |s|
  {
    if |s| == 0 {
      assert [x][1..] == [];
    } else {
      assert (s + [x])[1..] == s[1..] + [x];
      FilterAppendLast(s[1..], x, p);
    }
  }

  /** `splice(k, 1)`: the sequence without its `k`-th element. */
  function RemoveAt<T>(s: seq<T>, k: nat): (r: seq<T>)
    requires k < |s|
    ensures |r| == |s| - 1
  {
    s[..k] + s[k + 1..]
  }

  /** Where each element of the shortened sequence came from. */
  lemma RemoveAtAt<T>(s: seq<T>, k: nat, i: nat)
    requires k < |s| && i < |s| - 1
    ensures RemoveAt(s, k)[i] == s[if i < k then i else i + 1]
  {
  }

  /** An element other than the removed one is still there. */
  lemma RemoveAtKeeps<T>(s: seq<T>, k: nat, x: T)
    requires k < |s| && x in s && x != s[k]
    ensures x in RemoveAt(s, k)
  {
    var i :| 0 <= i < |s| && s[i] == x;
    RemoveAtAt(s, k, if i < k then i else i - 1);
  }

  /** Without repetitions, the removed element is gone and no other
      element is repeated. */
  lemma RemoveAtDistinct<T>(s: seq<T>, k: nat)
    requires k < |s| && Distinct(s)
    ensures Distinct(RemoveAt(s, k)) && s[k] !in RemoveAt(s, k)
  {
    var r := RemoveAt(s, k);
    forall i, j | 0 <= i < j < |r| ensures r[i] != r[j] {
      RemoveAtAt(s, k, i);
      RemoveAtAt(s, k, j);
    }
    forall i | 0 <= i < |r| ensures r[i] != s[k] {
      RemoveAtAt(s, k, i);
    }
  }

  lemma {:induction false} SubsequenceRefl<T>(s: seq<T>)
    ensures IsSubsequence(s, s)
    decreases |s|
  {
    if |s| > 0 {
      SubsequenceRefl(s[1..]);
    }
  }

  /** Removing one element leaves the others in their order, and takes
      out exactly one copy of it. */
  lemma {:induction false} RemoveAtIsSubsequence<T>(s: seq<T>, k: nat)
    requires k < |s|
    ensures IsSubsequence(RemoveAt(s, k), s)
    ensures multiset(RemoveAt(s, k)) + multiset{s[k]} == multiset(s)
    decreases k
  {
    assert s == s[..k] + [s[k]] + s[k + 1..];
    var t := RemoveAt(s, k);
    if k == 0 {
      assert t == s[1..];
      SubsequenceRefl(s[1..]);
      SubsequenceWeaken(s[1..], s[1..], s[0]);
      assert [s[0]] + s[1..] == s;
    } else {
      assert t[0] == s[0];
      assert t[1..] == RemoveAt(s[1..], k - 1);
      RemoveAtIsSubsequence(s[1..], k - 1);
    }
  }

  /** `splice(k, 1)` followed by `unshift` of the removed element: the
      `k`-th element goes to the front and the others keep their order. */
  function MoveToFront<T>(s: seq<T>, k: nat): (r: seq<T>)
    requires k < |s|
    ensures |r| == |s| && r[0] == s[k]
  {
    [s[k]] + s[..k] + s[k + 1..]
  }

  /** The moved element in front of the others. */
  lemma MoveToFrontSplit<T>(s: seq<T>, k: nat)
    requires k < |s|
    ensures MoveToFront(s, k) == [s[k]] + RemoveAt(s, k)
  {
    assert [s[k]] + s[..k] + s[k + 1..] == [s[k]] + (s[..k] + s[k + 1..]);
  }

  /** Where each element of the moved sequence came from. */
  lemma MoveToFrontAt<T>(s: seq<T>, k: nat, i: nat)
    requires k < |s| && i < |s|
    ensures MoveToFront(s, k)[i] == s[if i == 0 then k else if i <= k then i - 1 else i]
  {
  }

  /** Moving an element to the front creates no repetition. */
  lemma MoveToFrontDistinct<T>(s: seq<T>, k: nat)
    requires k < |s| && Distinct(s)
    ensures Distinct(MoveToFront(s, k))
  {
    var r := MoveToFront(s, k);
    forall i, j | 0 <= i < j < |r| ensures r[i] != r[j] {
      MoveToFrontAt(s, k, i);
      MoveToFrontAt(s, k, j);
    }
  }

  /** Moving to the front only reorders: the same elements, as often. */
  lemma MoveToFrontPermutes<T>(s: seq<T>, k: nat)
    requires k < |s|
    ensures multiset(MoveToFront(s, k)) == multiset(s)
  {
    assert s == s[..k] + [s[k]] + s[k + 1..];
  }
}
