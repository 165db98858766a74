/** List searches the engine's loops perform. */
module Lists {

  /** The elements of `s` are pairwise distinct. */
  predicate Distinct<T(==)>(s: seq<T>)
  {
    forall i, j :: 0 <= i < j < |s| ==> s[i] != s[j]
  }

  /** Position of the last occurrence of `e` in `s`, or -1 when there is none. */
  function LastIndexOf<T(==)>(s: seq<T>, e: T): (r: int)
    ensures -1 <= r < |s|
    ensures r == -1 <==> e !in s
    ensures r >= 0 ==> s[r] == e && forall k :: r < k < |s| ==> s[k] != e
  {
    if |s| == 0 then -1
    else if s[|s| - 1] == e then |s| - 1
    else LastIndexOf(s[..|s| - 1], e)
  }

  /** In a list without repetitions the last occurrence is the only one. */
  lemma LastIndexOfDistinct<T>(s: seq<T>, i: int)
    requires Distinct(s) && 0 <= i < |s|
    ensures LastIndexOf(s, s[i]) == i
  {
  }

  /** A list without repetitions has as many elements as entries. */
  lemma {:induction false} DistinctCard<T>(s: seq<T>)
    requires Distinct(s)
    ensures |set x | x in s| == |s|
    decreases |s|
  {
    if s != [] {
      var init, last := s[..|s| - 1], s[|s| - 1];
      assert Distinct(init);
      DistinctCard(init);
      assert s == init + [last];
      assert (set x | x in s) == (set x | x in init) + {last};
      assert last !in init;
    }
  }

  /**
   * A list without repetitions whose entries all occur in another one is no
   * longer than it, and as long as it only when it holds all of its entries.
   */
  lemma DistinctIncluded<T>(a: seq<T>, b: seq<T>)
    requires Distinct(a) && Distinct(b) && forall x :: x in a ==> x in b
    ensures |a| <= |b|
    ensures |a| >= |b| ==> forall x :: x in b ==> x in a
  {
    var sa, sb := set x | x in a, set x | x in b;
    DistinctCard(a);
    DistinctCard(b);
    assert sa <= sb;
    if |a| >= |b| {
      assert |sb - sa| == |sb| - |sa|;
      assert sb - sa == {};
      forall x | x in b ensures x in a {
        assert x in sb;
      }
    }
  }

  /** The two parts of a list without repetitions have none and share no entry. */
  lemma DistinctSplit<T>(a: seq<T>, b: seq<T>)
    requires Distinct(a + b)
    ensures Distinct(a) && Distinct(b)
    ensures forall x :: x in a ==> x !in b
  {
    forall i, j | 0 <= i < j < |a| ensures a[i] != a[j] {
      assert a[i] == (a + b)[i] && a[j] == (a + b)[j];
    }
    forall i, j | 0 <= i < j < |b| ensures b[i] != b[j] {
      assert b[i] == (a + b)[|a| + i] && b[j] == (a + b)[|a| + j];
    }
    forall x | x in a ensures x !in b {
      var i :| 0 <= i < |a| && a[i] == x;
      forall j | 0 <= j < |b| ensures b[j] != x {
        assert (a + b)[i] == x && (a + b)[|a| + j] == b[j];
      }
    }
  }

  lemma AppendAssoc<T>(a: seq<T>, b: seq<T>, c: seq<T>)
    ensures a + (b + c) == (a + b) + c
  {
  }
}
