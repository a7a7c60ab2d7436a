/** Filtering a sequence while remembering where the kept elements stood. */
module Indices {

  /** The indices below `n` whose elements satisfy `p`, in ascending order. */
  function IndicesWhere<T>(s: seq<T>, p: T -> bool, n: nat): seq<nat>
    requires n <= |s|
  {
    if n == 0 then [] else IndicesWhere(s, p, n - 1) + (if p(s[n - 1]) then [n - 1] else [])
  }

  /**
   * `IndicesWhere(s, p, n)` lists exactly the indices below `n` whose element
   * satisfies `p`, each once, strictly increasing.
   */
  lemma {:induction false} IndicesWhereSpec<T>(s: seq<T>, p: T -> bool, n: nat)
    requires n <= |s|
    ensures var idx := IndicesWhere(s, p, n);
      && (forall j :: 0 <= j < |idx| ==> idx[j] < n && p(s[idx[j]]))
      && (forall j, j' :: 0 <= j < j' < |idx| ==> idx[j] < idx[j'])
      && (forall k :: 0 <= k < n && p(s[k]) ==> k in idx)
  {
    if n > 0 {
      IndicesWhereSpec(s, p, n - 1);
    }
  }

  /** Only the elements below `n` matter: the indices are the same on the prefix of length `n`. */
  lemma {:induction false} IndicesWherePrefix<T>(s: seq<T>, p: T -> bool, n: nat)
    requires n <= |s|
    ensures IndicesWhere(s[..n], p, n) == IndicesWhere(s, p, n)
  {
    if n > 0 {
      IndicesWherePrefix(s, p, n - 1);
      assert s[..n][..n - 1] == s[..n - 1];
      IndicesWhereAgree(s[..n], s, p, n - 1);
    }
  }

  /** Two sequences that agree below `n` have the same indices below `n`. */
  lemma {:induction false} IndicesWhereAgree<T>(a: seq<T>, b: seq<T>, p: T -> bool, n: nat)
    requires n <= |a| && n <= |b| && a[..n] == b[..n]
    ensures IndicesWhere(a, p, n) == IndicesWhere(b, p, n)
  {
    if n > 0 {
      assert a[n - 1] == a[..n][n - 1];
      assert a[..n - 1] == a[..n][..n - 1];
      assert b[..n - 1] == b[..n][..n - 1];
      IndicesWhereAgree(a, b, p, n - 1);
    }
  }
}
