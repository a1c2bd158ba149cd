/** What several parts of the model say about sequences, sets and multisets. */
module Collections {

  datatype Option<T> = None | Some(value: T)

  ghost predicate Distinct(s: seq<nat>) {
    forall i, j :: 0 <= i < j < |s| ==> s[i] != s[j]
  }

  lemma {:induction false} SetOfDistinct(cs: seq<nat>, s: set<nat>)
    requires Distinct(cs) && forall c :: c in s <==> c in cs
    ensures |s| == |cs|
  {
    if cs != [] {
      var n := |cs| - 1;
      assert cs == cs[..n] + [cs[n]];
      SetOfDistinct(cs[..n], s - {cs[n]});
    } else {
      assert s == {};
    }
  }

  lemma SubsetSize(a: set<nat>, b: set<nat>)
    requires a <= b
    ensures |a| <= |b| && (|a| == |b| ==> a == b)
  {
    assert b == a + (b - a);
  }

  /** A set of numbers below `n` has at most `n` elements, and `n` only if it has
      them all. */
  lemma {:induction false} UpTo(s: set<nat>, n: nat)
    requires forall t :: t in s ==> t < n
    ensures |s| <= n && (|s| == n <==> forall t: nat :: t < n ==> t in s)
  {
    if n > 0 {
      UpTo(s - {n - 1}, n - 1);
    } else {
      assert s == {};
    }
  }

  lemma TakeOut<A>(b: seq<A>, k: nat)
    requires k < |b|
    ensures multiset(b) == multiset(b[..k] + b[k + 1..]) + multiset{b[k]}
  {
    assert b == b[..k] + [b[k]] + b[k + 1..];
  }

  lemma Cancel<A>(x: multiset<A>, y: multiset<A>, d: multiset<A>)
    requires x + d == y + d
    ensures x == y
  {
    assert x == x + d - d && y == y + d - d;
  }
}
