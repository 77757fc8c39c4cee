/** Finite sums over sequences, and the one fact the accounting proofs need:
    two sequences that carry the same keys, each once, and agree on the value
    under each key have the same sum, in whatever order they stand. */
module Sums {
  function Sum<T>(xs: seq<T>, f: T -> int): int {
    if xs == [] then 0 else Sum(xs[..|xs| - 1], f) + f(xs[|xs| - 1])
  }

  lemma {:induction false} SumConcat<T>(xs: seq<T>, ys: seq<T>, f: T -> int)
    ensures Sum(xs + ys, f) == Sum(xs, f) + Sum(ys, f)
  {
    if ys == [] {
      assert xs + ys == xs;
    } else {
      var all := xs + ys;
      assert all[..|all| - 1] == xs + ys[..|ys| - 1];
      SumConcat(xs, ys[..|ys| - 1], f);
    }
  }

  lemma {:induction false} SumLast<T>(xs: seq<T>, x: T, f: T -> int)
    ensures Sum(xs + [x], f) == Sum(xs, f) + f(x)
  {
    assert (xs + [x])[..|xs|] == xs;
  }

  lemma {:induction false} SumRemove<T>(xs: seq<T>, i: nat, f: T -> int)
    requires i < |xs|
    ensures Sum(xs, f) == Sum(xs[..i] + xs[i + 1..], f) + f(xs[i])
  {
    var left, right := xs[..i], xs[i + 1..];
    assert xs == (left + [xs[i]]) + right;
    SumConcat(left + [xs[i]], right, f);
    SumLast(left, xs[i], f);
    SumConcat(left, right, f);
  }

  ghost predicate Distinct<T, K(!new)>(xs: seq<T>, key: T -> K) {
    forall i, j :: 0 <= i < j < |xs| ==> key(xs[i]) != key(xs[j])
  }

  ghost predicate Carries<T, K(!new)>(xs: seq<T>, key: T -> K, k: K) {
    exists i :: 0 <= i < |xs| && key(xs[i]) == k
  }

  lemma {:induction false} SumByKey<A, B, K(!new)>(
      xs: seq<A>, ys: seq<B>, kx: A -> K, ky: B -> K, f: A -> int, g: B -> int)
    requires Distinct(xs, kx) && Distinct(ys, ky)
    requires forall k :: Carries(xs, kx, k) <==> Carries(ys, ky, k)
    requires forall i, j :: 0 <= i < |xs| && 0 <= j < |ys| && kx(xs[i]) == ky(ys[j]) ==> f(xs[i]) == g(ys[j])
    ensures |xs| == |ys|
    ensures Sum(xs, f) == Sum(ys, g)
  {
    if xs == [] {
      if ys != [] {
        assert Carries(ys, ky, ky(ys[0]));
        assert false;
      }
    } else {
      var n := |xs| - 1;
      assert Carries(xs, kx, kx(xs[n]));
      var j :| 0 <= j < |ys| && ky(ys[j]) == kx(xs[n]);
      var xs' := xs[..n];
      var ys' := ys[..j] + ys[j + 1..];
      forall k ensures Carries(xs', kx, k) <==> Carries(ys', ky, k) {
        WithoutKey(xs, n, kx, k);
        WithoutKey(ys, j, ky, k);
        assert xs[..n] + xs[n + 1..] == xs';
      }
      forall p, q | 0 <= p < q < |ys'| ensures ky(ys'[p]) != ky(ys'[q]) {
        assert ys'[p] == ys[if p < j then p else p + 1];
        assert ys'[q] == ys[if q < j then q else q + 1];
      }
      forall p, q | 0 <= p < |xs'| && 0 <= q < |ys'| && kx(xs'[p]) == ky(ys'[q]) ensures f(xs'[p]) == g(ys'[q]) {
        assert ys'[q] == ys[if q < j then q else q + 1];
      }
      SumByKey(xs', ys', kx, ky, f, g);
      SumRemove(ys, j, g);
    }
  }

  lemma {:induction false} WithoutKey<T, K(!new)>(xs: seq<T>, i: nat, key: T -> K, k: K)
    requires i < |xs| && Distinct(xs, key)
    ensures Carries(xs[..i] + xs[i + 1..], key, k) <==> Carries(xs, key, k) && k != key(xs[i])
  {
    var ys := xs[..i] + xs[i + 1..];
    if Carries(xs, key, k) && k != key(xs[i]) {
      var p :| 0 <= p < |xs| && key(xs[p]) == k;
      assert ys[if p < i then p else p - 1] == xs[p];
    }
    if Carries(ys, key, k) {
      var p :| 0 <= p < |ys| && key(ys[p]) == k;
      assert ys[p] == xs[if p < i then p else p + 1];
    }
  }
}
