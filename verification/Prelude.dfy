// Shared vocabulary: optional values, distinctness and the subsequence order.

module Prelude {

  datatype Option<+T> = None | Some(value: T)

  ghost predicate Distinct<T>(xs: seq<T>) {
    forall i, j :: 0 <= i < j < |xs| ==> xs[i] != xs[j]
  }

  /** f picks, left to right, the positions of ys that spell out xs. */
  ghost predicate Embeds<T>(f: seq<nat>, xs: seq<T>, ys: seq<T>) {
    && |f| == |xs|
    && (forall i :: 0 <= i < |f| ==> f[i] < |ys| && xs[i] == ys[f[i]])
    && (forall i, j :: 0 <= i < j < |f| ==> f[i] < f[j])
  }

  ghost predicate Subsequence<T>(xs: seq<T>, ys: seq<T>) {
    exists f: seq<nat> :: Embeds(f, xs, ys)
  }

  lemma SubsequenceRefl<T>(xs: seq<T>)
    ensures Subsequence(xs, xs)
  {
    assert Embeds(seq(|xs|, i => i), xs, xs);
  }

  lemma SubsequenceExtend<T>(xs: seq<T>, ys: seq<T>, y: T)
    requires Subsequence(xs, ys)
    ensures Subsequence(xs, ys + [y])
    ensures Subsequence(xs + [y], ys + [y])
  {
    var f: seq<nat> :| Embeds(f, xs, ys);
    assert Embeds(f, xs, ys + [y]);
    assert Embeds(f + [|ys|], xs + [y], ys + [y]);
  }

  /** A subsequence of a duplicate-free sequence is duplicate-free and brings in nothing new. */
  lemma SubsequenceDistinct<T>(xs: seq<T>, ys: seq<T>)
    requires Subsequence(xs, ys)
    ensures Distinct(ys) ==> Distinct(xs)
    ensures forall x :: x in xs ==> x in ys
  {
    var f: seq<nat> :| Embeds(f, xs, ys);
    forall i, j | Distinct(ys) && 0 <= i < j < |xs|
      ensures xs[i] != xs[j]
    {
      assert f[i] < f[j];
    }
  }
}
