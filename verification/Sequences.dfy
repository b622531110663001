/** Facts about sequences that the models share. */
module Sequences {

  ghost predicate Distinct<T>(s: seq<T>) {
    forall i, j :: 0 <= i < j < |s| ==> s[i] != s[j]
  }

  /** Increasing positions of `ys` that spell `xs`. */
  ghost predicate Picks<T>(at: seq<nat>, xs: seq<T>, ys: seq<T>) {
    && |at| == |xs|
    && (forall i :: 0 <= i < |xs| ==> at[i] < |ys| && xs[i] == ys[at[i]])
    && (forall i, j :: 0 <= i < j < |xs| ==> at[i] < at[j])
  }

  ghost predicate Subseq<T>(xs: seq<T>, ys: seq<T>) {
    exists at :: Picks(at, xs, ys)
  }

  lemma SubseqSame<T>(xs: seq<T>)
    ensures Subseq(xs, xs)
  {
    assert Picks(seq(|xs|, i => i), xs, xs);
  }

  lemma FirstIsPicked<T>(xs: seq<T>, ys: seq<T>)
    requires xs != [] && Subseq(xs, ys)
    ensures xs[0] in ys
  {
    var at :| Picks(at, xs, ys);
    assert xs[0] == ys[at[0]];
  }

  lemma SubseqTransitive<T>(xs: seq<T>, ys: seq<T>, zs: seq<T>)
    requires Subseq(xs, ys) && Subseq(ys, zs)
    ensures Subseq(xs, zs)
  {
    var a :| Picks(a, xs, ys);
    var b :| Picks(b, ys, zs);
    assert Picks(seq(|xs|, i requires 0 <= i < |xs| => b[a[i]]), xs, zs);
  }

  lemma SubseqExtend<T>(xs: seq<T>, ys: seq<T>, y: T)
    requires Subseq(xs, ys)
    ensures Subseq(xs, ys + [y]) && Subseq(xs + [y], ys + [y])
  {
    var at: seq<nat> :| Picks(at, xs, ys);
    assert Picks(at, xs, ys + [y]);
    assert Picks(at + [|ys|], xs + [y], ys + [y]);
  }

  lemma SubseqPrepend<T>(xs: seq<T>, ys: seq<T>, y: T)
    requires Subseq(xs, ys)
    ensures Subseq(xs, [y] + ys) && Subseq([y] + xs, [y] + ys)
  {
    var at :| Picks(at, xs, ys);
    var shifted: seq<nat> := seq(|at|, i requires 0 <= i < |at| => at[i] + 1);
    assert Picks(shifted, xs, [y] + ys);
    assert Picks([0] + shifted, [y] + xs, [y] + ys);
  }
}
