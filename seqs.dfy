/** Sequence helpers shared by the plan models. */
module Seqs {
  /** The blocks `f` gives for each element, concatenated in order. */
  function FlatMap<A, B>(xs: seq<A>, f: A -> seq<B>): seq<B> {
    if xs == [] then []
    else FlatMap(xs[..|xs| - 1], f) + f(xs[|xs| - 1])
  }

  lemma {:induction false} FlatMapAppend<A, B>(a: seq<A>, b: seq<A>, f: A -> seq<B>)
    ensures FlatMap(a + b, f) == FlatMap(a, f) + FlatMap(b, f)
  {
    if b == [] {
      assert a + b == a;
    } else {
      assert (a + b)[..|a + b| - 1] == a + b[..|b| - 1];
      assert (a + b)[|a + b| - 1] == b[|b| - 1];
      FlatMapAppend(a, b[..|b| - 1], f);
    }
  }

  /** With blocks of two, element `k`'s block sits at positions `2k` and `2k + 1`. */
  lemma {:induction false} FlatMapPairs<A, B>(xs: seq<A>, f: A -> seq<B>)
    requires forall x :: |f(x)| == 2
    ensures |FlatMap(xs, f)| == 2 * |xs|
    ensures forall k | 0 <= k < |xs| :: FlatMap(xs, f)[2 * k] == f(xs[k])[0] && FlatMap(xs, f)[2 * k + 1] == f(xs[k])[1]
  {
    if xs != [] {
      var init := xs[..|xs| - 1];
      FlatMapPairs(init, f);
      forall k | 0 <= k < |init| ensures xs[k] == init[k] { }
    }
  }

  /** Where the elements of each part of a five-part concatenation end up. */
  lemma ConcatIndex<T>(a: seq<T>, p: seq<T>, q: seq<T>, b: seq<T>, r: seq<T>)
    ensures var s := a + p + q + b + r;
            && |s| == |a| + |p| + |q| + |b| + |r|
            && (forall j | 0 <= j < |a| :: s[j] == a[j])
            && (forall j | 0 <= j < |p| :: s[|a| + j] == p[j])
            && (forall j | 0 <= j < |q| :: s[|a| + |p| + j] == q[j])
            && (forall j | 0 <= j < |b| :: s[|a| + |p| + |q| + j] == b[j])
            && (forall j | 0 <= j < |r| :: s[|a| + |p| + |q| + |b| + j] == r[j])
  {
  }

  /** A property every block element has holds of every element of the concatenation. */
  lemma {:induction false} FlatMapAll<A, B>(xs: seq<A>, f: A -> seq<B>, P: B -> bool)
    requires forall x, j | 0 <= j < |f(x)| :: P(f(x)[j])
    ensures forall j | 0 <= j < |FlatMap(xs, f)| :: P(FlatMap(xs, f)[j])
  {
    if xs != [] {
      FlatMapAll(xs[..|xs| - 1], f, P);
    }
  }

  /** Each part of a five-part concatenation is the slice at its offset. */
  lemma SliceParts<T>(a: seq<T>, p: seq<T>, q: seq<T>, b: seq<T>, r: seq<T>)
    ensures var s := a + p + q + b + r;
            var i1 := |a|;
            var i2 := i1 + |p|;
            var i3 := i2 + |q|;
            var i4 := i3 + |b|;
            && s[..i1] == a && s[i1..i2] == p && s[i2..i3] == q && s[i3..i4] == b && s[i4..] == r
            && s[..i3] == a + p + q
  {
    var s := a + p + q + b + r;
    assert s == a + (p + (q + (b + r)));
  }
}
