/** `numpy.mean` over a list of numbers, with exact arithmetic. */
module Stats {

  /** The value `np.mean` returns: a number, or NaN for an empty list. */
  datatype Float = Finite(value: real) | NaN

  function Sum(xs: seq<real>): real {
    if xs == [] then 0.0 else Sum(xs[..|xs| - 1]) + xs[|xs| - 1]
  }

  /** `np.mean(xs)`: the arithmetic mean, and NaN (not an exception) when `xs` is empty. */
  function Mean(xs: seq<real>): (r: Float)
    ensures r.Finite? <==> |xs| > 0
    ensures r.Finite? ==> r.value * |xs| as real == Sum(xs)
  {
    if |xs| == 0 then NaN else Finite(Sum(xs) / |xs| as real)
  }

  lemma {:induction false} SumBounds(xs: seq<real>, lo: real, hi: real)
    requires forall i :: 0 <= i < |xs| ==> lo <= xs[i] <= hi
    ensures lo * |xs| as real <= Sum(xs) <= hi * |xs| as real
  {
    if xs != [] {
      var n := |xs| - 1;
      SumBounds(xs[..n], lo, hi);
      assert lo * (|xs| as real) == lo * (n as real) + lo;
      assert hi * (|xs| as real) == hi * (n as real) + hi;
    }
  }

  /** The mean of a non-empty list lies between any lower and upper bound of its elements. */
  lemma MeanBounds(xs: seq<real>, lo: real, hi: real)
    requires |xs| > 0
    requires forall i :: 0 <= i < |xs| ==> lo <= xs[i] <= hi
    ensures Mean(xs).Finite? && lo <= Mean(xs).value <= hi
  {
    SumBounds(xs, lo, hi);
  }

  lemma MeanOfTwo(a: real, b: real)
    ensures Mean([a, b]) == Finite((a + b) / 2.0)
  {
    assert [a, b][..1] == [a];
    assert [a][..0] == [];
    assert Sum([a]) == a;
    assert Sum([a, b]) == a + b;
  }
}
