/** Wrappers shared by the simulation modules. */
module Wrappers {
  datatype Option<+T> = None | Some(value: T)
}

/**
 * The MultiD vector of the N-dimensional scripts: one real per dimension
 * (the `x` list of a MultiD), operated on dimension by dimension.
 * The in-place operators `+=`, `-=` and `/=` are modelled by reassigning the
 * owning field with the value of `Add`, `Sub` and `Div`: no MultiD list is
 * ever shared between two owners, so nothing is lost by doing so.
 */
module MultiD {
  type Vec = seq<real>

  function Abs(x: real): (r: real)
    ensures r >= 0.0 && (r == x || r == -x)
  {
    if x < 0.0 then -x else x
  }

  /** Python's `min` of two numbers. */
  function Min(a: real, b: real): (r: real)
    ensures r <= a && r <= b && (r == a || r == b)
  {
    if b < a then b else a
  }

  /** Python's `max` of two numbers. */
  function Max(a: real, b: real): (r: real)
    ensures r >= a && r >= b && (r == a || r == b)
  {
    if b > a then b else a
  }

  /** `MultiD(x)`: every value converted to float. */
  function AsReals(xs: seq<int>): (r: Vec)
    ensures |r| == |xs| && forall i :: 0 <= i < |xs| ==> r[i] == xs[i] as real
  {
    seq(|xs|, i requires 0 <= i < |xs| => xs[i] as real)
  }

  /** `MultiD([0]*NDIMS)` */
  function Zero(n: nat): (r: Vec)
    ensures |r| == n
  {
    seq(n, _ => 0.0)
  }

  /** `a + b` */
  function Add(a: Vec, b: Vec): (r: Vec)
    requires |a| == |b|
    ensures |r| == |a|
  {
    seq(|a|, i requires 0 <= i < |a| => a[i] + b[i])
  }

  /** `a - b` */
  function Sub(a: Vec, b: Vec): (r: Vec)
    requires |a| == |b|
    ensures |r| == |a|
  {
    seq(|a|, i requires 0 <= i < |a| => a[i] - b[i])
  }

  /** `a * k` */
  function Scale(a: Vec, k: real): (r: Vec)
    ensures |r| == |a|
  {
    seq(|a|, i requires 0 <= i < |a| => a[i] * k)
  }

  /** `a / k`; Python raises ZeroDivisionError for k == 0, which no caller reaches. */
  function Div(a: Vec, k: real): (r: Vec)
    requires k != 0.0
    ensures |r| == |a|
  {
    seq(|a|, i requires 0 <= i < |a| => a[i] / k)
  }

  /** Subtracting what was added gives back the original vector. */
  lemma AddSubInverse(a: Vec, b: Vec)
    requires |a| == |b|
    ensures Sub(Add(a, b), b) == a
  {
    assert forall i :: 0 <= i < |a| ==> Sub(Add(a, b), b)[i] == a[i];
  }

  /** Dividing by the factor a vector was scaled with gives it back. */
  lemma ScaleDivInverse(a: Vec, k: real)
    requires k != 0.0
    ensures Div(Scale(a, k), k) == a
  {
    assert forall i :: 0 <= i < |a| ==> Div(Scale(a, k), k)[i] == a[i];
  }
}
