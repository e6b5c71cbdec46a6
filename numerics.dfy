/**
 * The numbers the core computes with. JavaScript doubles become Dafny reals;
 * the parts of the Math object the core calls (exp, sin, cos, pow) are
 * passed around as a `Transcendentals` value about which only the facts in
 * `Valid` are known. Sums are the left folds that `reduce` performs.
 */
module Numerics {

  /** Math.exp, Math.sin, Math.cos and Math.pow. */
  datatype Transcendentals = Transcendentals(
    exp: real -> real,
    sin: real -> real,
    cos: real -> real,
    pow: (real, real) -> real)

  /** exp(a + b) == exp(a) * exp(b), as a predicate of its own so that the
      law is only instantiated where a proof names it. */
  ghost predicate ExpAddsAt(t: Transcendentals, a: real, b: real) {
    t.exp(a + b) == t.exp(a) * t.exp(b)
  }

  /** The facts about the real functions that the proofs use. */
  ghost predicate Valid(t: Transcendentals) {
    && (forall x :: t.exp(x) > 0.0)
    && (forall x, y :: x < y ==> t.exp(x) < t.exp(y))
    && t.exp(0.0) == 1.0
    && (forall a, b :: ExpAddsAt(t, a, b))
    && t.sin(0.0) == 0.0
    && t.cos(0.0) == 1.0
    && (forall x :: -1.0 <= t.sin(x) <= 1.0)
    && (forall x :: -1.0 <= t.cos(x) <= 1.0)
    && (forall b, e :: b > 0.0 ==> t.pow(b, e) > 0.0)
  }

  /** A score fed to softmax: a finite number or -Infinity (a masked position). */
  datatype Score = Finite(value: real) | NegInf

  /** A number softmax produces: finite, or NaN (the result of 0 / 0). */
  datatype Num = Fin(v: real) | NaN

  /** The values of a sequence of numbers that are all finite. */
  function Values(r: seq<Num>): (vs: seq<real>)
    requires forall i :: 0 <= i < |r| ==> r[i].Fin?
    ensures |vs| == |r| && forall i :: 0 <= i < |r| ==> r[i] == Fin(vs[i])
  {
    seq(|r|, i requires 0 <= i < |r| => r[i].v)
  }

  /** `s.reduce((a, b) => a + b, 0)`: the sum, folded from the left. */
  function Sum(s: seq<real>): real {
    if s == [] then 0.0 else Sum(s[..|s| - 1]) + s[|s| - 1]
  }

  /** Every entry of `s` divided by `c`. */
  function DivideAll(s: seq<real>, c: real): (r: seq<real>)
    requires c != 0.0
    ensures |r| == |s| && forall i :: 0 <= i < |s| ==> r[i] == s[i] / c
  {
    seq(|s|, i requires 0 <= i < |s| => s[i] / c)
  }

  /** Every entry of `s` multiplied by `c`. */
  function ScaleAll(s: seq<real>, c: real): (r: seq<real>)
    ensures |r| == |s| && forall i :: 0 <= i < |s| ==> r[i] == s[i] * c
  {
    seq(|s|, i requires 0 <= i < |s| => s[i] * c)
  }

  /** A sum of non-negative terms is non-negative. */
  lemma {:induction false} SumNonNegative(s: seq<real>)
    requires forall i :: 0 <= i < |s| ==> s[i] >= 0.0
    ensures Sum(s) >= 0.0
  {
    if s != [] {
      SumNonNegative(s[..|s| - 1]);
    }
  }

  /** A sum of non-negative terms is positive as soon as one term is. */
  lemma {:induction false} SumPositive(s: seq<real>, k: nat)
    requires forall i :: 0 <= i < |s| ==> s[i] >= 0.0
    requires k < |s| && s[k] > 0.0
    ensures Sum(s) > 0.0
  {
    var n := |s|;
    if k == n - 1 {
      SumNonNegative(s[..n - 1]);
    } else {
      SumPositive(s[..n - 1], k);
    }
  }

  /** A sum whose terms are all zero but one equals that term. */
  lemma {:induction false} SumOfSingleTerm(s: seq<real>, k: nat)
    requires k < |s|
    requires forall i :: 0 <= i < |s| && i != k ==> s[i] == 0.0
    ensures Sum(s) == s[k]
  {
    var n := |s|;
    if k == n - 1 {
      SumOfZeros(s[..n - 1]);
    } else {
      SumOfSingleTerm(s[..n - 1], k);
    }
  }

  /** A sum of zeros is zero. */
  lemma {:induction false} SumOfZeros(s: seq<real>)
    requires forall i :: 0 <= i < |s| ==> s[i] == 0.0
    ensures Sum(s) == 0.0
  {
    if s != [] {
      SumOfZeros(s[..|s| - 1]);
    }
  }

  /** Dividing every term by c divides the sum by c. */
  lemma {:induction false} SumDivideAll(s: seq<real>, c: real)
    requires c != 0.0
    ensures Sum(DivideAll(s, c)) == Sum(s) / c
  {
    if s != [] {
      var n := |s|;
      assert DivideAll(s, c)[..n - 1] == DivideAll(s[..n - 1], c);
      SumDivideAll(s[..n - 1], c);
      assert Sum(s[..n - 1]) / c + s[n - 1] / c == (Sum(s[..n - 1]) + s[n - 1]) / c;
    }
  }

  /** Multiplying every term by c multiplies the sum by c. */
  lemma {:induction false} SumScaleAll(s: seq<real>, c: real)
    ensures Sum(ScaleAll(s, c)) == Sum(s) * c
  {
    if s != [] {
      var n := |s|;
      var front, scaledFront := ScaleAll(s, c)[..n - 1], ScaleAll(s[..n - 1], c);
      forall i | 0 <= i < n - 1 ensures front[i] == scaledFront[i] {
        assert s[..n - 1][i] == s[i];
      }
      assert front == scaledFront;
      SumScaleAll(s[..n - 1], c);
    }
  }



  /** x / x == 1, stated on its own so that proofs in a large context can
      use it without the solver searching the arithmetic. */
  lemma DivideBySelf(x: real)
    requires x != 0.0
    ensures x / x == 1.0
  {
  }

  /** A common non-zero factor cancels from a quotient. Like the two lemmas
      beside it, this is stated on its own because the solver runs out of
      resource on it inside the softmax proofs. */
  lemma CancelFactor(a: real, b: real, e: real)
    requires b != 0.0 && e != 0.0
    ensures (a * e) / (b * e) == a / b
  { }

  /** Dividing by a positive number keeps order, strict and weak. */
  lemma QuotientOrder(a: real, b: real, s: real)
    requires s > 0.0
    ensures 0.0 / s == 0.0
    ensures a < b ==> a / s < b / s
    ensures a <= b ==> a / s <= b / s
  {
  }
}
