/**
 * The softmax stage's worked example: four raw scores are shifted by
 * their maximum, halved and exponentiated, and the exponentials are
 * divided by their sum. A timer cycles the display through the raw,
 * exponential and probability phases.
 */
module SoftmaxStage {
  import opened Numerics
  import Constants

  /** The initial `rawScores`. */
  const DemoRawScores: seq<real> := [14.2, 11.5, 4.1, 8.8]

  /** `Math.max(...rawScores)` of a non-empty list: one of its entries, and
      no entry is larger. */
  function Max(s: seq<real>): (m: real)
    requires |s| > 0
    ensures exists i :: 0 <= i < |s| && s[i] == m
    ensures forall i :: 0 <= i < |s| ==> s[i] <= m
  {
    if |s| == 1 then s[0]
    else
      var front := Max(s[..|s| - 1]);
      assert forall i :: 0 <= i < |s| - 1 ==> s[..|s| - 1][i] == s[i];
      if s[|s| - 1] > front then s[|s| - 1] else front
  }

  /** The exponent `(s - max) / 2` of entry i: never positive, and zero
      exactly at the entries holding the maximum. */
  function ShiftedExponent(raw: seq<real>, i: nat): (x: real)
    requires i < |raw|
    ensures x <= 0.0 && (x == 0.0 <==> raw[i] == Max(raw))
  {
    (raw[i] - Max(raw)) / 2.0
  }

  /** `exps`: `Math.exp((s - max) / 2)` for every raw score. */
  function DemoExps(t: Transcendentals, raw: seq<real>): (exps: seq<real>)
    ensures |exps| == |raw|
  {
    seq(|raw|, i requires 0 <= i < |raw| => t.exp(ShiftedExponent(raw, i)))
  }

  /** The shifted exponents are at most 0, so every exponential lies in
      (0, 1], and it is exactly 1 at the entries holding the maximum. */
  lemma DemoExpsBounds(t: Transcendentals, raw: seq<real>)
    requires Valid(t)
    ensures forall i :: 0 <= i < |raw| ==> ShiftedExponent(raw, i) <= 0.0
    ensures forall i :: 0 <= i < |raw| ==> 0.0 < DemoExps(t, raw)[i] <= 1.0
    ensures forall i :: 0 <= i < |raw| ==> (DemoExps(t, raw)[i] == 1.0 <==> raw[i] == Max(raw))
  {
    var exps := DemoExps(t, raw);
    forall i | 0 <= i < |raw|
      ensures ShiftedExponent(raw, i) <= 0.0
      ensures 0.0 < exps[i] <= 1.0
      ensures exps[i] == 1.0 <==> raw[i] == Max(raw)
    {
      var x := ShiftedExponent(raw, i);
      assert raw[i] <= Max(raw);
      if raw[i] < Max(raw) {
        assert x < 0.0;
        assert t.exp(x) < t.exp(0.0);
      }
    }
  }

  /** `sumExp`: positive as soon as there is one raw score. */
  lemma DemoSumPositive(t: Transcendentals, raw: seq<real>)
    requires Valid(t) && |raw| > 0
    ensures Sum(DemoExps(t, raw)) > 0.0
  {
    DemoExpsBounds(t, raw);
    SumPositive(DemoExps(t, raw), 0);
  }

  /** `probs`: every exponential divided by `sumExp`. An empty score list
      gives no probabilities. */
  function DemoProbs(t: Transcendentals, raw: seq<real>): (probs: seq<real>)
    requires Valid(t)
    ensures |probs| == |raw|
  {
    if |raw| == 0 then []
    else
      DemoSumPositive(t, raw);
      DivideAll(DemoExps(t, raw), Sum(DemoExps(t, raw)))
  }

  /** The probabilities are all positive and sum to 1. */
  lemma DemoProbsIsDistribution(t: Transcendentals, raw: seq<real>)
    requires Valid(t) && |raw| > 0
    ensures forall i :: 0 <= i < |raw| ==> DemoProbs(t, raw)[i] > 0.0
    ensures Sum(DemoProbs(t, raw)) == 1.0
  {
    var exps := DemoExps(t, raw);
    DemoExpsBounds(t, raw);
    DemoSumPositive(t, raw);
    var sum := Sum(exps);
    forall i | 0 <= i < |raw| ensures DemoProbs(t, raw)[i] > 0.0 {
      QuotientOrder(0.0, exps[i], sum);
    }
    SumDivideAll(exps, sum);
    DivideBySelf(sum);
  }

  /** The probabilities are ordered as the raw scores are: a strictly larger
      raw score gets a strictly larger probability, and conversely. */
  lemma DemoProbsOrdered(t: Transcendentals, raw: seq<real>, i: nat, j: nat)
    requires Valid(t) && i < |raw| && j < |raw|
    ensures raw[i] < raw[j] <==> DemoProbs(t, raw)[i] < DemoProbs(t, raw)[j]
  {
    var exps := DemoExps(t, raw);
    DemoSumPositive(t, raw);
    var sum := Sum(exps);
    var xi, xj := ShiftedExponent(raw, i), ShiftedExponent(raw, j);
    if raw[i] < raw[j] {
      assert xi < xj;
      assert t.exp(xi) < t.exp(xj);
      QuotientOrder(exps[i], exps[j], sum);
    } else {
      assert xj <= xi;
      assert t.exp(xj) <= t.exp(xi) by {
        if xj < xi {
          assert t.exp(xj) < t.exp(xi);
        }
      }
      QuotientOrder(exps[j], exps[i], sum);
    }
  }

  /** Every raw score halved: the exponents before the shift by the maximum. */
  function Halved(raw: seq<real>): (h: seq<real>)
    ensures |h| == |raw| && forall i :: 0 <= i < |raw| ==> h[i] * 2.0 == raw[i]
  {
    seq(|raw|, i requires 0 <= i < |raw| => raw[i] / 2.0)
  }

  /** Subtracting the maximum only rescales the exponentials, so the demo's
      probabilities are the library softmax of the halved scores. */
  lemma DemoProbsAreSoftmax(t: Transcendentals, raw: seq<real>)
    requires Valid(t)
    ensures forall i :: 0 <= i < |raw| ==> Constants.Softmax(t, Constants.Finites(Halved(raw)))[i] == Fin(DemoProbs(t, raw)[i])
  {
    if |raw| > 0 {
      var c := -Max(raw) / 2.0;
      var shifted := Constants.Shifted(Halved(raw), c);
      assert Constants.Exps(t, Constants.Finites(shifted)) == DemoExps(t, raw) by {
        forall i | 0 <= i < |raw|
          ensures Constants.Exps(t, Constants.Finites(shifted))[i] == DemoExps(t, raw)[i]
        {
          assert shifted[i] == ShiftedExponent(raw, i);
        }
      }
      Constants.SoftmaxShiftInvariant(t, Halved(raw), c);
      DemoSumPositive(t, raw);
    }
  }

  /** The maximum of the example's scores is its first score, 14.2. */
  lemma DemoMax()
    ensures Max(DemoRawScores) == 14.2
  {
    var raw := DemoRawScores;
    assert raw[..1] == [14.2];
    assert raw[..2][..1] == raw[..1];
    assert raw[..3][..2] == raw[..2];
    assert raw[..3] == raw[..|raw| - 1];
  }

  /** In the example the first score, 14.2, is the maximum: its exponential
      is 1 and it takes the largest probability. */
  lemma FirstScoreWins(t: Transcendentals)
    requires Valid(t)
    ensures Max(DemoRawScores) == 14.2
    ensures DemoExps(t, DemoRawScores)[0] == 1.0
    ensures forall i :: 1 <= i < 4 ==> DemoProbs(t, DemoRawScores)[i] < DemoProbs(t, DemoRawScores)[0]
  {
    var raw := DemoRawScores;
    DemoMax();
    DemoExpsBounds(t, raw);
    forall i | 1 <= i < 4 ensures DemoProbs(t, raw)[i] < DemoProbs(t, raw)[0] {
      DemoProbsOrdered(t, raw, i, 0);
    }
  }

  // ---------------------------------------------------------------------
  // The raw -> exp -> prob display cycle

  /** The phase shown: `'raw' | 'exp' | 'prob'`. */
  datatype Phase = RawPhase | ExpPhase | ProbPhase

  /** The interval's update: raw to exp, exp to prob, anything else to raw.
      Every tick changes the phase on display. */
  function NextPhase(p: Phase): (next: Phase)
    ensures next != p
  {
    if p == RawPhase then ExpPhase else if p == ExpPhase then ProbPhase else RawPhase
  }

  /** k ticks of the timer. */
  function Ticks(p: Phase, k: nat): Phase {
    if k == 0 then p else NextPhase(Ticks(p, k - 1))
  }

  /** The cycle has period exactly 3 and visits all three phases. */
  lemma PhaseCycle(p: Phase)
    ensures Ticks(p, 3) == p
    ensures Ticks(p, 1) != p && Ticks(p, 2) != p
    ensures {Ticks(p, 0), Ticks(p, 1), Ticks(p, 2)} == {RawPhase, ExpPhase, ProbPhase}
  {
  }

  /** Ticks compose: the phase depends only on the number of ticks modulo 3. */
  lemma {:induction false} TicksModThree(p: Phase, k: nat)
    ensures Ticks(p, k) == Ticks(p, k % 3)
  {
    if k >= 3 {
      TicksModThree(p, k - 3);
      TicksAdd(p, k - 3, 3);
      PhaseCycle(Ticks(p, k - 3));
      assert (k - 3) % 3 == k % 3;
    }
  }

  lemma {:induction false} TicksAdd(p: Phase, a: nat, b: nat)
    ensures Ticks(p, a + b) == Ticks(Ticks(p, a), b)
  {
    if b > 0 {
      TicksAdd(p, a, b - 1);
    }
  }

  /** The component's state: the raw scores and the phase on display. */
  class SoftmaxDemo {
    var rawScores: seq<real>
    var phase: Phase

    /** `useState([14.2, 11.5, 4.1, 8.8])` and `useState('raw')`. */
    constructor ()
      ensures rawScores == DemoRawScores && phase == RawPhase
    {
      rawScores := DemoRawScores;
      phase := RawPhase;
    }

    /** One interval tick advances the phase and keeps the scores. */
    method Tick()
      modifies this
      ensures phase == NextPhase(old(phase)) && rawScores == old(rawScores)
    {
      phase := match phase
        case RawPhase => ExpPhase
        case ExpPhase => ProbPhase
        case ProbPhase => RawPhase;
    }
  }
}
