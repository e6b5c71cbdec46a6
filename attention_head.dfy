/**
 * The attention panel: the first four tokens are projected through one
 * head's query, key and value matrices; for the active (query) position
 * the scores of later positions are masked with -Infinity, the others are
 * scaled dot products, and softmax turns them into attention weights. The
 * active position cycles on a timer unless paused, and clicks select it.
 */
module AttentionHead {
  import opened Types
  import opened Numerics
  import opened Constants

  /** `Math.sqrt(VECTOR_DIM)`: the square root of 4 is exactly 2. */
  const SqrtVectorDim: real := 2.0

  lemma SqrtVectorDimIsExact()
    ensures SqrtVectorDim > 0.0 && SqrtVectorDim * SqrtVectorDim == VectorDim as real
  {
  }

  /** `state.tokens.slice(0, 4)`. */
  function DemoTokens(tokens: seq<Token>): (demo: seq<Token>)
    ensures |demo| == if |tokens| < 4 then |tokens| else 4
    ensures forall i :: 0 <= i < |demo| ==> demo[i] == tokens[i]
  {
    tokens[..if |tokens| < 4 then |tokens| else 4]
  }

  /** The query, key and value of one token. */
  datatype Projection = Projection(q: Vector, k: Vector, v: Vector)

  predicate ProjectionsHaveDim(p: seq<Projection>) {
    forall j :: 0 <= j < |p| ==> |p[j].q| == VectorDim && |p[j].k| == VectorDim && |p[j].v| == VectorDim
  }

  /** The `projections` memo: q = Wq·e, k = Wk·e and v = Wv·e for every demo token. */
  function Projections(head: AttentionHeadData, demo: seq<Token>): (p: seq<Projection>)
    requires HeadHasDim(head, VectorDim) && EmbeddingsHaveDim(demo)
    ensures |p| == |demo| && ProjectionsHaveDim(p)
  {
    seq(|demo|, i requires 0 <= i < |demo| =>
      Projection(
        MatVec(MatrixOf(head, Wq), demo[i].embedding),
        MatVec(MatrixOf(head, Wk), demo[i].embedding),
        MatVec(MatrixOf(head, Wv), demo[i].embedding)))
  }

  /** The causal mask: position j is hidden from query position activeIdx
      when it comes later. */
  predicate IsMasked(j: nat, activeIdx: nat) {
    j > activeIdx
  }

  /** The scores the `activeScores` loop pushes: -Infinity for every
      position after the query, q[activeIdx]·k[j] / sqrt(VECTOR_DIM) for the others. */
  function MaskedScores(p: seq<Projection>, activeIdx: nat): (scores: seq<Score>)
    requires activeIdx < |p| && ProjectionsHaveDim(p)
    ensures |scores| == |p|
  {
    seq(|p|, j requires 0 <= j < |p| =>
      if IsMasked(j, activeIdx) then NegInf else Finite(Dot(p[activeIdx].q, p[j].k) / SqrtVectorDim))
  }

  /** The loop of the `activeScores` memo: pushes -Infinity for every
      position after the query and the scaled dot product for the others. */
  method BuildScores(p: seq<Projection>, activeIdx: nat) returns (scores: seq<Score>)
    requires activeIdx < |p| && ProjectionsHaveDim(p)
    ensures scores == MaskedScores(p, activeIdx)
  {
    scores := [];
    var j := 0;
    while j < |p|
      invariant 0 <= j <= |p|
      invariant scores == MaskedScores(p, activeIdx)[..j]
    {
      if j > activeIdx {
        scores := scores + [NegInf];
      } else {
        var dot := Dot(p[activeIdx].q, p[j].k);
        scores := scores + [Finite(dot / SqrtVectorDim)];
      }
      j := j + 1;
    }
  }

  /** The `activeScores` memo: builds the masked, scaled scores in a loop and
      applies softmax. The weights are 0 after the query position, positive
      up to and including it, and sum to 1. */
  method ActiveScores(t: Transcendentals, p: seq<Projection>, activeIdx: nat) returns (weights: seq<Num>)
    requires Valid(t)
    requires activeIdx < |p| && ProjectionsHaveDim(p)
    ensures weights == Constants.Softmax(t, MaskedScores(p, activeIdx))
    ensures |weights| == |p|
    ensures forall j :: 0 <= j < |p| ==> weights[j].Fin?
    ensures forall j :: 0 <= j < |p| ==> (j > activeIdx ==> weights[j] == Fin(0.0))
    ensures forall j :: 0 <= j < |p| ==> (j <= activeIdx ==> weights[j].v > 0.0)
    ensures Sum(Values(weights)) == 1.0
  {
    var scores := BuildScores(p, activeIdx);
    MaskedWeights(t, p, activeIdx);
    weights := Constants.Softmax(t, scores);
  }

  /** Softmax of the masked scores: every weight is a number, those after the
      query position are 0, those up to and including it are positive, and
      together they sum to 1. */
  lemma MaskedWeights(t: Transcendentals, p: seq<Projection>, activeIdx: nat)
    requires Valid(t)
    requires activeIdx < |p| && ProjectionsHaveDim(p)
    ensures var w := Constants.Softmax(t, MaskedScores(p, activeIdx));
      && |w| == |p|
      && (forall j :: 0 <= j < |p| ==> w[j].Fin?)
      && (forall j :: 0 <= j < |p| ==> (j > activeIdx ==> w[j] == Fin(0.0)))
      && (forall j :: 0 <= j < |p| ==> (j <= activeIdx ==> w[j].v > 0.0))
      && Sum(Values(w)) == 1.0
  {
    var scores := MaskedScores(p, activeIdx);
    assert scores[activeIdx].Finite?;
    SoftmaxIsDistribution(t, scores);
  }

  /** The value vectors never enter the scores. */
  lemma ValuesNeverScored(p: seq<Projection>, p': seq<Projection>, activeIdx: nat)
    requires activeIdx < |p| && ProjectionsHaveDim(p) && ProjectionsHaveDim(p')
    requires |p'| == |p| && forall j :: 0 <= j < |p| ==> p'[j].q == p[j].q && p'[j].k == p[j].k
    ensures MaskedScores(p', activeIdx) == MaskedScores(p, activeIdx)
  {
  }

  /** With query position 0 only position 0 is visible, so it takes all the
      weight: [1, 0, 0, 0] for the four demo tokens. */
  lemma FirstPositionAttendsOnlyToItself(t: Transcendentals, p: seq<Projection>)
    requires Valid(t)
    requires 0 < |p| && ProjectionsHaveDim(p)
    ensures Constants.Softmax(t, MaskedScores(p, 0)) == seq(|p|, j requires 0 <= j < |p| => if j == 0 then Fin(1.0) else Fin(0.0))
  {
    var w := Constants.Softmax(t, MaskedScores(p, 0));
    MaskedWeights(t, p, 0);
    var vs := Values(w);
    SumOfSingleTerm(vs, 0);
    assert w[0] == Fin(1.0);
  }

  /** With identity weights every projection is the embedding itself, so the
      score of j is embedding[activeIdx]·embedding[j] / sqrt(VECTOR_DIM). */
  lemma IdentityHeadScores(head: AttentionHeadData, demo: seq<Token>, activeIdx: nat)
    requires head.Wq == Identity(VectorDim) && head.Wk == Identity(VectorDim) && head.Wv == Identity(VectorDim)
    requires EmbeddingsHaveDim(demo) && activeIdx < |demo|
    ensures HeadHasDim(head, VectorDim)
    ensures var p := Projections(head, demo);
      && (forall j :: 0 <= j < |demo| ==> p[j] == Projection(demo[j].embedding, demo[j].embedding, demo[j].embedding))
      && (forall j :: 0 <= j <= activeIdx ==>
            MaskedScores(p, activeIdx)[j] == Finite(Dot(demo[activeIdx].embedding, demo[j].embedding) / SqrtVectorDim))
  {
    assert IsSquare(Identity(VectorDim), VectorDim);
    assert HeadHasDim(head, VectorDim) by {
      forall key: MatrixKey ensures IsSquare(MatrixOf(head, key), VectorDim) {
      }
    }
    var p := Projections(head, demo);
    forall j | 0 <= j < |demo|
      ensures p[j] == Projection(demo[j].embedding, demo[j].embedding, demo[j].embedding)
    {
      MatVecIdentity(demo[j].embedding);
    }
  }

  /** `isActive={i <= activeIdx}` on source tokens and pipes: a token is
      drawn active exactly when the causal mask lets it through. */
  function IsSourceActive(i: nat, activeIdx: nat): (active: bool)
    ensures active <==> !IsMasked(i, activeIdx)
  {
    i <= activeIdx
  }

  /** A source token or pipe is lit exactly when its attention weight is positive. */
  lemma SourceActiveIffAttended(t: Transcendentals, p: seq<Projection>, activeIdx: nat, i: nat)
    requires Valid(t)
    requires activeIdx < |p| && ProjectionsHaveDim(p) && i < |p|
    ensures Constants.Softmax(t, MaskedScores(p, activeIdx))[i].Fin?
    ensures IsSourceActive(i, activeIdx) <==> Constants.Softmax(t, MaskedScores(p, activeIdx))[i].v > 0.0
  {
    var scores := MaskedScores(p, activeIdx);
    assert scores[activeIdx].Finite?;
    SoftmaxIsDistribution(t, scores);
    ExpsNonNegative(t, scores);
    var exps := Exps(t, scores);
    SumPositive(exps, activeIdx);
    if i <= activeIdx {
      assert exps[i] / Sum(exps) > 0.0;
    }
  }


  // ---------------------------------------------------------------------
  // The activeIdx / isPaused controller

  /** One timer tick: `(prev + 1) % demoTokens.length`. */
  function NextActive(a: nat, n: nat): (r: nat)
    requires n > 0
    ensures r < n
  {
    (a + 1) % n
  }

  /** k ticks of the timer. */
  function Cycle(a: nat, n: nat, k: nat): nat
    requires n > 0
  {
    if k == 0 then a else NextActive(Cycle(a, n, k - 1), n)
  }



  /** One tick from c lands on c + 1, or wraps round to 0 from the last position. */
  lemma NextActiveWraps(c: nat, n: nat)
    requires c < n
    ensures NextActive(c, n) == if c + 1 < n then c + 1 else 0
  {
    if c + 1 < n {
      assert (c + 1) % n == c + 1;
    } else {
      assert n % n == 0;
    }
  }

  /** k ticks, for k up to the number of demo tokens, move the active
      position k places round the demo tokens. */
  lemma {:induction false} CycleShifts(a: nat, n: nat, k: nat)
    requires a < n && k <= n
    ensures Cycle(a, n, k) == if a + k < n then a + k else a + k - n
  {
    if k > 0 {
      CycleShifts(a, n, k - 1);
      NextActiveWraps(Cycle(a, n, k - 1), n);
    }
  }

  /** After one tick per demo token the active position is back where it
      started, and not before. */
  lemma CycleReturns(a: nat, n: nat)
    requires a < n
    ensures Cycle(a, n, n) == a
    ensures forall k :: 0 < k < n ==> Cycle(a, n, k) != a
  {
    CycleShifts(a, n, n);
    forall k | 0 < k < n ensures Cycle(a, n, k) != a {
      CycleShifts(a, n, k);
    }
  }

  class Controller {
    /** `demoTokens.length`. */
    const demoLength: nat
    var activeIdx: nat
    var isPaused: bool

    ghost predicate Valid()
      reads this
    {
      activeIdx < demoLength
    }

    /** `useState(1)` and `useState(false)`; index 1 exists only when there
        are at least two demo tokens. */
    constructor (demoLength: nat)
      requires demoLength > 1
      ensures Valid()
      ensures this.demoLength == demoLength && activeIdx == 1 && !isPaused
    {
      this.demoLength := demoLength;
      activeIdx := 1;
      isPaused := false;
    }

    /** The interval callback; while paused the interval is cleared, so a
        tick changes nothing. */
    method Tick()
      requires Valid()
      modifies this
      ensures Valid()
      ensures isPaused == old(isPaused)
      ensures activeIdx == if old(isPaused) then old(activeIdx) else NextActive(old(activeIdx), demoLength)
    {
      if !isPaused {
        activeIdx := (activeIdx + 1) % demoLength;
      }
    }

    /** Clicking source token i or progress bar i. */
    method Select(i: nat)
      requires Valid() && i < demoLength
      modifies this
      ensures Valid()
      ensures activeIdx == i && isPaused
    {
      activeIdx := i;
      isPaused := true;
    }

    /** The play / pause button. */
    method TogglePause()
      requires Valid()
      modifies this
      ensures Valid()
      ensures activeIdx == old(activeIdx) && isPaused == !old(isPaused)
    {
      isPaused := !isPaused;
    }
  }
}
