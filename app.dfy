/**
 * The application shell: the fixed order of the 22 tutorial steps, the
 * clamped stepper that walks it, the progress bar, and the single-cell
 * weight editor. The state lives in one `TransformerApp` object whose
 * methods replace it the way the React setters do.
 */
module App {
  import opened Types
  import Constants

  /** `stepsOrder`. */
  const StepsOrder: seq<Step> := [
    Input, Embedding, Hardware, Positional, Encoding, Signal, Attention, Softmax,
    SelfAttentionBlock, MultiHeadAttention, ConcatProjection, ResidualAdd, LayerNorm,
    FfnOverview, FfnExpand, FfnActivate, FfnRefine, AddNorm, Stack, Output, BlackBox, Formula]

  /** The position of a step in the enumeration's declaration order. */
  function Ordinal(s: Step): nat {
    match s
    case Input => 0
    case Embedding => 1
    case Hardware => 2
    case Positional => 3
    case Encoding => 4
    case Signal => 5
    case Attention => 6
    case Softmax => 7
    case SelfAttentionBlock => 8
    case MultiHeadAttention => 9
    case ConcatProjection => 10
    case ResidualAdd => 11
    case LayerNorm => 12
    case FfnOverview => 13
    case FfnExpand => 14
    case FfnActivate => 15
    case FfnRefine => 16
    case AddNorm => 17
    case Stack => 18
    case Output => 19
    case BlackBox => 20
    case Formula => 21
  }

  /** `Array.prototype.indexOf`: the first position holding s, or -1. */
  function IndexOf(order: seq<Step>, s: Step): (r: int)
    ensures -1 <= r < |order|
    ensures r == -1 <==> s !in order
    ensures r >= 0 ==> order[r] == s && forall j :: 0 <= j < r ==> order[j] != s
  {
    if |order| == 0 then -1
    else if order[0] == s then 0
    else
      var k := IndexOf(order[1..], s);
      if k == -1 then -1 else k + 1
  }

  /** stepsOrder lists all 22 steps, each exactly once, in declaration order,
      from INPUT to FORMULA. */
  lemma StepsOrderEnumerates()
    ensures |StepsOrder| == 22 && StepsOrder[0] == Input && StepsOrder[21] == Formula
    ensures forall i :: 0 <= i < |StepsOrder| ==> Ordinal(StepsOrder[i]) == i
    ensures forall s :: StepsOrder[Ordinal(s)] == s
  {
  }

  /** No step appears twice in stepsOrder. */
  lemma StepsOrderDistinct()
    ensures forall i, j :: 0 <= i < j < |StepsOrder| ==> StepsOrder[i] != StepsOrder[j]
  {
    StepsOrderEnumerates();
    forall i, j | 0 <= i < j < |StepsOrder| ensures StepsOrder[i] != StepsOrder[j] {
      assert Ordinal(StepsOrder[i]) != Ordinal(StepsOrder[j]);
    }
  }

  /** indexOf(stepsOrder, s) never returns -1: it is the step's ordinal. */
  lemma IndexOfIsOrdinal(s: Step)
    ensures IndexOf(StepsOrder, s) == Ordinal(s)
  {
    StepsOrderEnumerates();
    var r := IndexOf(StepsOrder, s);
    assert StepsOrder[Ordinal(s)] == s;
    assert Ordinal(StepsOrder[r]) == r;
  }

  /** The step Next leads to: the following one, or the same step at FORMULA. */
  function Successor(s: Step): Step {
    if Ordinal(s) < 21 then StepsOrder[Ordinal(s) + 1] else s
  }

  /** The step Prev leads to: the preceding one, or the same step at INPUT. */
  function Predecessor(s: Step): Step {
    if Ordinal(s) > 0 then StepsOrder[Ordinal(s) - 1] else s
  }

  /** Next moves one place along stepsOrder and is a no-op exactly at FORMULA. */
  lemma SuccessorMoves(s: Step)
    ensures Successor(s) == s <==> s == Formula
    ensures s != Formula ==> Ordinal(Successor(s)) == Ordinal(s) + 1
  {
    StepsOrderEnumerates();
  }

  /** Prev moves one place back along stepsOrder and is a no-op exactly at INPUT. */
  lemma PredecessorMoves(s: Step)
    ensures Predecessor(s) == s <==> s == Input
    ensures s != Input ==> Ordinal(Predecessor(s)) == Ordinal(s) - 1
  {
    StepsOrderEnumerates();
  }

  /** Away from the ends, Prev undoes Next and Next undoes Prev. */
  lemma NextPrevRoundTrip(s: Step)
    ensures s != Formula ==> Predecessor(Successor(s)) == s
    ensures s != Input ==> Successor(Predecessor(s)) == s
  {
    StepsOrderEnumerates();
  }

  /** n presses of Next. */
  function Advance(s: Step, n: nat): Step
    decreases n
  {
    if n == 0 then s else Advance(Successor(s), n - 1)
  }

  /** n presses of Next from step s land n places further on, clamped at FORMULA. */
  lemma {:induction false} AdvanceLands(s: Step, n: nat)
    ensures Ordinal(Advance(s, n)) == if Ordinal(s) + n < 21 then Ordinal(s) + n else 21
    decreases n
  {
    if n > 0 {
      SuccessorMoves(s);
      AdvanceLands(Successor(s), n - 1);
    }
  }

  /** 21 presses of Next from INPUT reach FORMULA, where one more changes nothing. */
  lemma TwentyOneStepsReachFormula()
    ensures Advance(Input, 21) == Formula
    ensures Successor(Formula) == Formula
  {
    AdvanceLands(Input, 21);
    StepsOrderEnumerates();
  }

  /** `disabled={state.currentStep === Step.INPUT}` on Prev: the button is
      disabled exactly where Prev would change nothing. */
  function PrevDisabled(s: Step): (disabled: bool)
    ensures disabled <==> Predecessor(s) == s
  {
    PredecessorMoves(s);
    s == Input
  }

  /** `disabled={state.currentStep === Step.FORMULA}` on Next: the button is
      disabled exactly where Next would change nothing. */
  function NextDisabled(s: Step): (disabled: bool)
    ensures disabled <==> Successor(s) == s
  {
    SuccessorMoves(s);
    s == Formula
  }

  /** A bar of n segments in which segment i is lit when m >= i. */
  function Threshold(n: nat, m: int): (bar: seq<bool>)
    ensures |bar| == n
  {
    seq(n, i => m >= i)
  }

  /** Segment i of the progress bar is lit when indexOf(currentStep) >= i:
      one segment per step, and the first is always lit. */
  function ProgressBar(current: Step): (bar: seq<bool>)
    ensures |bar| == |StepsOrder| && bar[0]
  {
    IndexOfIsOrdinal(current);
    Threshold(|StepsOrder|, IndexOf(StepsOrder, current))
  }

  function CountLit(b: seq<bool>): nat {
    if b == [] then 0 else (if b[0] then 1 else 0) + CountLit(b[1..])
  }

  lemma {:induction false} CountThreshold(b: seq<bool>, m: int)
    requires forall i :: 0 <= i < |b| ==> (b[i] <==> i <= m)
    ensures CountLit(b) == if m < 0 then 0 else if m + 1 < |b| then m + 1 else |b|
  {
    if b != [] {
      CountThreshold(b[1..], m - 1);
    }
  }

  /** A threshold bar lights the segments 0..m that it has, and no others. */
  lemma ThresholdLights(n: nat, m: int)
    ensures forall i :: 0 <= i < n ==> (Threshold(n, m)[i] <==> i <= m)
    ensures CountLit(Threshold(n, m)) == if m < 0 then 0 else if m + 1 < n then m + 1 else n
  {
    CountThreshold(Threshold(n, m), m);
  }

  /** The bar lights the first indexOf(currentStep) + 1 segments and no others. */
  lemma ProgressBarLights(s: Step)
    ensures |ProgressBar(s)| == 22
    ensures forall i :: 0 <= i < 22 ==> (ProgressBar(s)[i] <==> i <= Ordinal(s))
    ensures CountLit(ProgressBar(s)) == Ordinal(s) + 1
  {
    IndexOfIsOrdinal(s);
    assert |StepsOrder| == 22 by {
      StepsOrderEnumerates();
    }
    ThresholdLights(22, Ordinal(s));
  }

  /** The lit segments form a prefix of the bar: a lit segment has only lit
      segments before it. */
  lemma ProgressBarIsPrefix(s: Step, i: nat, j: nat)
    requires i <= j < |ProgressBar(s)| && ProgressBar(s)[j]
    ensures ProgressBar(s)[i]
  {
    ProgressBarLights(s);
  }

  /** The state invariants: every embedding has VECTOR_DIM components, every
      weight matrix is VECTOR_DIM by VECTOR_DIM, and the active head exists. */
  predicate WellFormed(st: TransformerState) {
    && Constants.EmbeddingsHaveDim(st.tokens)
    && (forall h :: 0 <= h < |st.heads| ==> HeadHasDim(st.heads[h], Constants.VectorDim))
    && 0 <= st.activeHeadIndex < |st.heads|
  }

  /** The matrix entry a weight edit addresses. */
  function Cell(heads: seq<AttentionHeadData>, h: nat, key: MatrixKey, row: nat, col: nat): real
    requires h < |heads| && row < |MatrixOf(heads[h], key)| && col < |MatrixOf(heads[h], key)[row]|
  {
    MatrixOf(heads[h], key)[row][col]
  }

  /** Everything but one cell of the heads is as it was: same heads, same
      id, name and colour, same shapes, same entries away from that cell. */
  ghost predicate OnlyCellChanged(
    before: seq<AttentionHeadData>, after: seq<AttentionHeadData>,
    h: nat, key: MatrixKey, row: nat, col: nat)
  {
    && |after| == |before|
    && (forall g :: 0 <= g < |before| && g != h ==> after[g] == before[g])
    && h < |before|
    && after[h].id == before[h].id && after[h].name == before[h].name && after[h].color == before[h].color
    && (forall k: MatrixKey :: k != key ==> MatrixOf(after[h], k) == MatrixOf(before[h], k))
    && |MatrixOf(after[h], key)| == |MatrixOf(before[h], key)|
    && (forall r :: 0 <= r < |MatrixOf(before[h], key)| ==>
          |MatrixOf(after[h], key)[r]| == |MatrixOf(before[h], key)[r]|)
    && (forall r, c ::
          (0 <= r < |MatrixOf(before[h], key)| && 0 <= c < |MatrixOf(before[h], key)[r]| && (r, c) != (row, col))
          ==> MatrixOf(after[h], key)[r][c] == MatrixOf(before[h], key)[r][c])
  }

  class TransformerApp {
    var state: TransformerState
    var isMenuOpen: bool

    ghost predicate Valid()
      reads this
    {
      WellFormed(state)
    }

    /** The initial state: INPUT, the initial tokens embedded by the random
        table, the first head active, math mode off, the initial heads. */
    constructor (embeddingDraws: seq<seq<real>>, headDraws: seq<seq<seq<real>>>)
      requires Constants.IsDrawGrid(embeddingDraws, |Constants.InitialSentence|, Constants.VectorDim)
      requires |headDraws| == 9
      requires forall m :: 0 <= m < 9 ==> Constants.IsDrawGrid(headDraws[m], Constants.VectorDim, Constants.VectorDim)
      ensures Valid()
      ensures state.currentStep == Input
      ensures state.tokens == Constants.InitialTokens(Constants.RandomEmbeddingTable(embeddingDraws))
      ensures state.activeHeadIndex == 0
      ensures !state.mathMode
      ensures state.heads == Constants.InitialHeads(headDraws)
      ensures !isMenuOpen
    {
      state := TransformerState(
        Input,
        Constants.InitialTokens(Constants.RandomEmbeddingTable(embeddingDraws)),
        0,
        false,
        Constants.InitialHeads(headDraws));
      isMenuOpen := false;
    }

    /** `setStep`: jump to any step and close the menu. */
    method SetStep(s: Step)
      requires Valid()
      modifies this
      ensures Valid()
      ensures state == old(state).(currentStep := s)
      ensures !isMenuOpen
    {
      state := state.(currentStep := s);
      isMenuOpen := false;
    }

    /** `nextStep`: move to the successor in stepsOrder unless at FORMULA,
        where nothing changes (the menu is not touched either). */
    method NextStep()
      requires Valid()
      modifies this
      ensures Valid()
      ensures state == old(state).(currentStep := Successor(old(state.currentStep)))
      ensures isMenuOpen == (old(isMenuOpen) && old(state.currentStep) == Formula)
    {
      var currentIndex := IndexOf(StepsOrder, state.currentStep);
      IndexOfIsOrdinal(state.currentStep);
      SuccessorMoves(state.currentStep);
      if currentIndex < |StepsOrder| - 1 {
        SetStep(StepsOrder[currentIndex + 1]);
      }
    }

    /** `prevStep`: move to the predecessor in stepsOrder unless at INPUT,
        where nothing changes. */
    method PrevStep()
      requires Valid()
      modifies this
      ensures Valid()
      ensures state == old(state).(currentStep := Predecessor(old(state.currentStep)))
      ensures isMenuOpen == (old(isMenuOpen) && old(state.currentStep) == Input)
    {
      var currentIndex := IndexOf(StepsOrder, state.currentStep);
      IndexOfIsOrdinal(state.currentStep);
      PredecessorMoves(state.currentStep);
      if currentIndex > 0 {
        SetStep(StepsOrder[currentIndex - 1]);
      }
    }

    /** `updateWeight`: copy the heads, the addressed matrix and row, write
        the one entry, and put the copies back. */
    method UpdateWeight(headIndex: nat, matrixKey: MatrixKey, row: nat, col: nat, value: real)
      requires Valid()
      requires headIndex < |state.heads| && row < Constants.VectorDim && col < Constants.VectorDim
      modifies this
      ensures Valid()
      ensures OnlyCellChanged(old(state.heads), state.heads, headIndex, matrixKey, row, col)
      ensures IsSquare(MatrixOf(state.heads[headIndex], matrixKey), Constants.VectorDim)
      ensures Cell(state.heads, headIndex, matrixKey, row, col) == value
      ensures state.currentStep == old(state.currentStep) && state.tokens == old(state.tokens)
      ensures state.activeHeadIndex == old(state.activeHeadIndex) && state.mathMode == old(state.mathMode)
      ensures isMenuOpen == old(isMenuOpen)
    {
      var newHeads := state.heads;
      assert IsSquare(MatrixOf(newHeads[headIndex], matrixKey), Constants.VectorDim);
      var newMatrix := MatrixOf(newHeads[headIndex], matrixKey);
      var newRow := newMatrix[row];
      newRow := newRow[col := value];
      newMatrix := newMatrix[row := newRow];
      WithMatrixSpec(newHeads[headIndex], matrixKey, newMatrix, Constants.VectorDim);
      newHeads := newHeads[headIndex := WithMatrix(newHeads[headIndex], matrixKey, newMatrix)];
      state := state.(heads := newHeads);
    }
  }
}
