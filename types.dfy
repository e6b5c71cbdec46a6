/**
 * The data model shared by the visualizer: vectors and matrices, tokens,
 * the 22 tutorial steps, attention heads and the application state.
 */
module Types {

  datatype Option<T> = None | Some(value: T)

  type Vector = seq<real>

  /** A matrix is its list of rows. */
  type Matrix = seq<Vector>

  /** A word of the demonstration sentence. `posEncoded` is optional. */
  datatype Token = Token(id: string, text: string, embedding: Vector, posEncoded: Option<Vector>)

  /** The tutorial stages, in the order the enumeration declares them. */
  datatype Step =
    | Input
    | Embedding
    | Hardware
    | Positional
    | Encoding
    | Signal
    | Attention
    | Softmax
    | SelfAttentionBlock
    | MultiHeadAttention
    | ConcatProjection
    | ResidualAdd
    | LayerNorm
    | FfnOverview
    | FfnExpand
    | FfnActivate
    | FfnRefine
    | AddNorm
    | Stack
    | Output
    | BlackBox
    | Formula

  /** One attention head: display data and its query, key and value weights. */
  datatype AttentionHeadData = AttentionHeadData(
    id: int,
    name: string,
    color: string,
    Wq: Matrix,
    Wk: Matrix,
    Wv: Matrix)

  /** Which of a head's three matrices the weight editor addresses. */
  datatype MatrixKey = Wq | Wk | Wv

  function MatrixOf(head: AttentionHeadData, key: MatrixKey): Matrix {
    match key
    case Wq => head.Wq
    case Wk => head.Wk
    case Wv => head.Wv
  }

  /** `{ ...head, [key]: m }` */
  function WithMatrix(head: AttentionHeadData, key: MatrixKey, m: Matrix): AttentionHeadData {
    match key
    case Wq => head.(Wq := m)
    case Wk => head.(Wk := m)
    case Wv => head.(Wv := m)
  }

  /** The whole application state the stepper and the weight editor replace. */
  datatype TransformerState = TransformerState(
    currentStep: Step,
    tokens: seq<Token>,
    activeHeadIndex: int,
    mathMode: bool,
    heads: seq<AttentionHeadData>)

  /** An n-by-n matrix. */
  predicate IsSquare(m: Matrix, n: nat) {
    |m| == n && forall i :: 0 <= i < n ==> |m[i]| == n
  }

  /** All three weight matrices of the head are n-by-n. */
  predicate HeadHasDim(head: AttentionHeadData, n: nat) {
    forall key: MatrixKey :: IsSquare(MatrixOf(head, key), n)
  }

  /** Replacing one matrix by another of the same shape keeps the head's
      shape, its display data and its other two matrices. */
  lemma WithMatrixSpec(head: AttentionHeadData, key: MatrixKey, m: Matrix, n: nat)
    requires HeadHasDim(head, n) && IsSquare(m, n)
    ensures var head' := WithMatrix(head, key, m);
      && HeadHasDim(head', n)
      && MatrixOf(head', key) == m
      && (forall k: MatrixKey :: k != key ==> MatrixOf(head', k) == MatrixOf(head, k))
      && head'.id == head.id && head'.name == head.name && head'.color == head.color
  {
    var head' := WithMatrix(head, key, m);
    forall k: MatrixKey ensures IsSquare(MatrixOf(head', k), n) {
      if k != key {
        assert IsSquare(MatrixOf(head, k), n);
      }
    }
  }
}
