/**
 * The numeric layer under the visuals: the demonstration sentence, the
 * vector and matrix primitives, softmax, the sinusoidal positional
 * encoding, the two embedding tables, the initial attention heads and the
 * initial tokens. Every Math.random() draw is a parameter in [0, 1).
 */
module Constants {
  import opened Types
  import opened Numerics

  const InitialSentence: seq<string> :=
    ["The", "king", "and", "the", "queen", "quarrel", "as", "well", "as", "uncle", "and", "aunt"]

  /** The width of every embedding and of every weight matrix. */
  const VectorDim: nat := 4

  /** Every token's embedding has VECTOR_DIM components. */
  predicate EmbeddingsHaveDim(tokens: seq<Token>) {
    forall i :: 0 <= i < |tokens| ==> |tokens[i].embedding| == VectorDim
  }

  // ---------------------------------------------------------------------
  // Random draws

  /** A value Math.random() can return. */
  predicate IsDraw(x: real) {
    0.0 <= x < 1.0
  }

  /** rows-by-cols values of Math.random(). */
  predicate IsDrawGrid(d: seq<seq<real>>, rows: nat, cols: nat) {
    && |d| == rows
    && forall i :: 0 <= i < rows ==> |d[i]| == cols && forall j :: 0 <= j < cols ==> IsDraw(d[i][j])
  }

  /** Every entry of m lies in [lo, hi). */
  predicate EntriesIn(m: Matrix, lo: real, hi: real) {
    forall i, j :: 0 <= i < |m| && 0 <= j < |m[i]| ==> lo <= m[i][j] < hi
  }

  /** `generateMatrix(rows, cols)`: entries `Math.random() * 2 - 1`. */
  function GenerateMatrix(rows: nat, cols: nat, draws: seq<seq<real>>): (m: Matrix)
    requires IsDrawGrid(draws, rows, cols)
    ensures |m| == rows && forall i :: 0 <= i < rows ==> |m[i]| == cols
    ensures EntriesIn(m, -1.0, 1.0)
  {
    seq(rows, i requires 0 <= i < rows =>
      seq(cols, j requires 0 <= j < cols => draws[i][j] * 2.0 - 1.0))
  }

  // ---------------------------------------------------------------------
  // Embedding tables

  /** `RANDOM_EMBEDDING_TABLE`: one row of four `(Math.random() * 2 - 1) * 0.8` per word. */
  function RandomEmbeddingTable(draws: seq<seq<real>>): (table: seq<Vector>)
    requires IsDrawGrid(draws, |InitialSentence|, VectorDim)
    ensures |table| == |InitialSentence|
    ensures forall i :: 0 <= i < |table| ==> |table[i]| == VectorDim
    ensures EntriesIn(table, -0.8, 0.8)
  {
    seq(|InitialSentence|, i requires 0 <= i < |InitialSentence| =>
      seq(VectorDim, j requires 0 <= j < VectorDim => (draws[i][j] * 2.0 - 1.0) * 0.8))
  }

  /** The "masculinity" direction of the curated table. */
  const GenderDirection: Vector := [0.7, -0.1, 0.1]
  const RoyalCenter: Vector := [-0.4, 0.6, 0.5]
  const FamilyCenter: Vector := [0.4, -0.3, -0.4]
  const NeutralCenter: Vector := [0.0, 0.1, 0.1]

  /** The functional words that cluster near NeutralCenter. */
  const NeutralWords: seq<string> := ["the", "and", "as", "well"]

  function Add(u: Vector, w: Vector): Vector
    requires |u| == |w|
  {
    seq(|u|, j requires 0 <= j < |u| => u[j] + w[j])
  }

  function Sub(u: Vector, w: Vector): Vector
    requires |u| == |w|
  {
    seq(|u|, j requires 0 <= j < |u| => u[j] - w[j])
  }

  /** `toLowerCase` on the ASCII letters the sentence uses: no capital is
      left, and every other character is kept. */
  function ToLower(s: string): (lower: string)
    ensures |lower| == |s|
    ensures forall i :: 0 <= i < |s| ==> !('A' <= lower[i] <= 'Z')
    ensures forall i :: 0 <= i < |s| && !('A' <= s[i] <= 'Z') ==> lower[i] == s[i]
  {
    seq(|s|, i requires 0 <= i < |s| => if 'A' <= s[i] <= 'Z' then (s[i] as int + 32) as char else s[i])
  }

  /** The curated embedding of one word; `jitter` holds the three draws a
      functional word takes. */
  function TrainedEmbedding(word: string, jitter: seq<real>): (e: Vector)
    requires |jitter| == 3
    ensures |e| == VectorDim
  {
    var w := ToLower(word);
    if w == "king" then Add(RoyalCenter, GenderDirection) + [0.5]
    else if w == "queen" then Sub(RoyalCenter, GenderDirection) + [-0.5]
    else if w == "uncle" then Add(FamilyCenter, GenderDirection) + [0.4]
    else if w == "aunt" then Sub(FamilyCenter, GenderDirection) + [-0.4]
    else if w in NeutralWords then
      seq(3, j requires 0 <= j < 3 => NeutralCenter[j] + (jitter[j] * 0.15 - 0.075)) + [0.0]
    else if w == "quarrel" then [-0.7, -0.7, 0.1, -0.2]
    else [0.0, 0.0, 0.0, 0.0]
  }

  /** `TRAINED_EMBEDDING_TABLE`: the curated embedding of every word of the sentence. */
  function TrainedEmbeddingTable(jitter: seq<seq<real>>): (table: seq<Vector>)
    requires IsDrawGrid(jitter, |InitialSentence|, 3)
    ensures |table| == |InitialSentence|
    ensures forall i :: 0 <= i < |table| ==> |table[i]| == VectorDim
  {
    seq(|InitialSentence|, i requires 0 <= i < |InitialSentence| =>
      TrainedEmbedding(InitialSentence[i], jitter[i]))
  }

  /** king - queen and uncle - aunt are both twice the gender direction on
      the first three components; the fourth components differ (1.0 and 0.8). */
  lemma TrainedAnalogy(jitter: seq<seq<real>>)
    requires IsDrawGrid(jitter, |InitialSentence|, 3)
    ensures var table := TrainedEmbeddingTable(jitter);
      && InitialSentence[1] == "king" && InitialSentence[4] == "queen"
      && InitialSentence[9] == "uncle" && InitialSentence[11] == "aunt"
      && Sub(table[1][..3], table[4][..3]) == ScaleAll(GenderDirection, 2.0)
      && Sub(table[9][..3], table[11][..3]) == ScaleAll(GenderDirection, 2.0)
      && table[1][3] - table[4][3] == 1.0
      && table[9][3] - table[11][3] == 0.8
  {
    var table := TrainedEmbeddingTable(jitter);
    assert ToLower("king") == "king";
    assert ToLower("queen") == "queen";
    assert ToLower("uncle") == "uncle";
    assert ToLower("aunt") == "aunt";
    assert table[1] == [0.3, 0.5, 0.6, 0.5];
    assert table[4] == [-1.1, 0.7, 0.4, -0.5];
    assert table[9] == [1.1, -0.4, -0.3, 0.4];
    assert table[11] == [-0.3, -0.2, -0.5, -0.4];
  }

  /** The functional words sit within 0.075 of NeutralCenter and have a
      fourth component of 0. */
  lemma TrainedNeutralWords(jitter: seq<seq<real>>, i: nat)
    requires IsDrawGrid(jitter, |InitialSentence|, 3)
    requires i < |InitialSentence| && ToLower(InitialSentence[i]) in NeutralWords
    ensures var e := TrainedEmbeddingTable(jitter)[i];
      && e[3] == 0.0
      && forall j :: 0 <= j < 3 ==> NeutralCenter[j] - 0.075 <= e[j] < NeutralCenter[j] + 0.075
  {
  }

  // ---------------------------------------------------------------------
  // Heads and tokens

  const HeadNames: seq<string> := ["Head 1 (Syntax)", "Head 2 (Semantic)", "Head 3 (Global)"]
  const HeadColors: seq<string> := ["#06b6d4", "#8b5cf6", "#f43f5e"]

  /** `INITIAL_HEADS`: three heads; head h draws its Wq, Wk and Wv from
      draws[3h], draws[3h + 1] and draws[3h + 2]. */
  function InitialHeads(draws: seq<seq<seq<real>>>): (heads: seq<AttentionHeadData>)
    requires |draws| == 9 && forall m :: 0 <= m < 9 ==> IsDrawGrid(draws[m], VectorDim, VectorDim)
    ensures |heads| == 3
    ensures forall h :: 0 <= h < 3 ==>
      && heads[h].id == h
      && heads[h].name == HeadNames[h] && heads[h].color == HeadColors[h]
      && HeadHasDim(heads[h], VectorDim)
      && EntriesIn(heads[h].Wq, -1.0, 1.0)
      && EntriesIn(heads[h].Wk, -1.0, 1.0)
      && EntriesIn(heads[h].Wv, -1.0, 1.0)
  {
    seq(3, h requires 0 <= h < 3 =>
      AttentionHeadData(h, HeadNames[h], HeadColors[h],
        GenerateMatrix(VectorDim, VectorDim, draws[3 * h]),
        GenerateMatrix(VectorDim, VectorDim, draws[3 * h + 1]),
        GenerateMatrix(VectorDim, VectorDim, draws[3 * h + 2])))
  }

  function Digit(d: nat): char
    requires d < 10
  {
    ('0' as int + d) as char
  }

  /** The decimal numeral of n, as a template literal renders it: one or
      more digits, at least two from 10 on, and no leading zero. */
  function Decimal(n: nat): (numeral: string)
    ensures |numeral| >= 1 && (n >= 10 ==> |numeral| >= 2)
    ensures forall i :: 0 <= i < |numeral| ==> '0' <= numeral[i] <= '9'
    ensures |numeral| > 1 ==> numeral[0] != '0'
  {
    if n < 10 then [Digit(n)] else Decimal(n / 10) + [Digit(n % 10)]
  }

  /** Distinct numbers have distinct numerals. */
  lemma {:induction false} DecimalInjective(a: nat, b: nat)
    requires Decimal(a) == Decimal(b)
    ensures a == b
  {
    if a >= 10 && b >= 10 {
      var da, db := Decimal(a), Decimal(b);
      assert da[..|da| - 1] == Decimal(a / 10);
      assert db[..|db| - 1] == Decimal(b / 10);
      DecimalInjective(a / 10, b / 10);
      assert Digit(a % 10) == da[|da| - 1] == db[|db| - 1] == Digit(b % 10);
    }
  }

  /** `INITIAL_TOKENS`: token i is `token-i`, the i-th word, embedded by row i. */
  function InitialTokens(table: seq<Vector>): (tokens: seq<Token>)
    requires |table| == |InitialSentence|
    ensures |tokens| == |InitialSentence|
  {
    seq(|InitialSentence|, i requires 0 <= i < |InitialSentence| =>
      Token("token-" + Decimal(i), InitialSentence[i], table[i], None))
  }

  /** Token i carries the i-th word and the i-th row of the table, and no two
      tokens share an id. */
  lemma InitialTokensSpec(table: seq<Vector>)
    requires |table| == |InitialSentence|
    ensures var tokens := InitialTokens(table);
      && (forall i :: 0 <= i < |tokens| ==>
            tokens[i].text == InitialSentence[i] && tokens[i].embedding == table[i])
      && (forall i, j :: 0 <= i < j < |tokens| ==> tokens[i].id != tokens[j].id)
  {
    var tokens := InitialTokens(table);
    forall i, j | 0 <= i < j < |tokens| ensures tokens[i].id != tokens[j].id {
      if tokens[i].id == tokens[j].id {
        var p := "token-";
        assert Decimal(i) == tokens[i].id[|p|..];
        assert Decimal(j) == tokens[j].id[|p|..];
        DecimalInjective(i, j);
      }
    }
  }

  // ---------------------------------------------------------------------
  // Vector and matrix primitives

  /** `dotProduct`: the fold `acc + val * v2[i]` over the indices of `v1`;
      it computes the sum over all indices of a[i] * b[i]. */
  function Dot(a: Vector, b: Vector): (r: real)
    requires |a| == |b|
    ensures r == Sum(Products(a, b))
  {
    if |a| == 0 then 0.0
    else
      var n := |a|;
      assert Products(a, b)[..n - 1] == Products(a[..n - 1], b[..n - 1]) by {
        var front, frontProducts := Products(a, b)[..n - 1], Products(a[..n - 1], b[..n - 1]);
        forall i | 0 <= i < n - 1 ensures front[i] == frontProducts[i] {
          assert a[..n - 1][i] == a[i] && b[..n - 1][i] == b[i];
        }
      }
      Dot(a[..n - 1], b[..n - 1]) + a[n - 1] * b[n - 1]
  }

  lemma {:induction false} DotCommutes(a: Vector, b: Vector)
    requires |a| == |b|
    ensures Dot(a, b) == Dot(b, a)
  {
    if |a| > 0 {
      DotCommutes(a[..|a| - 1], b[..|b| - 1]);
    }
  }

  /** The term-by-term products a[i] * b[i]. */
  function Products(a: Vector, b: Vector): (p: seq<real>)
    requires |a| == |b|
    ensures |p| == |a| && forall i :: 0 <= i < |a| ==> p[i] == a[i] * b[i]
  {
    seq(|a|, i requires 0 <= i < |a| => a[i] * b[i])
  }

  /** All rows of m have the length of v. */
  predicate Conforms(m: Matrix, v: Vector) {
    forall i :: 0 <= i < |m| ==> |m[i]| == |v|
  }

  /** `matrixVectorMul`: one dot product per row. */
  function MatVec(m: Matrix, v: Vector): (r: Vector)
    requires Conforms(m, v)
    ensures |r| == |m|
  {
    seq(|m|, i requires 0 <= i < |m| => Dot(m[i], v))
  }

  /** Row k of the n-by-n identity. */
  function Unit(n: nat, k: nat): Vector {
    seq(n, j requires 0 <= j < n => if j == k then 1.0 else 0.0)
  }

  function Identity(n: nat): Matrix {
    seq(n, i requires 0 <= i < n => Unit(n, i))
  }

  /** A unit row picks one component out of v. */
  lemma {:induction false} DotUnit(n: nat, k: nat, v: Vector)
    requires |v| == n
    ensures Dot(Unit(n, k), v) == if k < n then v[k] else 0.0
  {
    if n > 0 {
      assert Unit(n, k)[..n - 1] == Unit(n - 1, k);
      DotUnit(n - 1, k, v[..n - 1]);
    }
  }

  /** Multiplying by the identity returns the vector unchanged. */
  lemma MatVecIdentity(v: Vector)
    ensures Conforms(Identity(|v|), v) && MatVec(Identity(|v|), v) == v
  {
    forall i | 0 <= i < |v| ensures MatVec(Identity(|v|), v)[i] == v[i] {
      DotUnit(|v|, i, v);
    }
  }

  // ---------------------------------------------------------------------
  // Softmax

  /** Math.exp, with exp(-Infinity) == 0. */
  function ExpOf(t: Transcendentals, s: Score): (e: real)
    ensures Valid(t) ==> e >= 0.0 && (e > 0.0 <==> s.Finite?)
  {
    match s
    case Finite(x) => t.exp(x)
    case NegInf => 0.0
  }

  /** The exponential of every input. */
  function Exps(t: Transcendentals, arr: seq<Score>): (exps: seq<real>)
    ensures |exps| == |arr|
  {
    seq(|arr|, i requires 0 <= i < |arr| => ExpOf(t, arr[i]))
  }

  /** Divides every entry by the sum of all of them; 0 / 0 gives NaN. */
  function Normalize(exps: seq<real>): (r: seq<Num>)
    ensures |r| == |exps|
  {
    var sum := Sum(exps);
    seq(|exps|, i requires 0 <= i < |exps| => if sum == 0.0 then NaN else Fin(exps[i] / sum))
  }

  /** `softmax`: exponentiate, sum, divide; there is no max shift. When the
      sum is 0 every exponential is 0 (SoftmaxAllMasked) and JavaScript's
      0 / 0 gives NaN. */
  function Softmax(t: Transcendentals, arr: seq<Score>): (r: seq<Num>)
    ensures |r| == |arr|
  {
    Normalize(Exps(t, arr))
  }

  predicate HasFinite(arr: seq<Score>) {
    exists i :: 0 <= i < |arr| && arr[i].Finite?
  }

  lemma ExpsNonNegative(t: Transcendentals, arr: seq<Score>)
    requires Valid(t)
    ensures forall i :: 0 <= i < |arr| ==> Exps(t, arr)[i] >= 0.0 && (Exps(t, arr)[i] > 0.0 <==> arr[i].Finite?)
  {
  }


  /** With a finite entry present, softmax gives finite weights: 0 exactly
      at the -Infinity entries, positive elsewhere, summing to 1. */
  lemma SoftmaxIsDistribution(t: Transcendentals, arr: seq<Score>)
    requires Valid(t) && HasFinite(arr)
    ensures var r := Softmax(t, arr);
      && (forall i :: 0 <= i < |arr| ==> r[i].Fin? && r[i].v >= 0.0)
      && (forall i :: 0 <= i < |arr| ==> (arr[i] == NegInf <==> r[i] == Fin(0.0)))
      && Sum(Values(r)) == 1.0
  {
    var exps := Exps(t, arr);
    var sum := Sum(exps);
    var k :| 0 <= k < |arr| && arr[k].Finite?;
    ExpsNonNegative(t, arr);
    SumPositive(exps, k);
    var r := Softmax(t, arr);
    forall i | 0 <= i < |arr|
      ensures r[i].Fin? && r[i].v >= 0.0 && (arr[i] == NegInf <==> r[i] == Fin(0.0))
    {
      assert r[i] == Fin(exps[i] / sum);
      QuotientOrder(0.0, exps[i], sum);
    }
    assert Values(r) == DivideAll(exps, sum);
    SumDivideAll(exps, sum);
    DivideBySelf(sum);
  }

  /** Softmax of an input with no finite entry (for instance the empty one)
      is all NaN. */
  lemma SoftmaxAllMasked(t: Transcendentals, arr: seq<Score>)
    requires !HasFinite(arr)
    ensures forall i :: 0 <= i < |arr| ==> Softmax(t, arr)[i] == NaN
  {
    SumOfZeros(Exps(t, arr));
  }

  function Finites(x: seq<real>): seq<Score> {
    seq(|x|, i requires 0 <= i < |x| => Finite(x[i]))
  }

  function Shifted(x: seq<real>, c: real): seq<real> {
    seq(|x|, i requires 0 <= i < |x| => x[i] + c)
  }

  /** Scaling every term by a positive factor does not change the normalised values. */
  lemma NormalizeScaleInvariant(exps: seq<real>, e: real)
    requires forall i :: 0 <= i < |exps| ==> exps[i] >= 0.0
    requires e > 0.0
    ensures Normalize(ScaleAll(exps, e)) == Normalize(exps)
  {
    var scaled := ScaleAll(exps, e);
    SumScaleAll(exps, e);
    if Sum(exps) == 0.0 {
      assert Sum(scaled) == 0.0;
    } else {
      forall i | 0 <= i < |exps| ensures Normalize(scaled)[i] == Normalize(exps)[i] {
        CancelFactor(exps[i], Sum(exps), e);
      }
    }
  }



  /** Under the exponential, a shift by c is a scaling by exp(c). */
  lemma ExpsOfShifted(t: Transcendentals, x: seq<real>, c: real)
    requires forall a, b :: ExpAddsAt(t, a, b)
    ensures Exps(t, Finites(Shifted(x, c))) == ScaleAll(Exps(t, Finites(x)), t.exp(c))
  {
    var shiftedExps, scaled := Exps(t, Finites(Shifted(x, c))), ScaleAll(Exps(t, Finites(x)), t.exp(c));
    forall i | 0 <= i < |x| ensures shiftedExps[i] == scaled[i] {
      assert ExpAddsAt(t, x[i], c);
    }
  }

  /** Adding the same constant to every finite input leaves softmax unchanged. */
  lemma SoftmaxShiftInvariant(t: Transcendentals, x: seq<real>, c: real)
    requires Valid(t)
    ensures Softmax(t, Finites(Shifted(x, c))) == Softmax(t, Finites(x))
  {
    ExpsOfShifted(t, x, c);
    ExpsNonNegative(t, Finites(x));
    NormalizeScaleInvariant(Exps(t, Finites(x)), t.exp(c));
  }

  // ---------------------------------------------------------------------
  // Positional encoding

  /** The angle a pair 2k, 2k + 1 of dimensions shares: pos / 10000^(2k / dim). */
  function Angle(t: Transcendentals, pos: nat, k: nat, dim: nat): real
    requires Valid(t) && dim > 0
  {
    pos as real / t.pow(10000.0, (2 * k) as real / dim as real)
  }

  /** The sinusoidal encoding of section 3.5 of "Attention Is All You Need":
      sine at even dimension 2k and cosine at odd dimension 2k + 1, of the
      same angle. */
  function SinusoidalEncoding(t: Transcendentals, pos: nat, dim: nat): (pe: seq<real>)
    requires Valid(t)
    ensures |pe| == dim
  {
    seq(dim, i requires 0 <= i < dim =>
      if i % 2 == 0 then t.sin(Angle(t, pos, i / 2, dim)) else t.cos(Angle(t, pos, i / 2, dim)))
  }

  /** `getPositionalEncoding`: fills a fresh array of `dim` entries in a loop. */
  method PositionalEncoding(t: Transcendentals, pos: nat, dim: nat) returns (pe: seq<real>)
    requires Valid(t)
    ensures |pe| == dim
    ensures forall k :: 0 <= 2 * k < dim ==> pe[2 * k] == t.sin(Angle(t, pos, k, dim))
    ensures forall k :: 0 <= 2 * k + 1 < dim ==> pe[2 * k + 1] == t.cos(Angle(t, pos, k, dim))
    ensures pe == SinusoidalEncoding(t, pos, dim)
  {
    var a := new real[dim];
    var i := 0;
    while i < dim
      invariant 0 <= i <= dim
      invariant forall j :: 0 <= j < i ==> a[j] == SinusoidalEncoding(t, pos, dim)[j]
    {
      var angle := pos as real / t.pow(10000.0, (2 * (i / 2)) as real / dim as real);
      a[i] := if i % 2 == 0 then t.sin(angle) else t.cos(angle);
      i := i + 1;
    }
    pe := a[..];
    assert pe == SinusoidalEncoding(t, pos, dim);
    SinusoidalPairs(t, pos, dim);
  }

  /** Dimensions 2k and 2k + 1 hold the sine and the cosine of the same angle. */
  lemma SinusoidalPairs(t: Transcendentals, pos: nat, dim: nat)
    requires Valid(t)
    ensures var pe := SinusoidalEncoding(t, pos, dim);
      && (forall k :: 0 <= 2 * k < dim ==> pe[2 * k] == t.sin(Angle(t, pos, k, dim)))
      && (forall k :: 0 <= 2 * k + 1 < dim ==> pe[2 * k + 1] == t.cos(Angle(t, pos, k, dim)))
  {
    SinusoidalSines(t, pos, dim);
    SinusoidalCosines(t, pos, dim);
  }

  /** The even half of `SinusoidalPairs`. */
  lemma SinusoidalSines(t: Transcendentals, pos: nat, dim: nat)
    requires Valid(t)
    ensures var pe := SinusoidalEncoding(t, pos, dim);
      forall k :: 0 <= 2 * k < dim ==> pe[2 * k] == t.sin(Angle(t, pos, k, dim))
  {
    var pe := SinusoidalEncoding(t, pos, dim);
    forall k | 0 <= 2 * k < dim ensures pe[2 * k] == t.sin(Angle(t, pos, k, dim)) {
      var i := 2 * k;
      assert i / 2 == k && i % 2 == 0;
      assert pe[i] == t.sin(Angle(t, pos, i / 2, dim));
    }
  }

  /** The odd half of `SinusoidalPairs`. */
  lemma SinusoidalCosines(t: Transcendentals, pos: nat, dim: nat)
    requires Valid(t)
    ensures var pe := SinusoidalEncoding(t, pos, dim);
      forall k :: 0 <= 2 * k + 1 < dim ==> pe[2 * k + 1] == t.cos(Angle(t, pos, k, dim))
  {
    var pe := SinusoidalEncoding(t, pos, dim);
    forall k | 0 <= 2 * k + 1 < dim ensures pe[2 * k + 1] == t.cos(Angle(t, pos, k, dim)) {
      var i := 2 * k + 1;
      assert i / 2 == k && i % 2 == 1;
      assert pe[i] == t.cos(Angle(t, pos, i / 2, dim));
    }
  }

  /** At position 0 every even entry is sin(0) = 0 and every odd one cos(0) = 1. */
  lemma SinusoidalAtOrigin(t: Transcendentals, dim: nat)
    requires Valid(t)
    ensures forall i :: 0 <= i < dim ==> SinusoidalEncoding(t, 0, dim)[i] == if i % 2 == 0 then 0.0 else 1.0
  {
    forall i | 0 <= i < dim ensures Angle(t, 0, i / 2, dim) == 0.0 {
    }
  }

  /** Every entry of the encoding is a sine or a cosine, so it lies in
      [-1, 1] by the bounds `Valid` assumes of them. */
  lemma SinusoidalBounded(t: Transcendentals, pos: nat, dim: nat)
    requires Valid(t)
    ensures forall i :: 0 <= i < dim ==> -1.0 <= SinusoidalEncoding(t, pos, dim)[i] <= 1.0
  {
  }
}
