# Transformer visualizer — the numeric and state core

The visualizer is an interactive tutorial. It walks through a 22-step
explanation of the Transformer architecture, using a twelve-word
demonstration sentence ("The king and the queen quarrel as well as uncle and
aunt"). This project models the part of it that computes or keeps state:

- the constants module: dot products, matrix–vector products, the
  softmax, the sinusoidal positional encoding, the two embedding tables,
  the three initial attention heads and the initial tokens;
- the application shell: the initial state, the fixed order of the steps,
  the clamped Next / Prev stepper, the disabled buttons, the progress bar
  and the single-cell weight editor;
- the attention panel: the first four tokens are projected through a
  head's query, key and value matrices. The scores of later positions are
  masked with -Infinity. The other scores are scaled by 1/√4 and
  normalised by softmax. A timer and the user's clicks move the active
  position;
- the softmax stage's worked example (max-shifted, halved exponentials)
  and its raw → exp → prob display cycle.

Modules:

- `Numerics`: reals for JavaScript numbers. It also holds
  `Transcendentals`, which carries Math.exp, sin, cos and pow as a value
  constrained only by the facts in `Valid`. It also holds the left-fold
  `Sum`.
- `Types`: the records and the `Step` enumeration.
- `Constants`: the constants module.
- `App`: the application shell, with the class `TransformerApp`.
- `AttentionHead`: the attention panel, with the class `Controller`.
- `SoftmaxStage`: the softmax stage, with the class `SoftmaxDemo`.

Every call to `Math.random()` becomes a parameter drawn from [0, 1). The
one square root the core takes, √4, is exact.

Softmax in the constants module is modelled as written. It exponentiates
the raw inputs with no subtraction of the maximum.
`Constants.SoftmaxShiftInvariant` proves that over the reals such a shift
would not change the result. Only the softmax stage's worked example
subtracts the maximum; its comment at
`components/stages/SoftmaxStage.tsx:17` calls it a numerical-stability
demo. `SoftmaxStage.DemoProbsAreSoftmax` proves that the example agrees
with the library softmax of the halved scores.

## Model

| member | source | states |
|---|---|---|
| Types.WithMatrixSpec | App.tsx:110 | Replacing one weight matrix of a head by a square matrix of the same size keeps the head square. The new matrix is in place. The other two matrices, the id, the name and the colour are unchanged. |
| Constants.GenerateMatrix | constants.ts:7-10 | `generateMatrix(rows, cols)` has `rows` rows of `cols` entries, each in [-1, 1). |
| Constants.RandomEmbeddingTable | constants.ts:13-18 | The random table has one row per sentence word (12), each of 4 entries in [-0.8, 0.8). |
| Constants.TrainedEmbedding | constants.ts:29-49 | Every curated embedding, whichever branch produces it, has 4 components. |
| Constants.TrainedEmbeddingTable | constants.ts:29-49 | The curated table has 12 rows of 4 components. |
| Constants.TrainedAnalogy | constants.ts:24-38 | On the first three components, king − queen and uncle − aunt are both 2·GENDER_DIRECTION. The fourth components differ by 1.0 and by 0.8. |
| Constants.TrainedNeutralWords | constants.ts:41-43 | "the", "and", "as" and "well" lie within 0.075 of NEUTRAL_CENTER on the first three components, and their fourth component is 0. |
| Constants.InitialHeads | constants.ts:51-76 | There are three heads with ids 0, 1 and 2 and their names and colours. Wq, Wk and Wv are 4×4 with entries in [-1, 1). |
| Constants.DecimalInjective | constants.ts:79 | Distinct indices render as distinct numerals in the token id. |
| Constants.InitialTokens | constants.ts:78-82 | There is one token per sentence word. |
| Constants.InitialTokensSpec | constants.ts:78-82 | Token i carries word i and row i of the table, and no two tokens share an id. |
| Numerics.Sum | constants.ts:92 | The `reduce((a, b) => a + b, 0)` sum, folded from the left as `reduce` does (also `sumExp` at components/stages/SoftmaxStage.tsx:18). The definition has no contract; its properties are the Numerics lemmas used by the softmax proofs. |
| Constants.ToLower | constants.ts:30 | `toLowerCase` on ASCII: same length, no capital letter left, and every other character kept. |
| Constants.Decimal | constants.ts:79 | The numeral the template literal `token-${i}` renders: one or more decimal digits, at least two from 10 on, and no leading zero. |
| Constants.Dot | constants.ts:84-85 | The fold `acc + val * v2[i]` over the indices of `v1` equals the sum over all indices of a[i]·b[i]. |
| Constants.DotCommutes | constants.ts:84-85 | For vectors of equal length, `dotProduct(a, b) == dotProduct(b, a)`. |
| Constants.DotUnit | constants.ts:84-85 | The dot product with the k-th unit row picks out component k. |
| Constants.MatVec | constants.ts:87-88 | `matrixVectorMul` gives one entry per row of the matrix. |
| Constants.MatVecIdentity | constants.ts:87-88 | Multiplying by the identity matrix returns the vector unchanged. |
| Constants.Normalize | constants.ts:92-93 | Normalising keeps the length. |
| Constants.Softmax | constants.ts:90-94 | `softmax` returns one number per input. |
| Constants.ExpOf | constants.ts:91 | `Math.exp` of one score: ≥ 0, and positive exactly for a finite score; `exp(-Infinity)` is 0. |
| Constants.Exps | constants.ts:91 | `arr.map(x => Math.exp(x))`: one exponential per input. |
| Constants.ExpsNonNegative | constants.ts:91 | Every exponential is ≥ 0. It is positive exactly at the finite inputs; -Infinity maps to 0. |
| Constants.SoftmaxIsDistribution | constants.ts:90-94 | With one finite input present, every weight is finite and ≥ 0. A weight is exactly 0 iff its input is -Infinity, and the weights sum to 1. |
| Constants.SoftmaxAllMasked | constants.ts:90-94 | With no finite input, the sum is 0 and every weight is NaN (0 / 0). |
| Constants.NormalizeScaleInvariant | constants.ts:92-93 | Scaling all non-negative terms by a positive factor leaves the normalised values unchanged. |
| Constants.ExpsOfShifted | constants.ts:91 | Adding c to every input multiplies every exponential by exp(c). |
| Constants.SoftmaxShiftInvariant | constants.ts:90-94 | Adding the same constant to every finite input leaves softmax unchanged. |
| Constants.SinusoidalEncoding | constants.ts:96-103 | The encoding has `dim` entries. |
| Constants.PositionalEncoding | constants.ts:96-103 | The loop fills exactly `dim` entries. Entry 2k is the sine and entry 2k+1 the cosine of the same angle pos / 10000^(2k/dim). The result equals the sinusoidal encoding. |
| Constants.SinusoidalPairs | constants.ts:99-100 | Dimensions 2k and 2k+1 hold the sine and the cosine of the same angle. |
| Constants.SinusoidalAtOrigin | constants.ts:98-101 | At position 0, even entries are 0 and odd entries are 1. |
| Constants.SinusoidalBounded | constants.ts:101 | Every entry is a sine or a cosine, so it lies in [-1, 1]; the bound itself is assumed of `Math.sin` and `Math.cos` in `Numerics.Valid`. |
| App.IndexOf | App.tsx:90 | `indexOf` returns -1 exactly when the step is absent. Otherwise it returns the first position holding the step. |
| App.StepsOrderEnumerates | App.tsx:59-82 | `stepsOrder` has 22 entries and starts at INPUT and ends at FORMULA. It lists every step, in declaration order. |
| App.StepsOrderDistinct | App.tsx:59-82 | No step appears twice in `stepsOrder`. |
| App.IndexOfIsOrdinal | App.tsx:90 | `stepsOrder.indexOf(s)` is never -1: it is s's position in the enumeration. |
| App.SuccessorMoves | App.tsx:89-94 | Next moves exactly one place forward, and is a no-op exactly at FORMULA. |
| App.PredecessorMoves | App.tsx:96-101 | Prev moves exactly one place back, and is a no-op exactly at INPUT. |
| App.NextPrevRoundTrip | App.tsx:89-101 | Away from the ends, Prev after Next, and Next after Prev, return to the original step. |
| App.AdvanceLands | App.tsx:89-94 | n presses of Next move n places forward, clamped at FORMULA. |
| App.TwentyOneStepsReachFormula | App.tsx:89-94 | 21 presses of Next from INPUT reach FORMULA, and a further press changes nothing. |
| App.PrevDisabled | App.tsx:186 | The Prev button is disabled (at INPUT) exactly where Prev would change nothing. |
| App.NextDisabled | App.tsx:209 | The Next button is disabled (at FORMULA) exactly where Next would change nothing. |
| App.ProgressBar | App.tsx:196-203 | One segment per step, lit when `indexOf(currentStep) >= i`. The first segment is always lit. |
| App.CountThreshold | App.tsx:200 | A bar whose segment i is lit iff i ≤ m lights min(m + 1, length) segments. |
| App.ProgressBarIsPrefix | App.tsx:196-203 | The lit segments form a prefix of the bar: every segment before a lit one is lit. |
| App.ProgressBarLights | App.tsx:196-203 | The progress bar has 22 segments. Segment i is lit iff i ≤ the current step's index, so index + 1 segments are lit. |
| App.TransformerApp.constructor | App.tsx:49-57 | The initial state is INPUT, INITIAL_TOKENS, head 0 active, math mode off, INITIAL_HEADS and the menu closed. The state invariant holds. |
| App.TransformerApp.SetStep | App.tsx:84-87 | `setStep(s)` sets the step to s for any s, changes no other field, and closes the menu. |
| App.TransformerApp.NextStep | App.tsx:89-94 | The step becomes its successor. Nothing changes at FORMULA. No other field changes, and the menu closes only when a move happens. |
| App.TransformerApp.PrevStep | App.tsx:96-101 | The step becomes its predecessor. Nothing changes at INPUT. No other field changes, and the menu closes only when a move happens. |
| App.TransformerApp.UpdateWeight | App.tsx:103-113 | Only `heads[h][key][r][c]` changes, and it becomes the value. Every other cell, the other two matrices, the head's id, name and colour, the other heads and the non-head fields are unchanged. Every matrix stays 4×4. |
| AttentionHead.SqrtVectorDimIsExact | components/AttentionHead.tsx:56 | √VECTOR_DIM is exactly 2. |
| AttentionHead.DemoTokens | components/AttentionHead.tsx:29 | The demo tokens are the first min(4, number of tokens) tokens. |
| AttentionHead.Projections | components/AttentionHead.tsx:41-47 | There is one projection per demo token, and q, k and v each have 4 components. |
| AttentionHead.MaskedScores | components/AttentionHead.tsx:50-58 | There is one score per demo token. |
| AttentionHead.BuildScores | components/AttentionHead.tsx:50-58 | The push loop builds exactly the masked scores: -Infinity after the active position, and the scaled dot product up to and including it. |
| AttentionHead.ActiveScores | components/AttentionHead.tsx:49-60 | The loop builds the masked, scaled scores, and their softmax is a distribution. Weights are 0 after the active position and positive up to and including it. They sum to 1, so the active position always attends to itself. |
| AttentionHead.ValuesNeverScored | components/AttentionHead.tsx:55-56 | The scores depend only on the queries and keys: changing the value vectors changes no score. |
| AttentionHead.MaskedWeights | components/AttentionHead.tsx:49-60 | The softmax of the masked scores: every weight is a number, weights after the active position are 0, weights up to and including it are positive, and they sum to 1. |
| AttentionHead.FirstPositionAttendsOnlyToItself | components/AttentionHead.tsx:49-60 | With active position 0, the weights are [1, 0, 0, …]. |
| AttentionHead.IdentityHeadScores | components/AttentionHead.tsx:41-56 | With identity weights, q = k = v = the embedding. An unmasked score is the dot product of the two embeddings divided by 2. |
| AttentionHead.IsSourceActive | components/AttentionHead.tsx:94 | The `isActive={i <= activeIdx}` test is the exact complement of the mask test `j > activeIdx` at line 52 of the same file. |
| AttentionHead.SourceActiveIffAttended | components/AttentionHead.tsx:94 | A source token is drawn active (i ≤ activeIdx; the pipes at lines 131 and 283 use the same test) exactly when its attention weight is positive. |
| AttentionHead.NextActive | components/AttentionHead.tsx:36 | A timer tick keeps the active position in range. |
| AttentionHead.NextActiveWraps | components/AttentionHead.tsx:36 | A tick moves to the next position, or wraps from the last one to 0. |
| AttentionHead.CycleShifts | components/AttentionHead.tsx:33-39 | k ≤ n ticks move the active position k places round the n demo tokens. |
| AttentionHead.CycleReturns | components/AttentionHead.tsx:33-39 | After n ticks the active position is back where it started, and not earlier. |
| AttentionHead.Controller.constructor | components/AttentionHead.tsx:30-31 | The controller starts at position 1, not paused. |
| AttentionHead.Controller.Tick | components/AttentionHead.tsx:33-39 | A tick advances the position modulo the number of demo tokens and keeps it in range. While paused it changes nothing. |
| AttentionHead.Controller.Select | components/AttentionHead.tsx:98 | Clicking token or bar i makes i the active position and pauses. |
| AttentionHead.Controller.TogglePause | components/AttentionHead.tsx:180 | The play/pause button flips `isPaused` and keeps the position. |
| SoftmaxStage.Max | components/stages/SoftmaxStage.tsx:16 | `Math.max` returns one of the scores, and no score exceeds it. |
| SoftmaxStage.ShiftedExponent | components/stages/SoftmaxStage.tsx:17 | The exponent `(s - max) / 2` is never positive, and it is 0 exactly at the entries holding the maximum. |
| SoftmaxStage.DemoExps | components/stages/SoftmaxStage.tsx:17 | There is one exponential per raw score. |
| SoftmaxStage.DemoExpsBounds | components/stages/SoftmaxStage.tsx:16-17 | Every shifted exponent (s − max)/2 is ≤ 0. Every exponential lies in (0, 1], and it is exactly 1 iff the score is the maximum. |
| SoftmaxStage.DemoSumPositive | components/stages/SoftmaxStage.tsx:18 | `sumExp` is positive for a non-empty score list. |
| SoftmaxStage.DemoProbs | components/stages/SoftmaxStage.tsx:19 | There is one probability per raw score. |
| SoftmaxStage.DemoProbsIsDistribution | components/stages/SoftmaxStage.tsx:18-19 | Every probability is > 0, and they sum to 1. |
| SoftmaxStage.DemoProbsOrdered | components/stages/SoftmaxStage.tsx:17-19 | raw[i] < raw[j] iff probs[i] < probs[j]. |
| SoftmaxStage.DemoProbsAreSoftmax | components/stages/SoftmaxStage.tsx:16-19 | The demo probabilities equal the library softmax of the halved scores: subtracting the maximum changes nothing. |
| SoftmaxStage.DemoMax | components/stages/SoftmaxStage.tsx:11-16 | `Math.max(...rawScores)` of the initial scores is 14.2, the first score. |
| SoftmaxStage.FirstScoreWins | components/stages/SoftmaxStage.tsx:12-19 | For [14.2, 11.5, 4.1, 8.8], the maximum is 14.2, its exponential is 1, and index 0 has the largest probability. |
| SoftmaxStage.NextPhase | components/stages/SoftmaxStage.tsx:23 | The interval's update (raw to exp, exp to prob, otherwise raw) always changes the phase. |
| SoftmaxStage.PhaseCycle | components/stages/SoftmaxStage.tsx:21-26 | The phase cycle has period exactly 3 and visits raw, exp and prob. |
| SoftmaxStage.TicksModThree | components/stages/SoftmaxStage.tsx:21-26 | After k ticks, the phase depends only on k mod 3. |
| SoftmaxStage.SoftmaxDemo.constructor | components/stages/SoftmaxStage.tsx:12-13 | The stage starts with the scores [14.2, 11.5, 4.1, 8.8] in the raw phase. |
| SoftmaxStage.SoftmaxDemo.Tick | components/stages/SoftmaxStage.tsx:21-26 | A tick advances raw → exp → prob → raw and keeps the scores. |

## Left out

- Rendering: JSX, animation, SVG geometry, CSS classes and the Three.js scenes are not modelled. They compute nothing the state depends on.
- Timers: the model has only the state change each interval tick makes. Interval lengths, `useEffect` lifetimes and cancellation are not modelled.
- Floating point: numbers are exact reals. Rounding, overflow, `toFixed` and the actual values of Math.exp, sin, cos and pow are not modelled. Only the facts listed in `Numerics.Valid` are used about them. So the analogy in the curated table holds exactly here, but only up to rounding in doubles.
- `Math.random()`: every draw is a parameter in [0, 1), so the random tables, the random heads and the neutral-word jitter are functions of their draws.
- Constants.ToLower: lowers ASCII letters only, which covers every word of the sentence. Full Unicode case mapping is not modelled.
- Constants.Dot: requires vectors of equal length, so two cases of `dotProduct` are not modelled. When the second vector is shorter, the fold reads past its end (undefined, giving NaN). When it is longer, its extra entries are ignored, because the fold runs over the indices of the first vector only (constants.ts:85). Every call in the modelled core passes two vectors of the same length.
- Constants.SoftmaxShiftInvariant: relies on exp(a + b) = exp(a)·exp(b), which holds for reals but only approximately in doubles.
- App.TransformerApp.UpdateWeight: requires in-range head index, row and column. This is a modelling choice, not a guarantee of the source. `updateWeight` has no caller: App.tsx:123 passes it to the attention head as `onWeightChange`, but components/AttentionHead.tsx:28 takes only `state` and `head`, and nothing calls `onWeightChange`. In the source an out-of-range head or row would throw, and an out-of-range column would grow the row.
- App.IndexOf: its -1 result is modelled. `App.IndexOfIsOrdinal` shows it is unreachable for `stepsOrder`, so NextStep and PrevStep never meet it.
- App.TransformerApp: the open/close menu button is a presentation control outside this model. Only the menu's closing by `setStep` is kept. `mathMode` is a constant: it is written once, as false, at App.tsx:53 and never changed, so the model keeps it as a field that no operation changes.
- AttentionHead.Controller.constructor: requires at least two demo tokens, because the initial position 1 does not exist otherwise. The source then fails in two different ways, which are not modelled. With one token, the loop at components/AttentionHead.tsx:51-56 reads `projections[1].q` for j = 0, and that throws because `projections[1]` is undefined. With no tokens the loop never runs, and the first tick sets `activeIdx` to `(1 + 1) % 0`, which is NaN. The demonstration sentence always yields four tokens.
- AttentionHead.ActiveScores: requires the active position to be a demo token, which the controller's invariant guarantees.
- The navigation menu, the vector playground, the heatmap, the tokenization view and every other stage are not modelled. They compute only display values (sine heights, clock frequencies, a cycling highlight), and no modelled state depends on them.
