# Sobol indices for stochastic-process outputs: the results cache

This project models `SobolIndicesStochasticProcessAlgorithm` from
`StochasticProcessSensitivityIndices.py`. The class wraps an external Sobol engine.
It is given an output design, laid out as [A rows][B rows][dim cross-sample blocks] of N rows
each, together with the sample size N and an estimation method ("Saltelli" by default).
The model covers the logic the class owns:

- the dimension it infers from the design, `int(rows / N) - 2`;
- the default variable names `X0 .. X(dim-1)`;
- a lazy cache. The four engine results (first-order indices, total-order indices and their two
  variances) are filled together on first demand and are never recomputed, even after
  `setMethod`;
- the assertion that an output design is present;
- the coercion of a single name or a list of names into the input description;
- the plain setters and getters, each of which changes only its own field.

Files:

- `wrappers.dfy`: `Option` and `Result`. They stand in for Python's `None` and for raised exceptions.
- `naming.dfy` (module `Naming`): the pure pieces. These are truncating division, the inferred
  dimension, the decimal form of an index with its parser, the default names and name coercion.
- `algorithm.dfy` (module `StochasticProcessSensitivityIndices`): the class. It has four
  `Option` cache fields and an invariant `Valid()`: the four fields are all absent or all present.
  A ghost view `Cache()` gives the two states, `Uncomputed` and `Computed(estimates)`. Two ghost
  counters record the engine calls and how many of them raised. The predicate `Demanded`
  describes one demand for the cache. From `Computed`, the cache is served unchanged and no call
  is made. From `Uncomputed`, exactly one engine call is made with the current
  (outputDesign, sampleSize, method). Its results fill the cache, or its exception leaves the
  cache empty and reaches the caller.
- `scenarios.dfy` (module `Scenarios`): client methods. They use only the class's contracts and
  derive the memoisation, retry, missing-sample and setter behaviour from them, along with a
  worked example.

The engine is a collaborator whose code is not part of this model. It is a function value of
type `Engine`, from (design, N, method) to `Returned(estimates)` or `Raised(reason)`. The
instance receives it at construction. In the original it is one object shared at class level.
The square root and the standard normal quantile used for interval half-widths are also
function values, passed to the two interval accessors. The quantile returns its value or the
exception it raises, for a confidence level it rejects, and that exception reaches the caller
after the cache has been filled.

Four rows with N = 2 give dimension `int(4 / 2) - 2 = 0` (`Scenarios.WorkedExample`); dimension 1
needs six rows (`Naming.DimensionOfExactLayout`).

## Model

| member | source | states |
|---|---|---|
| `Naming.TruncatedQuotient` | StochasticProcessSensitivityIndices.py:13 | `int(rows / N)` truncates toward zero: for N > 0 it is the q >= 0 with N·q <= rows < N·(q+1); for N < 0 it is -q' where abs(N)·q' <= rows < abs(N)·(q'+1) |
| `Naming.ImplicitDimension` | StochasticProcessSensitivityIndices.py:13 | for N > 0 the dimension d >= -2 satisfies N·(d+2) <= rows < N·(d+3); fewer than 2N rows give a negative dimension, accepted without a check; N < 0 gives d <= -2 |
| `Naming.DimensionOfExactLayout` | StochasticProcessSensitivityIndices.py:13 | a design of exactly N·(d+2) rows (A, B and d cross-sample blocks) has inferred dimension d |
| `Naming.Decimal` | StochasticProcessSensitivityIndices.py:18 | `str(i)` is a non-empty string of decimal digits with no leading zero except for "0" itself |
| `Naming.ParseDecimalOfDecimal` | StochasticProcessSensitivityIndices.py:18 | round trip: reading the decimal form of i gives back i |
| `Naming.DecimalInjective` | StochasticProcessSensitivityIndices.py:18 | distinct indices have distinct decimal forms |
| `Naming.VariableName` | StochasticProcessSensitivityIndices.py:18 | the name of variable i starts with 'X', and the rest is the decimal form of i |
| `Naming.DefaultDescription` | StochasticProcessSensitivityIndices.py:18 | the default description has max(dim, 0) entries, and entry i is the name of variable i, in increasing order |
| `Naming.DefaultNameReadsBack` | StochasticProcessSensitivityIndices.py:18 | each default name is 'X' followed by digits that parse back to the name's own position |
| `Naming.DefaultNamesDistinct` | StochasticProcessSensitivityIndices.py:18 | the default names are pairwise distinct |
| `Naming.Coerce` | StochasticProcessSensitivityIndices.py:34-38 | a single name becomes the one-entry description holding that name; a list is kept entry for entry, in order |
| `StochasticProcessSensitivityIndices.SobolIndicesStochasticProcessAlgorithm.constructor` | StochasticProcessSensitivityIndices.py:8-27 | stores design, N and method; dimension is the inferred one; names are the defaults for it; confidence level 0.975; the cache is Uncomputed with no engine call made; requires N != 0 (N = 0 raises a division error at line 13) |
| `StochasticProcessSensitivityIndices.SobolIndicesStochasticProcessAlgorithm.RunAlgorithm` | StochasticProcessSensitivityIndices.py:30-32 | calls the engine only when all four cache fields are absent, and then exactly once with the current (design, N, method); the cache afterwards is exactly the engine's result, or still empty when it raised; a Computed cache is left unchanged; only the cache fields and counters change; the all-or-none invariant is kept |
| `StochasticProcessSensitivityIndices.SobolIndicesStochasticProcessAlgorithm.Prepare` | StochasticProcessSensitivityIndices.py:54-55 | without a design: NoSample, no engine call, no change; otherwise one demand for the cache; Ok exactly when the cache is Computed afterwards, holding its estimates |
| `StochasticProcessSensitivityIndices.SobolIndicesStochasticProcessAlgorithm.SetInputDescription` | StochasticProcessSensitivityIndices.py:34-38 | the description becomes the coerced argument; nothing else changes |
| `StochasticProcessSensitivityIndices.SobolIndicesStochasticProcessAlgorithm.GetInputDescription` | StochasticProcessSensitivityIndices.py:40-41 | returns the description last stored by the constructor or by SetInputDescription |
| `StochasticProcessSensitivityIndices.SobolIndicesStochasticProcessAlgorithm.SetMethod` | StochasticProcessSensitivityIndices.py:43-44 | changes only the method; the cache is untouched, so a Computed cache keeps the results of the earlier method |
| `StochasticProcessSensitivityIndices.SobolIndicesStochasticProcessAlgorithm.GetMethod` | StochasticProcessSensitivityIndices.py:46-47 | returns the method last stored |
| `StochasticProcessSensitivityIndices.SobolIndicesStochasticProcessAlgorithm.GetFirstOrderIndices` | StochasticProcessSensitivityIndices.py:53-56 | without a design: the "You need a sample to work on" error, with no engine call and no change; otherwise one demand for the cache, then component 1 of the cached results, or the engine's exception |
| `StochasticProcessSensitivityIndices.SobolIndicesStochasticProcessAlgorithm.GetTotalOrderIndices` | StochasticProcessSensitivityIndices.py:58-61 | as for first-order indices, returning component 2 of the same cached engine result |
| `StochasticProcessSensitivityIndices.SobolIndicesStochasticProcessAlgorithm.GetFirstOrderIndicesInterval` | StochasticProcessSensitivityIndices.py:63-68 | triggers the same one-shot fill; then, if the quantile of the current confidence level exists, returns sqrt(variance) × that quantile element by element over the cached first-order variance, and otherwise the quantile routine's exception, with the cache left filled; Ok exactly when a design is present, the cache is Computed and the quantile exists |
| `StochasticProcessSensitivityIndices.SobolIndicesStochasticProcessAlgorithm.GetTotalorderIndicesInterval` | StochasticProcessSensitivityIndices.py:70-75 | the same for the cached total-order variance, including the quantile exception after the fill; the name keeps the original's spelling |
| `StochasticProcessSensitivityIndices.SobolIndicesStochasticProcessAlgorithm.SetDimension` | StochasticProcessSensitivityIndices.py:77-81 | changes only the dimension; the description is not regenerated and the cache is untouched |
| `StochasticProcessSensitivityIndices.SobolIndicesStochasticProcessAlgorithm.SetConfidenceLevel` | StochasticProcessSensitivityIndices.py:83-87 | changes only the confidence level |
| `StochasticProcessSensitivityIndices.SobolIndicesStochasticProcessAlgorithm.GetConfidenceLevel` | StochasticProcessSensitivityIndices.py:89-90 | returns the level last stored (0.975 until set) |
| `StochasticProcessSensitivityIndices.HalfWidths` | StochasticProcessSensitivityIndices.py:66 | one half-width per variance entry, sqrt(v) times the quantile |
| `StochasticProcessSensitivityIndices.AtMostOneSuccessfulCall` | StochasticProcessSensitivityIndices.py:30-32 | under the invariant, at most one engine call has returned over the instance's lifetime; with an engine that never raises, the engine is called at most once; the cache is Computed exactly when one call returned |
| `Scenarios.MemoisedAcrossAccessors` | StochasticProcessSensitivityIndices.py:53-61 | first-order, then setMethod, then total-order and first-order again: one engine call, made with the construction-time method, and both index kinds come from it |
| `Scenarios.EngineFailureIsRetried` | StochasticProcessSensitivityIndices.py:30-32 | an engine exception reaches the caller and leaves the cache empty, so the next accessor calls the engine again |
| `Scenarios.MissingSample` | StochasticProcessSensitivityIndices.py:53-75 | with the design set to None, the accessors fail their assertion and the engine is never called |
| `Scenarios.SettersAfterComputation` | StochasticProcessSensitivityIndices.py:63-90 | setDimension keeps the inferred names; a confidence level set after the first computation still changes the interval, which is recomputed from the cached variance |
| `Scenarios.WorkedExample` | StochasticProcessSensitivityIndices.py:8-68 | four rows with N = 2 give dimension 0 and no names; a stub engine returning ([0.5],[0.6],[0.01],[0.02]) and a quantile of 1.96 give indices [0.5] and half-width [0.196] |
| `Scenarios.QuantileFailureAfterFill` | StochasticProcessSensitivityIndices.py:70-75 | a confidence level the quantile rejects (setConfidenceLevel accepts any value): the interval accessor fails with the quantile's exception after filling the cache, and the total-order indices are then served from that cache with one engine call in all |
| `Scenarios.CoercedDescriptions` | StochasticProcessSensitivityIndices.py:34-41 | after setInputDescription, a single name reads back as [name] and a list reads back unchanged |

## Left out

- `draw`: plotting through an external routine. It reads `_FirstOrderIndices` before its first interval call fills the cache, so on first use it passes `None` for the first-order indices; the total-order indices are read after that fill.
- The console diagnostics printed by the constructor and by the interval accessors.
- The initialisation of the framework base class (`openturns.SobolIndicesAlgorithmImplementation`). The model does not rely on anything it sets up.
- `openturns.Description` is modelled as `seq<string>`, and the output design as a sequence of rows of reals. Only the row count is read.
- The engine, `numpy.sqrt` and the standard normal quantile are foreign code. They appear as function values supplied by the caller. Their floating-point behaviour is not modelled; reals stand in for floats.
- `Naming.ImplicitDimension`: computes `rows / N` exactly, not as a float. Past 2^53 rows the float quotient can land on a neighbouring integer, above or below the exact one, before the truncation; that rounding is not modelled.
- An engine result that is not a 4-tuple, or that has `None` components, is not modelled. Every `Returned` outcome carries four sequences.
- The engine is given to each instance at construction rather than held as a class attribute. The model cannot observe sharing, because its engine is a pure function; whether the original engine object keeps state between calls is not visible in the source.
- Python default arguments (`method='Saltelli'`, `confidenceLevel=0.975`) are modelled as the constants `DefaultMethod` and `DefaultConfidenceLevel`, which callers pass explicitly.
- Assertions removed by running Python with optimisation (`-O`) are not modelled. The missing-design check always applies.
- `setInputDescription` tells a single name from a list by `type(names) is str`. The model represents that choice with the `Names` datatype, so how the original treats a subclass of `str` is not modelled.
- A negative N is handled with truncation toward zero as in the original. A zero N is excluded by the constructor's precondition, because the original raises a division error there.
- Reference semantics are not modelled. The original keeps the output design by reference and returns the cached arrays and the `Description` object themselves, so a caller who changes one of them in place changes what later accessors return or what the engine receives. The model holds these as sequence values, which cannot be aliased.
- The engine is modelled as a deterministic function of (design, N, method). A retry with the same arguments therefore raises again, which is why `Scenarios.EngineFailureIsRetried` sees the same exception twice. The real engine may succeed on a retry (for example after running out of memory once).
- A `None` design at construction is not modelled. The constructor takes a design, while the original fails at line 13 on `None.shape`. The missing-sample error is therefore reachable only by clearing `outputDesign` after construction, as `Scenarios.MissingSample` does.
