/**
 * Client code for `SobolIndicesStochasticProcessAlgorithm`, written against the class's
 * contracts alone: what a caller can conclude about memoisation, the missing-sample assertion
 * and the worked example of a two-row-block design.
 */
module Scenarios {
  import opened Wrappers
  import opened Naming
  import opened StochasticProcessSensitivityIndices

  /**
   * First-order indices, then a change of method, then total-order indices and first-order
   * indices again: the engine is called once, with the method given at construction, and both
   * kinds of indices come from that one call.
   */
  method MemoisedAcrossAccessors(design: Design, n: int, engine: Engine, e: Estimates, other: string)
    returns (first: Result<seq<real>, Error>, total: Result<seq<real>, Error>,
             again: Result<seq<real>, Error>, ghost calls: nat)
    requires n != 0
    requires engine(design, n, DefaultMethod) == Returned(e)
    ensures first == Ok(e.firstOrder) && again == Ok(e.firstOrder)
    ensures total == Ok(e.totalOrder)
    ensures calls == 1
  {
    var alg := new SobolIndicesStochasticProcessAlgorithm(design, n, DefaultMethod, engine);
    first := alg.GetFirstOrderIndices();
    alg.SetMethod(other);
    total := alg.GetTotalOrderIndices();
    again := alg.GetFirstOrderIndices();
    calls := alg.engineCalls;
  }

  /**
   * An engine that raises leaves the cache empty and the exception reaches the caller; the next
   * demand calls the engine again.
   */
  method EngineFailureIsRetried(design: Design, n: int, engine: Engine, reason: string)
    returns (first: Result<seq<real>, Error>, second: Result<seq<real>, Error>, ghost calls: nat)
    requires n != 0
    requires engine(design, n, DefaultMethod) == Raised(reason)
    ensures first == Err(EngineFailure(reason)) && second == Err(EngineFailure(reason))
    ensures calls == 2
  {
    var alg := new SobolIndicesStochasticProcessAlgorithm(design, n, DefaultMethod, engine);
    first := alg.GetFirstOrderIndices();
    second := alg.GetTotalOrderIndices();
    calls := alg.engineCalls;
  }

  /** Without an output design every accessor fails its assertion and the engine is not called. */
  method MissingSample(design: Design, n: int, engine: Engine, sqrt: real -> real, quantile: Quantile)
    returns (first: Result<seq<real>, Error>, interval: Result<seq<real>, Error>, ghost calls: nat)
    requires n != 0
    ensures first == Err(NoSample) && interval == Err(NoSample)
    ensures calls == 0
  {
    var alg := new SobolIndicesStochasticProcessAlgorithm(design, n, DefaultMethod, engine);
    alg.outputDesign := None;
    first := alg.GetFirstOrderIndices();
    interval := alg.GetTotalorderIndicesInterval(sqrt, quantile);
    calls := alg.engineCalls;
  }

  /**
   * Setting the dimension keeps the names inferred at construction; changing the confidence
   * level after the first computation still changes the interval, which is recomputed from the
   * cached variance each time.
   */
  method SettersAfterComputation(design: Design, n: int, engine: Engine, e: Estimates,
                                 sqrt: real -> real, quantile: Quantile, level: real, d: int)
    returns (names: seq<string>, before: Result<seq<real>, Error>, after: Result<seq<real>, Error>)
    requires n != 0
    requires engine(design, n, DefaultMethod) == Returned(e)
    requires quantile(DefaultConfidenceLevel).Ok? && quantile(level).Ok?
    ensures names == DefaultDescription(ImplicitDimension(|design|, n))
    ensures before == Ok(HalfWidths(e.varFirstOrder, quantile(DefaultConfidenceLevel).value, sqrt))
    ensures after == Ok(HalfWidths(e.varFirstOrder, quantile(level).value, sqrt))
  {
    var alg := new SobolIndicesStochasticProcessAlgorithm(design, n, DefaultMethod, engine);
    before := alg.GetFirstOrderIndicesInterval(sqrt, quantile);
    alg.SetDimension(d);
    alg.SetConfidenceLevel(level);
    names := alg.GetInputDescription();
    after := alg.GetFirstOrderIndicesInterval(sqrt, quantile);
  }

  /**
   * A design of four rows with N = 2: dimension int(4 / 2) - 2 = 0 and no default names (six
   * rows would be needed for dimension 1); a stub engine
   * returning ([0.5], [0.6], [0.01], [0.02]) and a quantile of 1.96 at level 0.975 give
   * first-order indices [0.5] and a first-order half-width of 0.1 * 1.96 = 0.196.
   */
  method WorkedExample(sqrt: real -> real, quantile: Quantile)
    returns (dim: int, names: seq<string>, first: Result<seq<real>, Error>,
             halfWidth: Result<seq<real>, Error>)
    requires sqrt(0.01) == 0.1 && quantile(0.975) == Ok(1.96)
    ensures dim == 0 && names == []
    ensures first == Ok([0.5])
    ensures halfWidth == Ok([0.196])
  {
    var design: Design := [[1.0], [2.0], [3.0], [4.0]];
    var stub: Engine := (d, n, m) => Returned(Estimates([0.5], [0.6], [0.01], [0.02]));
    var alg := new SobolIndicesStochasticProcessAlgorithm(design, 2, DefaultMethod, stub);
    dim := alg.dim;
    assert dim == 0 by { DimensionOfExactLayout(2, 0); }
    names := alg.GetInputDescription();
    first := alg.GetFirstOrderIndices();
    halfWidth := alg.GetFirstOrderIndicesInterval(sqrt, quantile);
    assert HalfWidths([0.01], 1.96, sqrt) == [0.196];
  }

  /**
   * A confidence level the quantile routine rejects: the interval accessor fills the cache first,
   * then fails with the routine's exception; the indices are then served from the filled cache
   * without a second engine call.
   */
  method QuantileFailureAfterFill(design: Design, n: int, engine: Engine, e: Estimates,
                                  sqrt: real -> real, quantile: Quantile, level: real, reason: string)
    returns (interval: Result<seq<real>, Error>, total: Result<seq<real>, Error>, ghost calls: nat)
    requires n != 0
    requires engine(design, n, DefaultMethod) == Returned(e)
    requires quantile(level) == Err(reason)
    ensures interval == Err(QuantileFailure(reason))
    ensures total == Ok(e.totalOrder)
    ensures calls == 1
  {
    var alg := new SobolIndicesStochasticProcessAlgorithm(design, n, DefaultMethod, engine);
    alg.SetConfidenceLevel(level);
    interval := alg.GetTotalorderIndicesInterval(sqrt, quantile);
    total := alg.GetTotalOrderIndices();
    calls := alg.engineCalls;
  }

  /** `setInputDescription` with a single name and with a list of names. */
  method CoercedDescriptions(design: Design, n: int, engine: Engine, name: string, list: seq<string>)
    returns (single: seq<string>, many: seq<string>)
    requires n != 0
    ensures single == [name]
    ensures many == list
  {
    var alg := new SobolIndicesStochasticProcessAlgorithm(design, n, DefaultMethod, engine);
    alg.SetInputDescription(Single(name));
    single := alg.GetInputDescription();
    alg.SetInputDescription(Many(list));
    many := alg.GetInputDescription();
  }
}
