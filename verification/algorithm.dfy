/**
 * `SobolIndicesStochasticProcessAlgorithm`: parameter bookkeeping and a one-shot cache over an
 * external Sobol engine. The engine, the square root and the standard normal quantile are
 * collaborators whose code is not part of this model; they are passed in as function values.
 */
module StochasticProcessSensitivityIndices {
  import opened Wrappers
  import opened Naming

  /** The output design: one row of model outputs per sample, [A][B][dim cross-sample blocks]. */
  type Design = seq<seq<real>>

  /** The four quantities the engine returns together. */
  datatype Estimates = Estimates(
    firstOrder: seq<real>,
    totalOrder: seq<real>,
    varFirstOrder: seq<real>,
    varTotalOrder: seq<real>)

  /** One call of the engine either returns its four results or raises an exception. */
  datatype EngineOutcome = Returned(estimates: Estimates) | Raised(reason: string)

  /** The external engine: (outputDesign, sampleSize, sobolMethod) to its outcome. */
  type Engine = (Design, int, string) -> EngineOutcome

  /** Why an accessor did not return a value. */
  datatype Error =
    | NoSample                    // "You need a sample to work on": no output design is present
    | EngineFailure(reason: string)  // the engine raised; the exception reaches the caller
    | QuantileFailure(reason: string)  // the normal quantile routine raised, after the cache fill

  /**
   * The standard normal quantile routine: a probability to its quantile, or the exception it
   * raises (for a level outside [0, 1], say, which setConfidenceLevel does not rule out).
   */
  type Quantile = real -> Result<real, string>

  const DefaultMethod := "Saltelli"
  const DefaultConfidenceLevel: real := 0.975

  /** The two states of the cache; Computed is never left. */
  datatype CacheState = Uncomputed | Computed(estimates: Estimates)

  /** The exception an accessor's result carries from the engine, if any. */
  function EngineReason<T>(r: Result<T, Error>): Option<string>
  {
    if r.Err? && r.error.EngineFailure? then Some(r.error.reason) else None
  }

  /** Half-widths of the symmetric confidence intervals: sqrt(variance) times the quantile z. */
  function HalfWidths(variance: seq<real>, z: real, sqrt: real -> real): (w: seq<real>)
    ensures |w| == |variance|
    ensures forall k :: 0 <= k < |w| ==> w[k] == sqrt(variance[k]) * z
  {
    seq(|variance|, k requires 0 <= k < |variance| => sqrt(variance[k]) * z)
  }

  class SobolIndicesStochasticProcessAlgorithm {
    /** The engine, given at construction (a class attribute in the original). */
    const sobolEngine: Engine

    var outputDesign: Option<Design>
    var sampleSize: int
    var sobolMethod: string
    var dim: int
    var confidenceLevel: real
    var inputDescription: seq<string>

    // The cache: all four absent, or all four present.
    var firstOrderIndices: Option<seq<real>>
    var totalOrderIndices: Option<seq<real>>
    var varFirstOrder: Option<seq<real>>
    var varTotalOrder: Option<seq<real>>

    /** How often the engine has been called, and how many of those calls raised. */
    ghost var engineCalls: nat
    ghost var failedCalls: nat

    /**
     * The object invariant: the four cache fields are filled together, and every engine call but
     * the one that filled the cache raised.
     */
    ghost predicate Valid()
      reads this
    {
      var absent := firstOrderIndices.None? && totalOrderIndices.None? &&
                    varFirstOrder.None? && varTotalOrder.None?;
      var present := firstOrderIndices.Some? && totalOrderIndices.Some? &&
                     varFirstOrder.Some? && varTotalOrder.Some?;
      (absent || present) &&
      engineCalls == failedCalls + (if present then 1 else 0)
    }

    /** The cache as one value. */
    ghost function Cache(): CacheState
      reads this
      requires Valid()
    {
      if firstOrderIndices.None? then Uncomputed
      else Computed(Estimates(firstOrderIndices.value, totalOrderIndices.value,
                              varFirstOrder.value, varTotalOrder.value))
    }

    /**
     * One demand for the results, starting from cache `before` with `callsBefore` engine calls:
     * a computed cache is served as it is; an uncomputed one costs exactly one engine call, whose
     * results fill the cache, or whose exception (`raised`) leaves it uncomputed.
     */
    ghost predicate Demanded(before: CacheState, callsBefore: nat, raised: Option<string>)
      reads this
      requires Valid() && outputDesign.Some?
    {
      match before
      case Computed(_) =>
        Cache() == before && engineCalls == callsBefore && raised.None?
      case Uncomputed =>
        engineCalls == callsBefore + 1 &&
        match sobolEngine(outputDesign.value, sampleSize, sobolMethod)
        case Returned(e) => Cache() == Computed(e) && raised.None?
        case Raised(reason) => Cache() == Uncomputed && raised == Some(reason)
    }

    constructor (outputDesign: Design, n: int, sobolMethod: string, engine: Engine)
      requires n != 0
      ensures Valid() && Cache() == Uncomputed && engineCalls == 0
      ensures this.outputDesign == Some(outputDesign) && sampleSize == n && this.sobolMethod == sobolMethod
      ensures dim == ImplicitDimension(|outputDesign|, n)
      ensures inputDescription == DefaultDescription(dim)
      ensures confidenceLevel == DefaultConfidenceLevel
      ensures sobolEngine == engine
    {
      this.outputDesign := Some(outputDesign);
      sampleSize := n;
      this.sobolMethod := sobolMethod;
      var d := ImplicitDimension(|outputDesign|, n);
      dim := d;
      confidenceLevel := DefaultConfidenceLevel;
      inputDescription := DefaultDescription(d);
      sobolEngine := engine;
      firstOrderIndices, totalOrderIndices := None, None;
      varFirstOrder, varTotalOrder := None, None;
      engineCalls, failedCalls := 0, 0;
    }

    /** Calls the engine only when all four cache fields are absent; returns what it raised. */
    method RunAlgorithm() returns (raised: Option<string>)
      requires Valid() && outputDesign.Some?
      modifies this`firstOrderIndices, this`totalOrderIndices, this`varFirstOrder,
               this`varTotalOrder, this`engineCalls, this`failedCalls
      ensures Valid()
      ensures Demanded(old(Cache()), old(engineCalls), raised)
    {
      raised := None;
      if firstOrderIndices.None? && totalOrderIndices.None? &&
         varFirstOrder.None? && varTotalOrder.None?
      {
        var outcome := sobolEngine(outputDesign.value, sampleSize, sobolMethod);
        engineCalls := engineCalls + 1;
        match outcome
        case Returned(e) =>
          firstOrderIndices, totalOrderIndices := Some(e.firstOrder), Some(e.totalOrder);
          varFirstOrder, varTotalOrder := Some(e.varFirstOrder), Some(e.varTotalOrder);
        case Raised(reason) =>
          failedCalls := failedCalls + 1;
          raised := Some(reason);
      }
    }

    /**
     * The part shared by the four accessors: assert that a design is present, then demand the
     * cache. On success the cache is Computed and `estimates` is what it holds.
     */
    method Prepare() returns (r: Result<Estimates, Error>)
      requires Valid()
      modifies this`firstOrderIndices, this`totalOrderIndices, this`varFirstOrder,
               this`varTotalOrder, this`engineCalls, this`failedCalls
      ensures Valid()
      ensures outputDesign.None? ==>
        r == Err(NoSample) && Cache() == old(Cache()) && engineCalls == old(engineCalls)
      ensures outputDesign.Some? ==> Demanded(old(Cache()), old(engineCalls), EngineReason(r))
      ensures r.Ok? <==> outputDesign.Some? && Cache().Computed?
      ensures r.Ok? ==> Cache() == Computed(r.value)
    {
      if outputDesign.None? {
        return Err(NoSample);
      }
      var raised := RunAlgorithm();
      if raised.Some? {
        r := Err(EngineFailure(raised.value));
      } else {
        r := Ok(Estimates(firstOrderIndices.value, totalOrderIndices.value,
                          varFirstOrder.value, varTotalOrder.value));
      }
    }

    method SetInputDescription(names: Names)
      modifies this`inputDescription
      ensures inputDescription == Coerce(names)
      ensures Valid() <==> old(Valid())
    {
      match names
      case Single(name) => inputDescription := [name];
      case Many(list) => inputDescription := list;
    }

    method GetInputDescription() returns (names: seq<string>)
      ensures names == inputDescription
    {
      names := inputDescription;
    }

    method SetMethod(sobolMethod: string)
      modifies this`sobolMethod
      ensures this.sobolMethod == sobolMethod
      ensures Valid() <==> old(Valid())
    {
      this.sobolMethod := sobolMethod;
    }

    method GetMethod() returns (m: string)
      ensures m == sobolMethod
    {
      m := sobolMethod;
    }

    /** The first-order indices, computed with the total-order ones on first demand. */
    method GetFirstOrderIndices() returns (r: Result<seq<real>, Error>)
      requires Valid()
      modifies this`firstOrderIndices, this`totalOrderIndices, this`varFirstOrder,
               this`varTotalOrder, this`engineCalls, this`failedCalls
      ensures Valid()
      ensures outputDesign.None? ==>
        r == Err(NoSample) && Cache() == old(Cache()) && engineCalls == old(engineCalls)
      ensures outputDesign.Some? ==> Demanded(old(Cache()), old(engineCalls), EngineReason(r))
      ensures r.Ok? <==> outputDesign.Some? && Cache().Computed?
      ensures r.Ok? ==> r.value == Cache().estimates.firstOrder
    {
      var p := Prepare();
      match p
      case Ok(e) => r := Ok(e.firstOrder);
      case Err(error) => r := Err(error);
    }

    /** The total-order indices, from the same engine call as the first-order ones. */
    method GetTotalOrderIndices() returns (r: Result<seq<real>, Error>)
      requires Valid()
      modifies this`firstOrderIndices, this`totalOrderIndices, this`varFirstOrder,
               this`varTotalOrder, this`engineCalls, this`failedCalls
      ensures Valid()
      ensures outputDesign.None? ==>
        r == Err(NoSample) && Cache() == old(Cache()) && engineCalls == old(engineCalls)
      ensures outputDesign.Some? ==> Demanded(old(Cache()), old(engineCalls), EngineReason(r))
      ensures r.Ok? <==> outputDesign.Some? && Cache().Computed?
      ensures r.Ok? ==> r.value == Cache().estimates.totalOrder
    {
      var p := Prepare();
      match p
      case Ok(e) => r := Ok(e.totalOrder);
      case Err(error) => r := Err(error);
    }

    /**
     * Half-widths of the first-order confidence intervals, recomputed on every call from the
     * cached variance and the current confidence level. The quantile routine is called after the
     * cache fill, so its exception leaves the cache filled.
     */
    method GetFirstOrderIndicesInterval(sqrt: real -> real, normalQuantile: Quantile)
      returns (r: Result<seq<real>, Error>)
      requires Valid()
      modifies this`firstOrderIndices, this`totalOrderIndices, this`varFirstOrder,
               this`varTotalOrder, this`engineCalls, this`failedCalls
      ensures Valid()
      ensures outputDesign.None? ==>
        r == Err(NoSample) && Cache() == old(Cache()) && engineCalls == old(engineCalls)
      ensures outputDesign.Some? ==> Demanded(old(Cache()), old(engineCalls), EngineReason(r))
      ensures r.Ok? <==>
        outputDesign.Some? && Cache().Computed? && normalQuantile(confidenceLevel).Ok?
      ensures outputDesign.Some? && Cache().Computed? && normalQuantile(confidenceLevel).Err? ==>
        r == Err(QuantileFailure(normalQuantile(confidenceLevel).error))
      ensures r.Ok? ==>
        r.value == HalfWidths(Cache().estimates.varFirstOrder, normalQuantile(confidenceLevel).value, sqrt)
    {
      var p := Prepare();
      match p
      case Ok(e) =>
        var z := normalQuantile(confidenceLevel);
        if z.Ok? {
          r := Ok(HalfWidths(e.varFirstOrder, z.value, sqrt));
        } else {
          r := Err(QuantileFailure(z.error));
        }
      case Err(error) => r := Err(error);
    }

    /** Half-widths of the total-order confidence intervals (the name keeps the original's case). */
    method GetTotalorderIndicesInterval(sqrt: real -> real, normalQuantile: Quantile)
      returns (r: Result<seq<real>, Error>)
      requires Valid()
      modifies this`firstOrderIndices, this`totalOrderIndices, this`varFirstOrder,
               this`varTotalOrder, this`engineCalls, this`failedCalls
      ensures Valid()
      ensures outputDesign.None? ==>
        r == Err(NoSample) && Cache() == old(Cache()) && engineCalls == old(engineCalls)
      ensures outputDesign.Some? ==> Demanded(old(Cache()), old(engineCalls), EngineReason(r))
      ensures r.Ok? <==>
        outputDesign.Some? && Cache().Computed? && normalQuantile(confidenceLevel).Ok?
      ensures outputDesign.Some? && Cache().Computed? && normalQuantile(confidenceLevel).Err? ==>
        r == Err(QuantileFailure(normalQuantile(confidenceLevel).error))
      ensures r.Ok? ==>
        r.value == HalfWidths(Cache().estimates.varTotalOrder, normalQuantile(confidenceLevel).value, sqrt)
    {
      var p := Prepare();
      match p
      case Ok(e) =>
        var z := normalQuantile(confidenceLevel);
        if z.Ok? {
          r := Ok(HalfWidths(e.varTotalOrder, z.value, sqrt));
        } else {
          r := Err(QuantileFailure(z.error));
        }
      case Err(error) => r := Err(error);
    }

    /** Sets the dimension only: the input description and the cache are left as they are. */
    method SetDimension(dim: int)
      modifies this`dim
      ensures this.dim == dim
      ensures Valid() <==> old(Valid())
    {
      this.dim := dim;
    }

    method SetConfidenceLevel(confidenceLevel: real)
      modifies this`confidenceLevel
      ensures this.confidenceLevel == confidenceLevel
      ensures Valid() <==> old(Valid())
    {
      this.confidenceLevel := confidenceLevel;
    }

    method GetConfidenceLevel() returns (level: real)
      ensures level == confidenceLevel
    {
      level := confidenceLevel;
    }
  }

  /** However long an instance lives, an engine that never raised has been called at most once. */
  lemma AtMostOneSuccessfulCall(alg: SobolIndicesStochasticProcessAlgorithm)
    requires alg.Valid()
    ensures alg.engineCalls - alg.failedCalls <= 1
    ensures alg.failedCalls == 0 ==> alg.engineCalls <= 1
    ensures alg.Cache().Computed? <==> alg.engineCalls == alg.failedCalls + 1
  {
  }
}
