/**
 * optim/app/services/optimize/bayesian_optimizer.py: the scope registry that
 * configures the search space, and the negate / tell / ask sequence of one
 * optimisation step. The optimiser itself (surrogate fit, acquisition,
 * random start) is foreign: `tell` acceptance and `ask` are parameters.
 */
module BayesianOptimizer {
  import opened Wrappers
  import opened Text

  /** A search dimension: a continuous interval or an integer range. */
  datatype Dimension = Real(lo: real, hi: real) | Integer(low: int, high: int)

  /** What the constructor hands the foreign optimiser. */
  datatype OptimizerConfig = OptimizerConfig(dimensions: seq<Dimension>, nInitialPoints: nat, acqFunc: string)

  const InitFailedPrefix := "最適化の初期化に失敗しました->\n "
  const RoundFailedPrefix := "ラウンド最適化に失敗しました->\n "
  const SessionFailedPrefix := "セッション最適化に失敗しました->\n "

  /** The configuration chosen by the target name, or the re-raised initialisation error. */
  function ScopeConfig(target: string): (r: Result<OptimizerConfig, string>)
    ensures r.Ok? <==> target == "round" || target == "session"
    ensures r.Ok? ==> r.value.nInitialPoints == 10 && r.value.acqFunc == "EI"
    ensures r.Failure? ==> r.error == InitFailedPrefix + "最適化タイプが不正です->\n '" + target + "'"
  {
    if target == "round" then
      Ok(OptimizerConfig([Real(15.0, 60.0), Real(3.0, 20.0)], 10, "EI"))
    else if target == "session" then
      Ok(OptimizerConfig([Real(60.0, 480.0), Real(10.0, 60.0), Integer(1, 10)], 10, "EI"))
    else
      Failure(InitFailedPrefix + "最適化タイプが不正です->\n '" + target + "'")
  }

  /** A coordinate lies in its dimension (an integer dimension takes integral values only). */
  predicate InDimension(d: Dimension, x: real)
  {
    match d
    case Real(lo, hi) => lo <= x <= hi
    case Integer(lo, hi) => x == x.Floor as real && lo as real <= x <= hi as real
  }

  /** A point of the search space: one coordinate per dimension, each in range. */
  predicate InSpace(c: OptimizerConfig, p: seq<real>)
  {
    |p| == |c.dimensions| && forall i :: 0 <= i < |p| ==> InDimension(c.dimensions[i], p[i])
  }

  /** Each dimension is a non-empty range. */
  predicate WellFormed(c: OptimizerConfig)
  {
    forall i :: 0 <= i < |c.dimensions| ==>
      match c.dimensions[i]
      case Real(lo, hi) => lo < hi
      case Integer(lo, hi) => lo < hi
  }

  /** The two scopes: sizes, order and kinds of the dimensions. */
  lemma ScopeShapes()
    ensures ScopeConfig("round").Ok? && ScopeConfig("round").value.dimensions == [Real(15.0, 60.0), Real(3.0, 20.0)]
    ensures ScopeConfig("session").Ok?
    ensures ScopeConfig("session").value.dimensions == [Real(60.0, 480.0), Real(10.0, 60.0), Integer(1, 10)]
    ensures WellFormed(ScopeConfig("round").value) && WellFormed(ScopeConfig("session").value)
  {
  }

  /** The objectives handed to `tell`: every score negated, so minimising maximises the score. */
  function Negate(ys: seq<real>): (r: seq<real>)
    ensures |r| == |ys|
  {
    seq(|ys|, i requires 0 <= i < |ys| => -ys[i])
  }

  /** Negation is its own inverse: the scores can be read back from what was told. */
  lemma NegateInvolution(ys: seq<real>)
    ensures Negate(Negate(ys)) == ys
  {
    assert forall i :: 0 <= i < |ys| ==> Negate(Negate(ys))[i] == ys[i];
  }

  /** Negation reverses the order: the smallest told value is the best score. */
  lemma NegateReversesOrder(ys: seq<real>, i: nat, j: nat)
    requires i < |ys| && j < |ys|
    ensures Negate(ys)[i] <= Negate(ys)[j] <==> ys[j] <= ys[i]
  {
  }

  /** A point that minimises the told objective maximises the score. */
  lemma MinimumOfNegatedIsMaximum(ys: seq<real>, k: nat)
    requires k < |ys|
    requires forall i :: 0 <= i < |ys| ==> Negate(ys)[k] <= Negate(ys)[i]
    ensures forall i :: 0 <= i < |ys| ==> ys[i] <= ys[k]
  {
    forall i | 0 <= i < |ys| ensures ys[i] <= ys[k] {
      NegateReversesOrder(ys, k, i);
    }
  }

  /**
   * The optimiser of one scope, holding what it was told. `tell` is checked
   * by the foreign library (`accepts`); on acceptance the batch is appended.
   */
  class Optimizer {
    const config: OptimizerConfig
    var observedX: seq<seq<real>>
    var observedY: seq<real>

    constructor (c: OptimizerConfig)
      ensures config == c && observedX == [] && observedY == []
    {
      config := c;
      observedX := [];
      observedY := [];
    }

    method Tell(xs: seq<seq<real>>, ys: seq<real>, accepts: (seq<seq<real>>, seq<real>) -> bool)
      returns (ok: bool)
      modifies this
      ensures ok == accepts(xs, ys)
      ensures ok ==> observedX == old(observedX) + xs && observedY == old(observedY) + ys
      ensures !ok ==> observedX == old(observedX) && observedY == old(observedY)
    {
      ok := accepts(xs, ys);
      if ok {
        observedX := observedX + xs;
        observedY := observedY + ys;
      }
    }
  }

  /** `BayesianOptimizer(target)`: an optimiser for a known scope, otherwise the error and no optimiser. */
  method NewOptimizer(target: string) returns (r: Result<Optimizer, string>)
    ensures r.Ok? <==> ScopeConfig(target).Ok?
    ensures r.Ok? ==> fresh(r.value) && r.value.config == ScopeConfig(target).value
                      && r.value.observedX == [] && r.value.observedY == []
    ensures r.Failure? ==> r.error == ScopeConfig(target).error
  {
    var c := ScopeConfig(target);
    if c.Failure? {
      return Failure(c.error);
    }
    var o := new Optimizer(c.value);
    return Ok(o);
  }

  /**
   * One optimisation step: the objectives are negated and told with the
   * explanatory rows unchanged, then `ask` proposes the next point from the
   * history; a rejected batch or a point of the wrong size is an error.
   */
  method Step(o: Optimizer, xs: seq<seq<real>>, objectives: seq<real>,
              accepts: (seq<seq<real>>, seq<real>) -> bool,
              ask: (OptimizerConfig, seq<seq<real>>, seq<real>) -> seq<real>,
              arity: nat, prefix: string)
    returns (r: Result<seq<real>, string>)
    modifies o
    ensures accepts(xs, Negate(objectives))
            ==> o.observedX == old(o.observedX) + xs && o.observedY == old(o.observedY) + Negate(objectives)
    ensures !accepts(xs, Negate(objectives)) ==> r.Failure? && o.observedX == old(o.observedX) && o.observedY == old(o.observedY)
    ensures r.Ok? ==> |r.value| == arity && r.value == ask(o.config, o.observedX, o.observedY)
    ensures accepts(xs, Negate(objectives)) && |ask(o.config, o.observedX, o.observedY)| == arity ==> r.Ok?
    ensures r.Failure? ==> HasPrefix(r.error, prefix)
  {
    var negative := Negate(objectives);
    var told := o.Tell(xs, negative, accepts);
    if !told {
      return Failure(prefix + "tell rejected the observations");
    }
    var point := ask(o.config, o.observedX, o.observedY);
    if |point| != arity {
      return Failure(prefix + "unexpected number of values to unpack");
    }
    return Ok(point);
  }

  /** `optimize_round`: the two components of the proposed point, in order. */
  method OptimizeRound(o: Optimizer, xs: seq<seq<real>>, objectives: seq<real>,
                       accepts: (seq<seq<real>>, seq<real>) -> bool,
                       ask: (OptimizerConfig, seq<seq<real>>, seq<real>) -> seq<real>)
    returns (r: Result<(real, real), string>)
    modifies o
    ensures accepts(xs, Negate(objectives))
            ==> o.observedX == old(o.observedX) + xs && o.observedY == old(o.observedY) + Negate(objectives)
    ensures !accepts(xs, Negate(objectives)) ==> r.Failure? && o.observedX == old(o.observedX) && o.observedY == old(o.observedY)
    ensures r.Ok? ==> var p := ask(o.config, o.observedX, o.observedY); |p| == 2 && r.value == (p[0], p[1])
    ensures r.Ok? && o.config == ScopeConfig("round").value && InSpace(o.config, ask(o.config, o.observedX, o.observedY))
            ==> 15.0 <= r.value.0 <= 60.0 && 3.0 <= r.value.1 <= 20.0
    ensures r.Failure? ==> HasPrefix(r.error, RoundFailedPrefix)
  {
    var p := Step(o, xs, objectives, accepts, ask, 2, RoundFailedPrefix);
    if p.Failure? {
      return Failure(p.error);
    }
    r := Ok((p.value[0], p.value[1]));
    assert o.config == ScopeConfig("round").value && InSpace(o.config, p.value) ==> InDimension(o.config.dimensions[0], p.value[0]) && InDimension(o.config.dimensions[1], p.value[1]);
  }

  /** `optimize_session`: total work time, break time and an integral round count, in order. */
  method OptimizeSession(o: Optimizer, xs: seq<seq<real>>, objectives: seq<real>,
                         accepts: (seq<seq<real>>, seq<real>) -> bool,
                         ask: (OptimizerConfig, seq<seq<real>>, seq<real>) -> seq<real>)
    returns (r: Result<(real, real, real), string>)
    modifies o
    ensures accepts(xs, Negate(objectives))
            ==> o.observedX == old(o.observedX) + xs && o.observedY == old(o.observedY) + Negate(objectives)
    ensures !accepts(xs, Negate(objectives)) ==> r.Failure? && o.observedX == old(o.observedX) && o.observedY == old(o.observedY)
    ensures r.Ok? ==> var p := ask(o.config, o.observedX, o.observedY); |p| == 3 && r.value == (p[0], p[1], p[2])
    ensures r.Ok? && o.config == ScopeConfig("session").value && InSpace(o.config, ask(o.config, o.observedX, o.observedY))
            ==> 60.0 <= r.value.0 <= 480.0 && 10.0 <= r.value.1 <= 60.0
                && r.value.2 == r.value.2.Floor as real && 1.0 <= r.value.2 <= 10.0
    ensures r.Failure? ==> HasPrefix(r.error, SessionFailedPrefix)
  {
    var p := Step(o, xs, objectives, accepts, ask, 3, SessionFailedPrefix);
    if p.Failure? {
      return Failure(p.error);
    }
    r := Ok((p.value[0], p.value[1], p.value[2]));
    assert o.config == ScopeConfig("session").value && InSpace(o.config, p.value)
      ==> InDimension(o.config.dimensions[0], p.value[0]) && InDimension(o.config.dimensions[1], p.value[1])
          && InDimension(o.config.dimensions[2], p.value[2]);
  }
}
