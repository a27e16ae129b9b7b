/** The sources of randomness and the library functions that the generators rely on.  Engines are
    tapes: the k-th draw is a function of k, and a generator remembers how far it has read. */
module RandomGeneration {
  import opened RealArithmetic

  /** The k-th draw of a seeded engine, by the distribution it is drawn from. */
  datatype Engine = Engine(
    uniform: nat -> real,
    exponential: (nat, real) -> real,
    normal: (nat, real, real) -> real)

  /** Uniform draws lie in [0, 1); exponential draws of a positive rate are not negative. */
  ghost predicate IsEngine(e: Engine) {
    && (forall k :: 0.0 <= e.uniform(k) < 1.0)
    && (forall k, rate :: 0.0 < rate ==> 0.0 <= e.exponential(k, rate))
  }

  /** The tape from position n on. */
  function From(e: Engine, n: nat): Engine {
    Engine((k: nat) => e.uniform(n + k),
           (k: nat, rate: real) => e.exponential(n + k, rate),
           (k: nat, mean: real, deviation: real) => e.normal(n + k, mean, deviation))
  }

  /** The uniform draw i places after position n. */
  function DrawAfter(e: Engine, n: nat, i: nat): real {
    e.uniform(n + i)
  }

  /** std::pow, std::log and the text of a Boost date (a day number here). */
  datatype Library = Library(pow: (real, real) -> real, log: real -> real, dateText: int -> string)

  function Reciprocal(n: nat): real
    requires n > 0
  {
    1.0 / n as real
  }

  /** x^(1/n) is the positive n-th root of x; the logarithm is negative below one. */
  ghost predicate IsLibrary(lib: Library) {
    && (forall x, n: nat :: 0.0 < x && 0 < n ==>
          0.0 < lib.pow(x, Reciprocal(n)) && Pow(lib.pow(x, Reciprocal(n)), n) == x)
    && (forall x :: 0.0 < x < 1.0 ==> lib.log(x) < 0.0)
  }

  /** The day numbers of 1 January 2000, a Saturday, and of 31 December 2099, counted from a Sunday:
      the demand file knows no other years. */
  const FIRST_DATE := 6
  const LAST_DATE := 36_530

  predicate IsDate(day: int) {
    FIRST_DATE <= day <= LAST_DATE
  }

  /** Distinct dates have distinct texts of eleven characters (such as 2011-Feb-14). */
  ghost predicate HasDateTexts(lib: Library) {
    && (forall day :: IsDate(day) ==> |lib.dateText(day)| == 11)
    && (forall day, day' :: IsDate(day) && IsDate(day') && lib.dateText(day) == lib.dateText(day') ==> day == day')
  }

  class RandomGeneration {
    const engine: Engine
    var position: nat

    constructor (engine: Engine)
      ensures this.engine == engine && position == 0
    {
      this.engine, position := engine, 0;
    }

    method Draw() returns (u: real)
      modifies this
      ensures u == engine.uniform(old(position)) && position == old(position) + 1
    {
      u := engine.uniform(position);
      position := position + 1;
    }

    method GenerateExponential(rate: real) returns (e: real)
      requires 0.0 < rate
      modifies this
      ensures e == engine.exponential(old(position), rate) && position == old(position) + 1
    {
      e := engine.exponential(position, rate);
      position := position + 1;
    }

    method GenerateNormal(mean: real, deviation: real) returns (x: real)
      modifies this
      ensures x == engine.normal(old(position), mean, deviation) && position == old(position) + 1
    {
      x := engine.normal(position, mean, deviation);
      position := position + 1;
    }
  }

  /** The state of the order-statistics generator: trademgen/basic/RandomGenerationContext.cpp. */
  class RandomGenerationContext {
    var numberOfRequestsGeneratedSoFar: int
    var cumulativeProbabilitySoFar: real

    constructor ()
      ensures numberOfRequestsGeneratedSoFar == 0 && cumulativeProbabilitySoFar == 0.0
    {
      numberOfRequestsGeneratedSoFar, cumulativeProbabilitySoFar := 0, 0.0;
    }

    method SetCumulativeProbabilitySoFar(p: real)
      modifies this`cumulativeProbabilitySoFar
      ensures cumulativeProbabilitySoFar == p
    {
      cumulativeProbabilitySoFar := p;
    }

    method IncrementGeneratedRequestsCounter()
      modifies this`numberOfRequestsGeneratedSoFar
      ensures numberOfRequestsGeneratedSoFar == old(numberOfRequestsGeneratedSoFar) + 1
    {
      numberOfRequestsGeneratedSoFar := numberOfRequestsGeneratedSoFar + 1;
    }

    method Reset()
      modifies this
      ensures numberOfRequestsGeneratedSoFar == 0 && cumulativeProbabilitySoFar == 0.0
    {
      cumulativeProbabilitySoFar := 0.0;
      numberOfRequestsGeneratedSoFar := 0;
    }
  }
}
