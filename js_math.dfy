/** The parts of JavaScript's built-in `Math` object that the components call.

    Floating point is not modelled: numbers are reals. `Math.PI` is the real
    number written with the digits JavaScript prints for it. The transcendental
    functions are not computable over the reals, so they are passed in as a
    record of arbitrary total functions; the only fact assumed about any of them
    is the one `CbrtMapsUnit` states, which a caller supplies as a precondition. */
module JsMath {

  /** `Math.PI`. */
  const PI: real := 3.141592653589793

  /** `Math.cbrt`, `Math.sin`, `Math.cos` and `Math.acos`, left uninterpreted. */
  datatype Functions = Functions(
    cbrt: real -> real,
    sin: real -> real,
    cos: real -> real,
    acos: real -> real)

  /** The cube root maps the unit interval [0, 1) into itself. */
  ghost predicate CbrtMapsUnit(m: Functions)
  {
    forall u: real :: 0.0 <= u < 1.0 ==> 0.0 <= m.cbrt(u) < 1.0
  }

  /** Every draw of `d` lies in [0, 1), as every value `Math.random()` returns does. */
  ghost predicate UnitDraws(d: seq<real>)
  {
    forall k | 0 <= k < |d| :: 0.0 <= d[k] < 1.0
  }

  /** `Math.random()` as an injected source: a fixed sequence of draws and a
      cursor that each call advances by one. */
  class RandomSource {
    const draws: seq<real>
    var pos: nat

    constructor (draws: seq<real>)
      ensures this.draws == draws && pos == 0
    {
      this.draws := draws;
      pos := 0;
    }

    /** Returns the next draw and consumes it. */
    method Random() returns (u: real)
      requires pos < |draws|
      modifies this`pos
      ensures pos == old(pos) + 1
      ensures u == draws[old(pos)]
    {
      u := draws[pos];
      pos := pos + 1;
    }
  }
}
