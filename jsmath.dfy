/** The part of JavaScript's `Math` object the core calls.
    The values of the transcendental functions are not modelled: a `MathLib`
    is any choice of them, so every property proved for all `MathLib`s holds
    whatever `Math.sin`, `Math.cos`, `Math.tan` and `Math.sqrt` return. */
module JsMath {

  datatype MathLib = MathLib(
    PI: real,
    sinFn: real -> real,
    cosFn: real -> real,
    tanFn: real -> real,
    sqrtFn: real -> real)
  {
    /** `Math.sin(a)`. */
    function sin(a: real): real { sinFn(a) }

    /** `Math.cos(a)`. */
    function cos(a: real): real { cosFn(a) }

    /** `Math.tan(a)`. */
    function tan(a: real): real { tanFn(a) }

    /** `Math.sqrt(a)`. */
    function sqrt(a: real): real { sqrtFn(a) }
  }

  /** The one trigonometric identity some properties are stated under. */
  ghost predicate Pythagorean(math: MathLib) {
    forall a :: math.sin(a) * math.sin(a) + math.cos(a) * math.cos(a) == 1.0
  }

  /** The angle of step j out of n around a full turn, `2 * PI * j / n`
      (written `j * 2 * PI / n` or `(j / n) * 2 * PI` in some generators;
      the three agree over the reals). */
  function Turn(math: MathLib, n: nat, j: nat): real
    requires n >= 1
  {
    (j as real * 2.0 * math.PI) / n as real
  }

  /** The angle of step i out of n across a half turn, `i * PI / n`. */
  function HalfTurn(math: MathLib, n: nat, i: nat): real
    requires n >= 1
  {
    (i as real * math.PI) / n as real
  }

  /** The generators write the same angle three ways. */
  lemma TurnForms(math: MathLib, n: nat, j: nat)
    requires n >= 1
    ensures Turn(math, n, j) == (2.0 * math.PI * j as real) / n as real
    ensures Turn(math, n, j) == (j as real / n as real) * 2.0 * math.PI
  {
  }
}
