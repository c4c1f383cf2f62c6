/** The functions of Python's `math` module that the flower calls. Their
    floating-point values are not modelled: a `MathLib` is any choice of
    real-valued functions, and `Sound` names the identities of real
    trigonometry that some geometric properties rely on. */
module PyMath {

  datatype MathLib = MathLib(
    pi: real,
    cos: real -> real,
    sin: real -> real,
    acos: real -> real,
    hypot: (real, real) -> real)

  /** math.ceil: the least integer not below `x`. */
  function Ceil(x: real): (r: int)
    ensures x <= r as real < x + 1.0
  {
    -((-x).Floor)
  }

  /** Facts of real trigonometry the model relies on: pi is positive, the sine
      is positive strictly between 0 and pi, and the hypotenuse of legs that
      are not both zero is positive. */
  ghost predicate Sound(m: MathLib) {
    && 0.0 < m.pi
    && (forall x :: 0.0 < x < m.pi ==> 0.0 < m.sin(x))
    && (forall a, b :: 0.0 <= a && 0.0 <= b && (0.0 < a || 0.0 < b) ==> 0.0 < m.hypot(a, b))
  }
}
