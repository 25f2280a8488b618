/** The floating-point library calls (numpy's sqrt and log10, Python's `**`)
    are not reproduced: the caller supplies them, and the model reasons only
    about where their results go. */
module Numerics {

  datatype FloatOps = FloatOps(
    sqrt: real -> real,   // np.sqrt
    log10: real -> real,  // np.log10
    pow10: real -> real)  // x |-> 10 ** x

  /** `10 ** (db / 20.0)`: a gain in decibels as a linear factor. */
  function DbToLinear(ops: FloatOps, db: real): real
  {
    ops.pow10(db / 20.0)
  }

  function RMax(x: real, y: real): (m: real)
    ensures m >= x && m >= y && (m == x || m == y)
  {
    if x >= y then x else y
  }

  function RMin(x: real, y: real): (m: real)
    ensures m <= x && m <= y && (m == x || m == y)
  {
    if x <= y then x else y
  }
}
