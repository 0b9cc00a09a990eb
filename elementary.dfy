/** The numerical routines the filter calls but whose internals are not
    modelled: the C math library's `sin`, `cos`, `sqrt`, `atan2` and `M_PI`,
    and Eigen's Cholesky factor (`llt().matrixL()`) and matrix inverse. They
    are supplied to the filter as a record of total functions about which
    nothing is known except the shapes of the matrices they return. */
module Elementary {
  import opened LinAlg

  datatype Lib = Lib(
    sin: real -> real,
    cos: real -> real,
    sqrt: real -> real,
    atan2: (real, real) -> real,
    cholesky: Matrix -> Matrix,
    inverse: Matrix -> Matrix,
    pi: real)
  {
    // The routines, as the model calls them.
    function Sin(a: real): real { sin(a) }
    function Cos(a: real): real { cos(a) }
    function Sqrt(a: real): real { sqrt(a) }
    function Atan2(y: real, x: real): real { atan2(y, x) }
    function Cholesky(m: Matrix): Matrix { cholesky(m) }
    function Inverse(m: Matrix): Matrix { inverse(m) }

    /** pi is positive and both matrix routines map an n x n matrix to an
        n x n matrix. */
    ghost predicate Valid() {
      && pi > 0.0
      && (forall m {:trigger Cholesky(m)} :: IsSquare(m) ==> IsMatrix(Cholesky(m), |m|, |m|))
      && (forall m {:trigger Inverse(m)} :: IsSquare(m) ==> IsMatrix(Inverse(m), |m|, |m|))
    }
  }
}
