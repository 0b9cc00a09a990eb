/** Dense real vectors and matrices, and the weighted sums over sigma points
    that every mean and covariance reconstruction of the filter is built from.
    Floating point is idealised as `real`. */
module LinAlg {

  type Vector = seq<real>

  /** Row-major: `m[i][j]` is the entry in row `i`, column `j`. */
  type Matrix = seq<seq<real>>

  /** Every vector of `vs` has exactly `n` entries. */
  predicate AllLen(vs: seq<Vector>, n: nat) {
    forall k :: 0 <= k < |vs| ==> |vs[k]| == n
  }

  predicate IsMatrix(m: Matrix, rows: nat, cols: nat) {
    |m| == rows && AllLen(m, cols)
  }

  predicate IsSquare(m: Matrix) {
    AllLen(m, |m|)
  }

  predicate Symmetric(m: Matrix) {
    IsSquare(m) && forall i, j :: 0 <= i < |m| && 0 <= j < |m| ==> m[i][j] == m[j][i]
  }

  /** `a` and `b` have the same number of rows and matching row lengths. */
  predicate SameShape(a: Matrix, b: Matrix) {
    |a| == |b| && forall i :: 0 <= i < |a| ==> |a[i]| == |b[i]|
  }

  function Zeros(n: nat): (v: Vector)
    ensures |v| == n
  {
    seq(n, _ => 0.0)
  }

  function ZeroMatrix(rows: nat, cols: nat): (m: Matrix)
    ensures IsMatrix(m, rows, cols)
  {
    seq(rows, _ => Zeros(cols))
  }

  function Identity(n: nat): (m: Matrix)
    ensures IsMatrix(m, n, n)
  {
    seq(n, i => seq(n, j => if i == j then 1.0 else 0.0))
  }

  function VecAdd(a: Vector, b: Vector): (r: Vector)
    requires |a| == |b|
    ensures |r| == |a|
  {
    seq(|a|, i requires 0 <= i < |a| => a[i] + b[i])
  }

  function VecSub(a: Vector, b: Vector): (r: Vector)
    requires |a| == |b|
    ensures |r| == |a|
  {
    seq(|a|, i requires 0 <= i < |a| => a[i] - b[i])
  }

  function VecScale(c: real, a: Vector): (r: Vector)
    ensures |r| == |a|
  {
    seq(|a|, i requires 0 <= i < |a| => c * a[i])
  }

  /** Sum of the entries, accumulated front to back. */
  function Sum(s: seq<real>): real
    decreases |s|
  {
    if |s| == 0 then 0.0 else Sum(s[..|s| - 1]) + s[|s| - 1]
  }

  /** Inner product, accumulated front to back. */
  function Dot(a: Vector, b: Vector): real
    requires |a| == |b|
    decreases |a|
  {
    if |a| == 0 then 0.0
    else Dot(a[..|a| - 1], b[..|b| - 1]) + a[|a| - 1] * b[|b| - 1]
  }

  /** Entry `j` of every vector of `vs`: for a row-major matrix this is its
      column `j` (Eigen's `col(j)`); for points stored column by column it is
      row `j`. */
  function Component(vs: seq<Vector>, j: nat): (r: Vector)
    requires forall k :: 0 <= k < |vs| ==> j < |vs[k]|
    ensures |r| == |vs|
  {
    seq(|vs|, k requires 0 <= k < |vs| => vs[k][j])
  }

  /** `a * b^T`. */
  function Outer(a: Vector, b: Vector): (m: Matrix)
    ensures IsMatrix(m, |a|, |b|)
  {
    seq(|a|, i requires 0 <= i < |a| => seq(|b|, j requires 0 <= j < |b| => a[i] * b[j]))
  }

  function MatAdd(a: Matrix, b: Matrix): (m: Matrix)
    requires SameShape(a, b)
    ensures SameShape(m, a)
  {
    seq(|a|, i requires 0 <= i < |a| => VecAdd(a[i], b[i]))
  }

  function MatSub(a: Matrix, b: Matrix): (m: Matrix)
    requires SameShape(a, b)
    ensures SameShape(m, a)
  {
    seq(|a|, i requires 0 <= i < |a| => VecSub(a[i], b[i]))
  }

  function Transpose(m: Matrix, cols: nat): (t: Matrix)
    requires AllLen(m, cols)
    ensures IsMatrix(t, cols, |m|)
  {
    seq(cols, j requires 0 <= j < cols => Component(m, j))
  }

  function MatVec(m: Matrix, v: Vector): (r: Vector)
    requires AllLen(m, |v|)
    ensures |r| == |m|
  {
    seq(|m|, i requires 0 <= i < |m| => Dot(m[i], v))
  }

  /** Product of `a` (|a| x |b|) and `b` (|b| x cols). */
  function MatMul(a: Matrix, b: Matrix, cols: nat): (m: Matrix)
    requires AllLen(a, |b|) && AllLen(b, cols)
    ensures IsMatrix(m, |a|, cols)
  {
    seq(|a|, i requires 0 <= i < |a| => seq(cols, j requires 0 <= j < cols => Dot(a[i], Component(b, j))))
  }

  /** `pts[i] - mean` for every point. */
  function Deviations(pts: seq<Vector>, mean: Vector): (ds: seq<Vector>)
    requires AllLen(pts, |mean|)
    ensures |ds| == |pts| && AllLen(ds, |mean|)
  {
    seq(|pts|, i requires 0 <= i < |pts| => VecSub(pts[i], mean))
  }

  /** `sum_k w[k] * vs[k]`, starting from the zero vector of length `n` and
      adding the terms in index order, as the filter's accumulation loops do. */
  function WeightedSum(w: seq<real>, vs: seq<Vector>, n: nat): (r: Vector)
    requires |w| == |vs| && AllLen(vs, n)
    ensures |r| == n
    decreases |vs|
  {
    if |vs| == 0 then Zeros(n)
    else
      var k := |vs| - 1;
      VecAdd(WeightedSum(w[..k], vs[..k], n), VecScale(w[k], vs[k]))
  }

  /** `sum_k (w[k] * us[k]) * vs[k]^T`, an `r x c` matrix accumulated from the
      zero matrix in index order. */
  function WeightedOuterSum(w: seq<real>, us: seq<Vector>, vs: seq<Vector>, r: nat, c: nat): (m: Matrix)
    requires |w| == |us| == |vs| && AllLen(us, r) && AllLen(vs, c)
    ensures IsMatrix(m, r, c)
    decreases |w|
  {
    if |w| == 0 then ZeroMatrix(r, c)
    else
      var k := |w| - 1;
      MatAdd(WeightedOuterSum(w[..k], us[..k], vs[..k], r, c), Outer(VecScale(w[k], us[k]), vs[k]))
  }

  // ---------------------------------------------------------------------
  // Lemmas

  /** Entry `j` of a weighted sum of vectors is the weighted sum of their
      entries `j`. */
  lemma {:induction false} WeightedSumAt(w: seq<real>, vs: seq<Vector>, n: nat, j: nat)
    requires |w| == |vs| && AllLen(vs, n) && j < n
    ensures WeightedSum(w, vs, n)[j] == Dot(w, Component(vs, j))
    decreases |vs|
  {
    if |vs| > 0 {
      var k := |vs| - 1;
      WeightedSumAt(w[..k], vs[..k], n, j);
      assert Component(vs, j)[..k] == Component(vs[..k], j);
    }
  }

  /** Weighting the leading `n` entries of vectors of length `m` gives the
      leading `n` entries of the weighted sum of the whole vectors. */
  lemma WeightedSumPrefix(w: seq<real>, vs: seq<Vector>, us: seq<Vector>, n: nat, m: nat)
    requires |w| == |vs| == |us| && n <= m && AllLen(vs, m) && AllLen(us, n)
    requires forall i :: 0 <= i < |us| ==> us[i] == vs[i][..n]
    ensures WeightedSum(w, us, n) == WeightedSum(w, vs, m)[..n]
  {
    forall j | 0 <= j < n ensures WeightedSum(w, us, n)[j] == WeightedSum(w, vs, m)[j] {
      WeightedSumAt(w, us, n, j);
      WeightedSumAt(w, vs, m, j);
      assert Component(us, j) == Component(vs, j);
    }
  }

  /** A weighted sum of outer products `d * d^T` is symmetric, whatever the
      weights. */
  lemma {:induction false} OuterSumSymmetric(w: seq<real>, ds: seq<Vector>, n: nat)
    requires |w| == |ds| && AllLen(ds, n)
    ensures Symmetric(WeightedOuterSum(w, ds, ds, n, n))
    decreases |ds|
  {
    if |ds| > 0 {
      var k := |ds| - 1;
      OuterSumSymmetric(w[..k], ds[..k], n);
      var o := Outer(VecScale(w[k], ds[k]), ds[k]);
      assert Symmetric(o) by {
        forall i, j | 0 <= i < n && 0 <= j < n ensures o[i][j] == o[j][i] {
          assert o[i][j] == (w[k] * ds[k][i]) * ds[k][j];
          assert o[j][i] == (w[k] * ds[k][j]) * ds[k][i];
        }
      }
      SymmetricAdd(WeightedOuterSum(w[..k], ds[..k], ds[..k], n, n), o);
    }
  }

  /** The sum of two symmetric matrices of the same size is symmetric. */
  lemma SymmetricAdd(a: Matrix, b: Matrix)
    requires Symmetric(a) && Symmetric(b) && |a| == |b|
    ensures SameShape(a, b) && Symmetric(MatAdd(a, b))
  {
  }

  lemma {:induction false} SumAppend(a: seq<real>, b: seq<real>)
    ensures Sum(a + b) == Sum(a) + Sum(b)
    decreases |b|
  {
    if |b| == 0 {
      assert a + b == a;
    } else {
      var k := |b| - 1;
      assert (a + b)[..|a + b| - 1] == a + b[..k];
      SumAppend(a, b[..k]);
    }
  }

  /** `Sum([a] + s) == a + Sum(s)`. */
  lemma SumPrepend(a: real, s: seq<real>)
    ensures Sum([a] + s) == a + Sum(s)
  {
    SumAppend([a], s);
    assert Sum([a]) == Sum([a][..0]) + a;
  }

  /** Weighting every entry by the same `c` scales the plain sum by `c`. */
  lemma {:induction false} DotConstant(c: real, s: seq<real>)
    ensures Dot(seq(|s|, _ => c), s) == c * Sum(s)
    decreases |s|
  {
    if |s| > 0 {
      var k := |s| - 1;
      assert seq(|s|, _ => c)[..k] == seq(k, _ => c);
      DotConstant(c, s[..k]);
    }
  }

  /** Splitting off the first term of an inner product. */
  lemma {:induction false} DotFirst(a: Vector, b: Vector)
    requires |a| == |b| > 0
    ensures Dot(a, b) == a[0] * b[0] + Dot(a[1..], b[1..])
    decreases |a|
  {
    var k := |a| - 1;
    if k > 0 {
      DotFirst(a[..k], b[..k]);
      assert a[..k][1..] == a[1..][..k - 1];
      assert b[..k][1..] == b[1..][..k - 1];
    }
  }

  /** Entries `p[k]` and `m[k]` that mirror each other about `a` sum, over
      both sequences, to `2 * |p| * a`. */
  lemma {:induction false} SumMirror(p: seq<real>, m: seq<real>, a: real)
    requires |p| == |m|
    requires forall k :: 0 <= k < |p| ==> p[k] + m[k] == 2.0 * a
    ensures Sum(p) + Sum(m) == 2.0 * (|p| as real) * a
    decreases |p|
  {
    if |p| > 0 {
      var k := |p| - 1;
      SumMirror(p[..k], m[..k], a);
    }
  }

  /** The inner product with the zero vector is zero. */
  lemma {:induction false} DotZeros(a: Vector)
    ensures Dot(a, Zeros(|a|)) == 0.0
    decreases |a|
  {
    if |a| > 0 {
      var k := |a| - 1;
      assert Zeros(|a|)[..k] == Zeros(k);
      DotZeros(a[..k]);
    }
  }

  /** The zero vector's inner product with anything is zero. */
  lemma {:induction false} ZerosDot(a: Vector, b: Vector)
    requires |a| == |b| && a == Zeros(|a|)
    ensures Dot(a, b) == 0.0
    decreases |a|
  {
    if |a| > 0 {
      var k := |a| - 1;
      assert a[..k] == Zeros(k);
      ZerosDot(a[..k], b[..k]);
    }
  }

  /** A matrix applied to the zero vector gives the zero vector. */
  lemma MatVecZeros(m: Matrix, n: nat)
    requires AllLen(m, n)
    ensures MatVec(m, Zeros(n)) == Zeros(|m|)
  {
    forall i | 0 <= i < |m| ensures MatVec(m, Zeros(n))[i] == 0.0 {
      DotZeros(m[i]);
    }
  }

  /** `n` copies of `c` sum to `n * c`. */
  lemma {:induction false} SumConstant(n: nat, c: real)
    ensures Sum(seq(n, _ => c)) == (n as real) * c
  {
    if n > 0 {
      assert seq(n, _ => c)[..n - 1] == seq(n - 1, _ => c);
      SumConstant(n - 1, c);
    }
  }

  /** One more term of a weighted sum, as one pass of an accumulation loop
      adds it. */
  lemma WeightedSumStep(w: seq<real>, vs: seq<Vector>, n: nat, i: nat)
    requires |w| == |vs| && AllLen(vs, n) && i < |vs|
    ensures WeightedSum(w[..i + 1], vs[..i + 1], n)
         == VecAdd(WeightedSum(w[..i], vs[..i], n), VecScale(w[i], vs[i]))
  {
    assert w[..i + 1][..i] == w[..i];
    assert vs[..i + 1][..i] == vs[..i];
  }

  /** One more term of a weighted sum of outer products. */
  lemma WeightedOuterSumStep(w: seq<real>, us: seq<Vector>, vs: seq<Vector>, r: nat, c: nat, i: nat)
    requires |w| == |us| == |vs| && AllLen(us, r) && AllLen(vs, c) && i < |w|
    ensures WeightedOuterSum(w[..i + 1], us[..i + 1], vs[..i + 1], r, c)
         == MatAdd(WeightedOuterSum(w[..i], us[..i], vs[..i], r, c), Outer(VecScale(w[i], us[i]), vs[i]))
  {
    assert w[..i + 1][..i] == w[..i];
    assert us[..i + 1][..i] == us[..i];
    assert vs[..i + 1][..i] == vs[..i];
  }

  // ---------------------------------------------------------------------
  // Symmetry of the covariance correction `K * S * K^T`

  /** The inner product is commutative. */
  lemma {:induction false} DotCommutes(a: Vector, b: Vector)
    requires |a| == |b|
    ensures Dot(a, b) == Dot(b, a)
    decreases |a|
  {
    if |a| > 0 {
      DotCommutes(a[..|a| - 1], b[..|b| - 1]);
    }
  }

  /** The inner product distributes over a sum on the right. */
  lemma {:induction false} DotAdd(u: Vector, x: Vector, y: Vector)
    requires |u| == |x| == |y|
    ensures Dot(u, VecAdd(x, y)) == Dot(u, x) + Dot(u, y)
    decreases |u|
  {
    if |u| > 0 {
      var k := |u| - 1;
      assert VecAdd(x, y)[..k] == VecAdd(x[..k], y[..k]);
      DotAdd(u[..k], x[..k], y[..k]);
    }
  }

  /** A scale factor on the right comes out of the inner product. */
  lemma {:induction false} DotScale(u: Vector, c: real, a: Vector)
    requires |u| == |a|
    ensures Dot(u, VecScale(c, a)) == c * Dot(u, a)
    decreases |u|
  {
    if |u| > 0 {
      var k := |u| - 1;
      assert VecScale(c, a)[..k] == VecScale(c, a[..k]) by {
        forall i | 0 <= i < k ensures VecScale(c, a)[..k][i] == VecScale(c, a[..k])[i] {
        }
      }
      DotScale(u[..k], c, a[..k]);
      assert u[k] * (c * a[k]) == c * (u[k] * a[k]);
    }
  }

  /** `A^T v` over the rows of `A` is `A^T v` over all rows but the last,
      plus the last row scaled by the last entry of `v`. */
  lemma TransposeMatVecLast(A: Matrix, v: Vector, c: nat)
    requires AllLen(A, c) && |v| == |A| > 0
    ensures var r := |A| - 1;
      MatVec(Transpose(A, c), v) == VecAdd(MatVec(Transpose(A[..r], c), v[..r]), VecScale(v[r], A[r]))
  {
    var r := |A| - 1;
    var t := MatVec(Transpose(A, c), v);
    var last := VecScale(v[r], A[r]);
    forall k | 0 <= k < c
      ensures t[k] == MatVec(Transpose(A[..r], c), v[..r])[k] + last[k]
    {
      assert Component(A, k)[..r] == Component(A[..r], k);
    }
  }

  /** `(A u) . v == u . (A^T v)`. */
  lemma {:induction false} DotMatVecTranspose(A: Matrix, u: Vector, v: Vector)
    requires AllLen(A, |u|) && |v| == |A|
    ensures Dot(MatVec(A, u), v) == Dot(u, MatVec(Transpose(A, |u|), v))
    decreases |A|
  {
    var c := |u|;
    if |A| == 0 {
      assert MatVec(Transpose(A, c), v) == Zeros(c);
      DotZeros(u);
    } else {
      var r := |A| - 1;
      var last := VecScale(v[r], A[r]);
      DotMatVecTranspose(A[..r], u, v[..r]);
      assert MatVec(A, u)[..r] == MatVec(A[..r], u);
      TransposeMatVecLast(A, v, c);
      DotAdd(u, MatVec(Transpose(A[..r], c), v[..r]), last);
      DotScale(u, v[r], A[r]);
      DotCommutes(u, A[r]);
    }
  }

  /** A symmetric matrix is its own transpose. */
  lemma TransposeSymmetric(S: Matrix)
    requires Symmetric(S)
    ensures Transpose(S, |S|) == S
  {
    forall i | 0 <= i < |S| ensures Transpose(S, |S|)[i] == S[i] {
    }
  }

  /** For symmetric `S`, `(S u) . v == (S v) . u`. */
  lemma SymmetricForm(S: Matrix, u: Vector, v: Vector)
    requires Symmetric(S) && |u| == |S| && |v| == |S|
    ensures Dot(MatVec(S, u), v) == Dot(MatVec(S, v), u)
  {
    DotMatVecTranspose(S, u, v);
    TransposeSymmetric(S);
    DotCommutes(u, MatVec(S, v));
  }

  /** `K * S * K^T` is symmetric whenever `S` is, for any `K` with `|S|`
      columns. */
  lemma SandwichSymmetric(K: Matrix, S: Matrix)
    requires Symmetric(S) && AllLen(K, |S|)
    ensures Symmetric(MatMul(MatMul(K, S, |S|), Transpose(K, |S|), |K|))
  {
    var n := |S|;
    var KS := MatMul(K, S, n);
    var Kt := Transpose(K, n);
    var M := MatMul(KS, Kt, |K|);
    forall i | 0 <= i < |K| ensures KS[i] == MatVec(S, K[i]) {
      forall l | 0 <= l < n ensures KS[i][l] == MatVec(S, K[i])[l] {
        assert Component(S, l) == S[l];
        DotCommutes(K[i], S[l]);
      }
    }
    forall j | 0 <= j < |K| ensures Component(Kt, j) == K[j] {
    }
    forall i, j | 0 <= i < |K| && 0 <= j < |K| ensures M[i][j] == M[j][i] {
      assert M[i][j] == Dot(MatVec(S, K[i]), K[j]);
      assert M[j][i] == Dot(MatVec(S, K[j]), K[i]);
      SymmetricForm(S, K[i], K[j]);
    }
  }

  /** The difference of two symmetric matrices of the same size is
      symmetric. */
  lemma SymmetricSub(a: Matrix, b: Matrix)
    requires Symmetric(a) && Symmetric(b) && |a| == |b|
    ensures SameShape(a, b) && Symmetric(MatSub(a, b))
  {
  }
}
