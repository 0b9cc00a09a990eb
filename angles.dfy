/** Normalisation of an angle difference into [-pi, pi], as the filter does
    for the yaw difference and the radar bearing difference. The value of pi
    is a parameter: any positive real. */
module Angles {

  /** Smallest integer not below `x`. */
  function Ceil(x: real): int {
    -((-x).Floor)
  }

  /** Whole turns (of 2 * pi) that the normalisation adds to `a`: negative
      when `a` lies above pi, positive when it lies below -pi. */
  function Turns(a: real, pi: real): int
    requires pi > 0.0
  {
    if a > pi then -Ceil((a - pi) / (2.0 * pi))
    else if a < -pi then Ceil((-pi - a) / (2.0 * pi))
    else 0
  }

  /** Closed form of the normalisation loops. */
  function WrapToPi(a: real, pi: real): real
    requires pi > 0.0
  {
    a + 2.0 * pi * (Turns(a, pi) as real)
  }

  /** The normalisation of an entry of a vector, in place. */
  function WrapAt(v: seq<real>, k: nat, pi: real): (r: seq<real>)
    requires k < |v| && pi > 0.0
    ensures |r| == |v|
  {
    v[k := WrapToPi(v[k], pi)]
  }

  /** Entry `k` of every vector of `ds` normalised. */
  function WrapEach(ds: seq<seq<real>>, k: nat, pi: real): (r: seq<seq<real>>)
    requires pi > 0.0 && forall i :: 0 <= i < |ds| ==> k < |ds[i]|
    ensures |r| == |ds| && forall i :: 0 <= i < |ds| ==> |r[i]| == |ds[i]|
  {
    seq(|ds|, i requires 0 <= i < |ds| => WrapAt(ds[i], k, pi))
  }

  /** After `WrapEach`, entry `k` of every vector lies in [-pi, pi] and the
      other entries are untouched. */
  lemma WrapEachInRange(ds: seq<seq<real>>, k: nat, pi: real)
    requires pi > 0.0 && forall i :: 0 <= i < |ds| ==> k < |ds[i]|
    ensures forall i :: 0 <= i < |ds| ==> -pi <= WrapEach(ds, k, pi)[i][k] <= pi
    ensures forall i, j :: 0 <= i < |ds| && 0 <= j < |ds[i]| && j != k ==> WrapEach(ds, k, pi)[i][j] == ds[i][j]
  {
    forall i | 0 <= i < |ds| ensures -pi <= WrapEach(ds, k, pi)[i][k] <= pi {
      WrapToPiInRange(ds[i][k], pi);
    }
  }

  /** `d * (Ceil(x / d) - 1) < x <= d * Ceil(x / d)` for positive `d`. */
  lemma ScaledCeil(x: real, d: real)
    requires d > 0.0
    ensures d * ((Ceil(x / d) - 1) as real) < x <= d * (Ceil(x / d) as real)
  {
    var y := x / d;
    var n := Ceil(y) as real;
    assert n - 1.0 < y <= n;
    assert d * y == x;
    ScaleStrict(d, n - 1.0, y);
    ScaleWeak(d, y, n);
  }

  /** Scaling by a positive `d` keeps a strict order. */
  lemma ScaleStrict(d: real, u: real, v: real)
    requires d > 0.0 && u < v
    ensures d * u < d * v
  {
    PositiveProduct(d, v - u);
    assert d * v - d * u == d * (v - u);
  }

  /** Scaling by a positive `d` keeps a weak order. */
  lemma ScaleWeak(d: real, u: real, v: real)
    requires d > 0.0 && u <= v
    ensures d * u <= d * v
  {
    if u < v {
      ScaleStrict(d, u, v);
    }
  }

  lemma PositiveProduct(a: real, b: real)
    requires a > 0.0 && b > 0.0
    ensures a * b > 0.0
  {
  }

  /** Two values that differ by whole turns and lie in the same half-open
      interval of length 2 * pi are equal. */
  lemma SameTurnClass(r1: real, r2: real, m: int, lo: real, pi: real)
    requires pi > 0.0
    requires lo <= r1 <= lo + 2.0 * pi && lo <= r2 <= lo + 2.0 * pi
    requires r1 != lo + 2.0 * pi || r2 != lo
    requires r2 != lo + 2.0 * pi || r1 != lo
    requires r1 - r2 == 2.0 * pi * (m as real)
    ensures r1 == r2
  {
    WholeMultiple(2.0 * pi, m as real);
    assert m == 0;
  }

  /** A positive `p` times a number at least one in size is at least `p` in
      size. */
  lemma WholeMultiple(p: real, q: real)
    requires p > 0.0
    ensures q >= 1.0 ==> p * q >= p
    ensures q <= -1.0 ==> p * q <= -p
  {
    if q >= 1.0 {
      NonNegativeProduct(p, q - 1.0);
    } else if q <= -1.0 {
      NonNegativeProduct(p, -1.0 - q);
    }
  }

  lemma NonNegativeProduct(a: real, b: real)
    requires a >= 0.0 && b >= 0.0
    ensures a * b >= 0.0
  {
  }

  /** The normalised angle lies in [-pi, pi]; from above pi it lands in
      (-pi, pi], from below -pi in [-pi, pi). */
  lemma WrapToPiInRange(a: real, pi: real)
    requires pi > 0.0
    ensures -pi <= WrapToPi(a, pi) <= pi
    ensures a > pi ==> -pi < WrapToPi(a, pi)
    ensures a < -pi ==> WrapToPi(a, pi) < pi
  {
    if a > pi {
      ScaledCeil(a - pi, 2.0 * pi);
    } else if a < -pi {
      ScaledCeil(-pi - a, 2.0 * pi);
    }
  }

  /** An angle already in [-pi, pi] is left unchanged. */
  lemma WrapToPiFixes(a: real, pi: real)
    requires pi > 0.0 && -pi <= a <= pi
    ensures WrapToPi(a, pi) == a
  {
  }

  /** The normalised angle differs from the input by an integer multiple of
      2 * pi. */
  lemma WrapToPiShift(a: real, pi: real)
    requires pi > 0.0
    ensures WrapToPi(a, pi) - a == 2.0 * (Turns(a, pi) as real) * pi
  {
  }

  /** Whatever angle in the right interval the loops reach by whole turns is
      the closed form. */
  lemma WrapToPiUnique(a: real, r: real, m: int, pi: real)
    requires pi > 0.0
    requires r == a + 2.0 * pi * (m as real)
    requires -pi <= r <= pi
    requires a > pi ==> -pi < r
    requires a < -pi ==> r < pi
    requires -pi <= a <= pi ==> r == a
    ensures r == WrapToPi(a, pi)
  {
    WrapToPiInRange(a, pi);
    var w := WrapToPi(a, pi);
    if a > pi {
      SameTurnClass(r, w, m - Turns(a, pi), -pi, pi);
    } else if a < -pi {
      SameTurnClass(r, w, m - Turns(a, pi), -pi, pi);
    }
  }

  /** Four turns plus a small angle normalise back to that angle. */
  lemma WrapFourPiPlusTenth(pi: real)
    requires pi >= 0.1
    ensures WrapToPi(4.0 * pi + 0.1, pi) == 0.1
  {
    WrapToPiUnique(4.0 * pi + 0.1, 0.1, -2, pi);
  }

  /** The pair of `while` loops that the filter writes out at each site:
      subtract 2 * pi while above pi, then add 2 * pi while below -pi. */
  method NormalizeAngle(a: real, pi: real) returns (r: real)
    requires pi > 0.0
    ensures r == WrapToPi(a, pi)
  {
    var s;
    ghost var down, up;
    s, down := SubtractTurns(a, pi);
    r, up := AddTurns(s, pi);
    AddTurnCounts(a, pi, down, up);
    WrapToPiUnique(a, r, down + up, pi);
  }

  /** The first loop: subtract 2 * pi while the angle is above pi. It removes
      `-down` whole turns, leaves the angle at most pi, and above -pi when it
      removed any. */
  method SubtractTurns(a: real, pi: real) returns (r: real, ghost down: int)
    requires pi > 0.0
    ensures r == a + 2.0 * pi * (down as real) && down <= 0 && r <= pi
    ensures down < 0 ==> r > -pi
    ensures a <= pi ==> down == 0 && r == a
  {
    ghost var last := if a > pi then Turns(a, pi) else 0;
    WrapToPiInRange(a, pi);
    r := a;
    down := 0;
    while r > pi
      invariant r == a + 2.0 * pi * (down as real)
      invariant last <= down <= 0
      invariant down == last ==> r <= pi
      invariant down < 0 ==> r > -pi
      invariant a <= pi ==> down == 0
      decreases down - last
    {
      TurnStep(a, pi, down - 1);
      r := r - 2.0 * pi;
      down := down - 1;
    }
  }

  /** The second loop: add 2 * pi while the angle is below -pi. Started at
      most pi, it adds `up` whole turns, ends in [-pi, pi], below pi when it
      added any. */
  method AddTurns(a: real, pi: real) returns (r: real, ghost up: int)
    requires pi > 0.0 && a <= pi
    ensures r == a + 2.0 * pi * (up as real) && up >= 0 && -pi <= r <= pi
    ensures up > 0 ==> r < pi
    ensures -pi <= a ==> up == 0 && r == a
  {
    ghost var last := if a < -pi then Turns(a, pi) else 0;
    WrapToPiInRange(a, pi);
    r := a;
    up := 0;
    while r < -pi
      invariant r == a + 2.0 * pi * (up as real)
      invariant 0 <= up <= last
      invariant up == last ==> -pi <= r
      invariant r <= pi && (up > 0 ==> r < pi)
      invariant -pi <= a ==> up == 0
      decreases last - up
    {
      TurnStep(a, pi, up);
      r := r + 2.0 * pi;
      up := up + 1;
    }
  }

  /** Turns removed and turns added combine. */
  lemma AddTurnCounts(a: real, pi: real, down: int, up: int)
    ensures a + 2.0 * pi * (down as real) + 2.0 * pi * (up as real) == a + 2.0 * pi * ((down + up) as real)
  {
  }

  /** One more turn of 2 * pi. */
  lemma TurnStep(a: real, pi: real, k: int)
    ensures a + 2.0 * pi * (k as real) + 2.0 * pi == a + 2.0 * pi * ((k + 1) as real)
  {
  }
}
