// The quadratic Bezier sampler of the demo: evaluate the Bernstein form at
// t = 0, 0.01, 0.02, ... while t <= 1 and flatten the resulting vectors into
// one coordinate list x0, y0, x1, y1, ... ready for a vertex buffer.
//
// Arithmetic is over the reals. With exact arithmetic the accumulated t hits
// 1 exactly, so the loop emits 101 vectors and the last one is C; the original
// accumulates in binary floating point, where the hundredth addition of 0.01
// lands just above 1, so it most likely emits 100 vectors and stops near
// t = 0.99. Everything below is about the exact-arithmetic loop.
module CurveSampler {
  import opened Vectors

  /** The increment added to t after each sample. */
  const STEP: real := 0.01

  /** The number of vectors the loop emits when t is accumulated exactly. */
  const SAMPLE_COUNT: nat := 101

  /** Quadratic Bezier point (1-t)^2 A + 2t(1-t) B + t^2 C, built the way the original builds it. */
  function Bez(a: Vec2, b: Vec2, c: Vec2, t: real): (r: Vec2)
    ensures t == 0.0 ==> r == a
    ensures t == 1.0 ==> r == c
    ensures t == 0.5 ==> r == Vec2(0.25 * a.x + 0.5 * b.x + 0.25 * c.x,
                                   0.25 * a.y + 0.5 * b.y + 0.25 * c.y)
  {
    Add(Add(Scale((1.0 - t) * (1.0 - t), a), Scale(2.0 * t * (1.0 - t), b)), Scale(t * t, c))
  }

  /** The value of t at the k-th pass through the loop. */
  function Param(k: nat): (t: real)
    requires k < SAMPLE_COUNT
    ensures 0.0 <= t <= 1.0
    ensures k == 0 ==> t == 0.0
    ensures k == SAMPLE_COUNT - 1 ==> t == 1.0
  {
    k as real * STEP
  }

  /** The vectors the sampling loop emits, in order. */
  function Samples(a: Vec2, b: Vec2, c: Vec2): seq<Vec2> {
    seq(SAMPLE_COUNT, k requires 0 <= k < SAMPLE_COUNT => Bez(a, b, c, Param(k)))
  }

  /** Vectors written out coordinate by coordinate, in order: position i holds coordinate i % 2 of vector i / 2. */
  function Flatten(vs: seq<Vec2>): (r: seq<real>) {
    seq(2 * |vs|, i requires 0 <= i < 2 * |vs| => Coords(vs[i / 2])[i % 2])
  }

  /** Consecutive coordinate pairs read back as vectors (how a two-component vertex attribute reads the buffer). */
  function Unflatten(points: seq<real>): (r: seq<Vec2>)
    requires |points| % 2 == 0
  {
    seq(|points| / 2, k requires 0 <= k < |points| / 2 => Vec2(points[2 * k], points[2 * k + 1]))
  }

  /** The coordinate list returned for control points a, b, c. */
  function Curve(a: Vec2, b: Vec2, c: Vec2): seq<real> {
    Flatten(Samples(a, b, c))
  }

  /** The sampler as the original runs it: a while loop over t, then nested loops that flatten. */
  method PointsOnTheCurve(a: Vec2, b: Vec2, c: Vec2) returns (points: seq<real>)
    ensures points == Curve(a, b, c)
  {
    var t := 0.0;
    var vectors: seq<Vec2> := [];
    while t <= 1.0
      invariant |vectors| <= SAMPLE_COUNT
      invariant t == |vectors| as real * STEP
      invariant vectors == Samples(a, b, c)[..|vectors|]
      decreases SAMPLE_COUNT - |vectors|
    {
      vectors := vectors + [Bez(a, b, c, t)];
      t := t + 0.01;
    }
    assert vectors == Samples(a, b, c);
    points := [];
    var i := 0;
    while i < |vectors|
      invariant 0 <= i <= |vectors|
      invariant points == Flatten(vectors[..i])
    {
      var j := 0;
      while j < |Coords(vectors[i])|
        invariant 0 <= j <= 2
        invariant points == Flatten(vectors[..i]) + Coords(vectors[i])[..j]
      {
        points := points + [Coords(vectors[i])[j]];
        j := j + 1;
      }
      assert vectors[..i + 1] == vectors[..i] + [vectors[i]];
      FlattenSnoc(vectors[..i], vectors[i]);
      i := i + 1;
    }
    assert vectors[..i] == vectors;
  }

  // ---------------------------------------------------------------------
  // Flattening

  /** Vector k lands at positions 2k and 2k+1 of the flat list, which has two entries per vector. */
  lemma FlattenAt(vs: seq<Vec2>, k: nat)
    requires k < |vs|
    ensures |Flatten(vs)| == 2 * |vs|
    ensures Flatten(vs)[2 * k] == vs[k].x && Flatten(vs)[2 * k + 1] == vs[k].y
  {
    assert (2 * k) / 2 == k && (2 * k) % 2 == 0;
    assert (2 * k + 1) / 2 == k && (2 * k + 1) % 2 == 1;
  }

  /** Flattening one more vector appends its two coordinates: the flat list is built in order. */
  lemma FlattenSnoc(vs: seq<Vec2>, v: Vec2)
    ensures Flatten(vs + [v]) == Flatten(vs) + Coords(v)
  {
    var l, r := Flatten(vs + [v]), Flatten(vs) + Coords(v);
    forall i | 0 <= i < |l|
      ensures l[i] == r[i]
    {
      if i < 2 * |vs| {
        assert (vs + [v])[i / 2] == vs[i / 2];
      } else {
        assert i / 2 == |vs|;
      }
    }
  }

  /** Reading the flat list back as pairs gives the original vectors. */
  lemma UnflattenFlatten(vs: seq<Vec2>)
    ensures |Flatten(vs)| % 2 == 0 && Unflatten(Flatten(vs)) == vs
  {
    var u := Unflatten(Flatten(vs));
    forall k | 0 <= k < |vs|
      ensures u[k] == vs[k]
    {
      FlattenAt(vs, k);
    }
  }

  /** Any even-length coordinate list is the flattening of its pairs. */
  lemma FlattenUnflatten(points: seq<real>)
    requires |points| % 2 == 0
    ensures Flatten(Unflatten(points)) == points
  {
    var f := Flatten(Unflatten(points));
    forall i | 0 <= i < |points|
      ensures f[i] == points[i]
    {
      var k := i / 2;
      assert i == 2 * k || i == 2 * k + 1;
    }
  }

  // ---------------------------------------------------------------------
  // The sampled curve

  /** The curve has two coordinates per sample, and sample k is the Bezier point at t = k * 0.01. */
  lemma CurveAt(a: Vec2, b: Vec2, c: Vec2, k: nat)
    requires k < SAMPLE_COUNT
    ensures |Curve(a, b, c)| == 2 * SAMPLE_COUNT
    ensures Curve(a, b, c)[2 * k] == Bez(a, b, c, k as real * 0.01).x
    ensures Curve(a, b, c)[2 * k + 1] == Bez(a, b, c, k as real * 0.01).y
  {
    FlattenAt(Samples(a, b, c), k);
  }

  /** The curve starts at the first control point. */
  lemma CurveStartsAtFirst(a: Vec2, b: Vec2, c: Vec2)
    ensures Curve(a, b, c)[0] == a.x && Curve(a, b, c)[1] == a.y
  {
    CurveAt(a, b, c, 0);
  }

  /** With exact arithmetic the curve ends at the third control point. */
  lemma CurveEndsAtLast(a: Vec2, b: Vec2, c: Vec2)
    ensures |Curve(a, b, c)| == 202
    ensures Curve(a, b, c)[200] == c.x && Curve(a, b, c)[201] == c.y
  {
    CurveAt(a, b, c, 100);
  }

  /** Swapping the end points traverses the same curve backwards: B(A, B, C, t) == B(C, B, A, 1 - t). */
  lemma BezReversed(a: Vec2, b: Vec2, c: Vec2, t: real)
    ensures Bez(a, b, c, t) == Bez(c, b, a, 1.0 - t)
  {
  }

  /** Sampling (C, B, A) gives the samples of (A, B, C) in reverse order. */
  lemma SamplesReversed(a: Vec2, b: Vec2, c: Vec2)
    ensures forall k :: 0 <= k < SAMPLE_COUNT ==>
      Samples(c, b, a)[k] == Samples(a, b, c)[SAMPLE_COUNT - 1 - k]
  {
    forall k | 0 <= k < SAMPLE_COUNT
      ensures Samples(c, b, a)[k] == Samples(a, b, c)[SAMPLE_COUNT - 1 - k]
    {
      assert Param(SAMPLE_COUNT - 1 - k) == 1.0 - Param(k);
      BezReversed(a, b, c, Param(SAMPLE_COUNT - 1 - k));
    }
  }

  // ---------------------------------------------------------------------
  // Convex hull: the curve stays inside any box that holds its control points

  lemma MulNonNegative(u: real, v: real)
    requires u >= 0.0 && v >= 0.0
    ensures u * v >= 0.0
  {
  }

  /** The three Bernstein weights of degree 2 are non-negative on [0, 1] and sum to 1. */
  lemma BernsteinWeights(t: real)
    requires 0.0 <= t <= 1.0
    ensures (1.0 - t) * (1.0 - t) >= 0.0 && 2.0 * t * (1.0 - t) >= 0.0 && t * t >= 0.0
    ensures (1.0 - t) * (1.0 - t) + 2.0 * t * (1.0 - t) + t * t == 1.0
  {
    MulNonNegative(1.0 - t, 1.0 - t);
    MulNonNegative(2.0 * t, 1.0 - t);
    MulNonNegative(t, t);
  }

  lemma ConvexCombination(w0: real, w1: real, w2: real, p: real, q: real, r: real, lo: real, hi: real)
    requires w0 >= 0.0 && w1 >= 0.0 && w2 >= 0.0 && w0 + w1 + w2 == 1.0
    requires lo <= p <= hi && lo <= q <= hi && lo <= r <= hi
    ensures lo <= w0 * p + w1 * q + w2 * r <= hi
  {
    MulNonNegative(w0, p - lo);
    MulNonNegative(w1, q - lo);
    MulNonNegative(w2, r - lo);
    MulNonNegative(w0, hi - p);
    MulNonNegative(w1, hi - q);
    MulNonNegative(w2, hi - r);
    assert (w0 + w1 + w2) * lo == lo && (w0 + w1 + w2) * hi == hi;
  }

  /** The point lies in the axis-aligned box [lx, hx] x [ly, hy]. */
  predicate InBox(v: Vec2, lx: real, hx: real, ly: real, hy: real) {
    lx <= v.x <= hx && ly <= v.y <= hy
  }

  /** A Bezier point for t in [0, 1] lies in every axis-aligned box containing the three control points. */
  lemma BezInBox(a: Vec2, b: Vec2, c: Vec2, t: real, lx: real, hx: real, ly: real, hy: real)
    requires 0.0 <= t <= 1.0
    requires InBox(a, lx, hx, ly, hy) && InBox(b, lx, hx, ly, hy) && InBox(c, lx, hx, ly, hy)
    ensures InBox(Bez(a, b, c, t), lx, hx, ly, hy)
  {
    BernsteinWeights(t);
    var w0, w1, w2 := (1.0 - t) * (1.0 - t), 2.0 * t * (1.0 - t), t * t;
    BezAsCombination(a, b, c, t, w0, w1, w2);
    CombinationInBox(w0, w1, w2, a, b, c, lx, hx, ly, hy);
  }

  lemma CombinationInBox(w0: real, w1: real, w2: real, a: Vec2, b: Vec2, c: Vec2, lx: real, hx: real, ly: real, hy: real)
    requires w0 >= 0.0 && w1 >= 0.0 && w2 >= 0.0 && w0 + w1 + w2 == 1.0
    requires InBox(a, lx, hx, ly, hy) && InBox(b, lx, hx, ly, hy) && InBox(c, lx, hx, ly, hy)
    ensures InBox(Vec2(w0 * a.x + w1 * b.x + w2 * c.x, w0 * a.y + w1 * b.y + w2 * c.y), lx, hx, ly, hy)
  {
    ConvexCombination(w0, w1, w2, a.x, b.x, c.x, lx, hx);
    ConvexCombination(w0, w1, w2, a.y, b.y, c.y, ly, hy);
  }

  lemma BezAsCombination(a: Vec2, b: Vec2, c: Vec2, t: real, w0: real, w1: real, w2: real)
    requires w0 == (1.0 - t) * (1.0 - t) && w1 == 2.0 * t * (1.0 - t) && w2 == t * t
    ensures Bez(a, b, c, t) == Vec2(w0 * a.x + w1 * b.x + w2 * c.x, w0 * a.y + w1 * b.y + w2 * c.y)
  {
  }

  /**
   * When all control points lie in the box [lx, hx] x [ly, hy], every x the
   * sampler returns (even positions) is in [lx, hx] and every y (odd
   * positions) is in [ly, hy].
   */
  lemma CurveInBox(a: Vec2, b: Vec2, c: Vec2, lx: real, hx: real, ly: real, hy: real)
    requires InBox(a, lx, hx, ly, hy) && InBox(b, lx, hx, ly, hy) && InBox(c, lx, hx, ly, hy)
    ensures forall i :: 0 <= i < |Curve(a, b, c)| && i % 2 == 0 ==> lx <= Curve(a, b, c)[i] <= hx
    ensures forall i :: 0 <= i < |Curve(a, b, c)| && i % 2 == 1 ==> ly <= Curve(a, b, c)[i] <= hy
  {
    var pts := Curve(a, b, c);
    forall i | 0 <= i < |pts|
      ensures i % 2 == 0 ==> lx <= pts[i] <= hx
      ensures i % 2 == 1 ==> ly <= pts[i] <= hy
    {
      var k := i / 2;
      CurveAt(a, b, c, k);
      BezInBox(a, b, c, Param(k), lx, hx, ly, hy);
    }
  }
}
