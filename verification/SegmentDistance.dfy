/** Closest points of two segments (geometry/connectivity.py, _segment_distance), with squared distances. */
module SegmentDistance {
  import opened Geometry
  import opened RealArithmetic

  const EPSILON := 0.000000000001

  function Clamp(v: real): (r: real)
    ensures 0.0 <= r <= 1.0
  {
    Min(Max(v, 0.0), 1.0)
  }

  /** The squared distance of p1 + d1*s and p2 + d2*t as a quadratic form in s and t, where
      a = d1.d1, b = d1.d2, c = d1.r, e = d2.d2, f = d2.r, w = r.r and r = p1 - p2. */
  datatype Form = Form(a: real, b: real, c: real, e: real, f: real, w: real)

  function Value(k: Form, s: real, t: real): real {
    k.a * s * s - 2.0 * k.b * s * t + k.e * t * t + 2.0 * k.c * s - 2.0 * k.f * t + k.w
  }

  function FormOf(p1: Vec, q1: Vec, p2: Vec, q2: Vec): Form {
    FormFrom(Sub(q1, p1), Sub(q2, p2), Sub(p1, p2))
  }

  function SquaredDistanceAt(p1: Vec, q1: Vec, p2: Vec, q2: Vec, s: real, t: real): real {
    var v := Sub(Add(p1, Scale(Sub(q1, p1), s)), Add(p2, Scale(Sub(q2, p2), t)));
    Dot(v, v)
  }

  /** The square of a difference of sums, term by term. */
  lemma SquareOfSum(v: real, z: real, u: real, w: real)
    requires v == z + u - w
    ensures v * v == u * u - 2.0 * (u * w) + w * w + 2.0 * (z * u) - 2.0 * (z * w) + z * z
  {
  }

  lemma Regroup(u: real, x: real, s: real, w: real, y: real, t: real) returns (p: real)
    requires u == x * s && w == y * t
    ensures p == u * w && p == (x * y) * (s * t)
  {
    p := u * w;
  }

  /** One axis of the squared distance, in named products. */
  lemma AxisSquare(v: real, x: real, y: real, z: real, s: real, t: real)
    returns (a: real, b: real, c: real, e: real, f: real, w: real)
    requires v == z + x * s - y * t
    ensures a == (x * x) * (s * s) && b == (x * y) * (s * t) && e == (y * y) * (t * t)
    ensures c == (x * z) * s && f == (y * z) * t && w == z * z
    ensures v * v == a - 2.0 * b + e + 2.0 * c - 2.0 * f + w
  {
    var u, r := x * s, y * t;
    SquareOfSum(v, z, u, r);
    a := Regroup(u, x, s, u, x, s);
    b := Regroup(u, x, s, r, y, t);
    e := Regroup(r, y, t, r, y, t);
    c, f, w := z * u, z * r, z * z;
  }

  lemma ValueTerms(k: Form, s: real, t: real) returns (a: real, b: real, c: real, e: real, f: real)
    ensures a == k.a * (s * s) && b == k.b * (s * t) && c == k.c * s && e == k.e * (t * t) && f == k.f * t
    ensures Value(k, s, t) == a - 2.0 * b + e + 2.0 * c - 2.0 * f + k.w
  {
    a, b, c, e, f := k.a * (s * s), k.b * (s * t), k.c * s, k.e * (t * t), k.f * t;
  }

  /** The form of two directions and an offset. */
  function FormFrom(d: Vec, g: Vec, r: Vec): Form { Form(Dot(d, d), Dot(d, g), Dot(d, r), Dot(g, g), Dot(g, r), Dot(r, r)) }

  /** The form of one axis, and the sum of three forms. */
  function AxisForm(x: real, y: real, z: real): Form { Form(x * x, x * y, x * z, y * y, y * z, z * z) }

  function Joined(p: Form, q: Form, r: Form): Form {
    Form(p.a + q.a + r.a, p.b + q.b + r.b, p.c + q.c + r.c, p.e + q.e + r.e, p.f + q.f + r.f, p.w + q.w + r.w)
  }

  lemma AxisValue(v: real, x: real, y: real, z: real, s: real, t: real)
    requires v == z + x * s - y * t
    ensures v * v == Value(AxisForm(x, y, z), s, t)
  {
    hide Value;
    var a, b, c, e, f, w := AxisSquare(v, x, y, z, s, t);
    var a', b', c', e', f' := ValueTerms(AxisForm(x, y, z), s, t);
  }

  /** The form as a linear function of its coefficients. */
  function Linear(k: Form, ss: real, st: real, tt: real, s: real, t: real): real {
    k.a * ss - 2.0 * (k.b * st) + k.e * tt + 2.0 * (k.c * s) - 2.0 * (k.f * t) + k.w
  }

  lemma ValueIsLinear(k: Form, s: real, t: real)
    ensures Value(k, s, t) == Linear(k, s * s, s * t, t * t, s, t)
  {
    hide Value;
    var a, b, c, e, f := ValueTerms(k, s, t);
  }

  lemma Distribute(p: real, q: real, r: real, m: real)
    ensures (p + q + r) * m == p * m + q * m + r * m
  {
  }

  lemma LinearJoins(p: Form, q: Form, r: Form, ss: real, st: real, tt: real, s: real, t: real)
    ensures Linear(Joined(p, q, r), ss, st, tt, s, t) == Linear(p, ss, st, tt, s, t) + Linear(q, ss, st, tt, s, t) + Linear(r, ss, st, tt, s, t)
  {
    Distribute(p.a, q.a, r.a, ss);
    Distribute(p.b, q.b, r.b, st);
    Distribute(p.c, q.c, r.c, s);
    Distribute(p.e, q.e, r.e, tt);
    Distribute(p.f, q.f, r.f, t);
  }

  lemma ValueJoins(p: Form, q: Form, r: Form, s: real, t: real)
    ensures Value(Joined(p, q, r), s, t) == Value(p, s, t) + Value(q, s, t) + Value(r, s, t)
  {
    hide Value, Linear, Joined;
    ValueIsLinear(Joined(p, q, r), s, t);
    ValueIsLinear(p, s, t);
    ValueIsLinear(q, s, t);
    ValueIsLinear(r, s, t);
    LinearJoins(p, q, r, s * s, s * t, t * t, s, t);
  }

  lemma FormJoins(d: Vec, g: Vec, r: Vec)
    ensures FormFrom(d, g, r) == Joined(AxisForm(d.x, g.x, r.x), AxisForm(d.y, g.y, r.y), AxisForm(d.z, g.z, r.z))
  {
    hide Dot;
    DotIs(d, d);
    DotIs(d, g);
    DotIs(d, r);
    DotIs(g, g);
    DotIs(g, r);
    DotIs(r, r);
  }

  lemma DotIs(u: Vec, v: Vec)
    ensures Dot(u, v) == u.x * v.x + u.y * v.y + u.z * v.z
  {
  }

  lemma OffsetIsForm(d: Vec, g: Vec, r: Vec, v: Vec, s: real, t: real)
    requires v.x == r.x + d.x * s - g.x * t && v.y == r.y + d.y * s - g.y * t && v.z == r.z + d.z * s - g.z * t
    ensures Dot(v, v) == Value(FormFrom(d, g, r), s, t)
  {
    hide Value, FormFrom, Joined, AxisForm;
    FormJoins(d, g, r);
    ValueJoins(AxisForm(d.x, g.x, r.x), AxisForm(d.y, g.y, r.y), AxisForm(d.z, g.z, r.z), s, t);
    AxisValue(v.x, d.x, g.x, r.x, s, t);
    AxisValue(v.y, d.y, g.y, r.y, s, t);
    AxisValue(v.z, d.z, g.z, r.z, s, t);
  }

  lemma DistanceIsForm(p1: Vec, q1: Vec, p2: Vec, q2: Vec, s: real, t: real)
    ensures SquaredDistanceAt(p1, q1, p2, q2, s, t) == Value(FormOf(p1, q1, p2, q2), s, t)
  {
    hide Value, Dot;
    var d, g, r := Sub(q1, p1), Sub(q2, p2), Sub(p1, p2);
    OffsetIsForm(d, g, r, Sub(Add(p1, Scale(d, s)), Add(p2, Scale(g, t))), s, t);
  }

  // ---- One-dimensional minimisation ------------------------------------------------------

  /** The clamped quotient, or nothing to move along. */
  function Vertex(numerator: real, denominator: real): real {
    if denominator == 0.0 then 0.0 else Clamp(numerator / denominator)
  }

  lemma VertexOf(numerator: real, denominator: real)
    requires denominator > 0.0
    ensures Vertex(numerator, denominator) == Clamp(numerator / denominator)
  {
  }

  /** The difference of two points of a parabola, by its vertex. */
  lemma ParabolaFactors(alpha: real, beta: real, vertex: real, s: real, m: real)
    requires alpha * vertex == -beta
    ensures alpha * s * s + 2.0 * beta * s - (alpha * m * m + 2.0 * beta * m) == alpha * ((s - m) * (s + m - 2.0 * vertex))
  {
    assert beta * s == -(alpha * vertex * s) && beta * m == -(alpha * vertex * m);
  }

  lemma ClampNearest(vertex: real, s: real)
    requires 0.0 <= s <= 1.0
    ensures (s - Clamp(vertex)) * (s + Clamp(vertex) - 2.0 * vertex) >= 0.0
  {
    var m := Clamp(vertex);
    if vertex < 0.0 {
      ProductNonNegative(s, s - 2.0 * vertex, s * (s - 2.0 * vertex));
    } else if vertex > 1.0 {
      ProductNonNegative(1.0 - s, 2.0 * vertex - s - 1.0, (1.0 - s) * (2.0 * vertex - s - 1.0));
      SameProduct(s, vertex);
    } else {
      var square := Square(s - vertex);
    }
  }

  lemma SameProduct(s: real, vertex: real)
    ensures (s - 1.0) * (s + 1.0 - 2.0 * vertex) == (1.0 - s) * (2.0 * vertex - s - 1.0)
  {
  }

  /** Clamping the vertex minimises an upward parabola over the unit interval. */
  lemma ClampMinimises(alpha: real, beta: real, s: real)
    requires alpha > 0.0 && 0.0 <= s <= 1.0
    ensures
      var m := Vertex(-beta, alpha);
      alpha * m * m + 2.0 * beta * m <= alpha * s * s + 2.0 * beta * s
  {
    hide Clamp, Vertex;
    var vertex := -beta / alpha;
    assert alpha * vertex == -beta;
    VertexOf(-beta, alpha);
    var m := Vertex(-beta, alpha);
    ParabolaFactors(alpha, beta, vertex, s, m);
    ClampNearest(vertex, s);
    var gap := (s - m) * (s + m - 2.0 * vertex);
    ProductNonNegative(alpha, gap, alpha * gap);
  }

  // ---- The inner minimum over t ----------------------------------------------------------

  function BestT(k: Form, s: real): real
    requires k.e > 0.0
  {
    (k.b * s + k.f) / k.e
  }

  lemma BestTMinimises(k: Form, s: real, t: real)
    requires k.e > 0.0
    ensures Value(k, s, BestT(k, s)) <= Value(k, s, t)
  {
    var m := BestT(k, s);
    assert k.e * m == k.b * s + k.f;
    assert Value(k, s, t) - Value(k, s, m) == k.e * ((t - m) * (t - m)) by {
      assert Value(k, s, t) - Value(k, s, m)
          == k.e * t * t - k.e * m * m - 2.0 * (k.b * s + k.f) * (t - m);
    }
    var square := Square(t - m);
  }

  lemma CompleteSquare(e: real, m: real, g: real, p: real)
    requires e * m == g
    ensures e * (p + e * m * m - 2.0 * g * m) == e * p - g * g
  {
    assert e * (e * m * m) == (e * m) * (e * m);
    assert e * (g * m) == g * (e * m);
  }

  /** e times the minimum over t, with the t-free part of the form called p and the t-slope called g. */
  lemma ScaledMinimum(k: Form, s: real, g: real, p: real)
    requires k.e > 0.0 && g == k.b * s + k.f && p == k.a * s * s + 2.0 * k.c * s + k.w
    ensures k.e * Value(k, s, g / k.e) == k.e * p - g * g
  {
    var m := g / k.e;
    assert g * m == k.b * s * m + k.f * m;
    assert Value(k, s, m) == p + k.e * m * m - 2.0 * g * m;
    CompleteSquare(k.e, m, g, p);
  }

  lemma Discriminant(k: Form, alpha: real, beta: real, s: real, g: real, p: real)
    requires alpha == k.a * k.e - k.b * k.b && beta == k.c * k.e - k.b * k.f
    requires g == k.b * s + k.f && p == k.a * s * s + 2.0 * k.c * s + k.w
    ensures k.e * p - g * g == alpha * s * s + 2.0 * beta * s + (k.e * k.w - k.f * k.f)
  {
    assert g * g == k.b * k.b * s * s + 2.0 * (k.b * k.f) * s + k.f * k.f;
    assert k.e * p == k.a * k.e * s * s + 2.0 * (k.c * k.e) * s + k.e * k.w;
  }

  /** The minimum over t, scaled by e, is a parabola in s with leading coefficient ae - bb. */
  lemma MinimumAlongS(k: Form, alpha: real, beta: real, s: real)
    requires k.e > 0.0 && alpha == k.a * k.e - k.b * k.b && beta == k.c * k.e - k.b * k.f
    ensures k.e * Value(k, s, BestT(k, s)) == alpha * s * s + 2.0 * beta * s + (k.e * k.w - k.f * k.f)
  {
    var g, p := k.b * s + k.f, k.a * s * s + 2.0 * k.c * s + k.w;
    assert BestT(k, s) == g / k.e;
    hide Value, BestT;
    ScaledMinimum(k, s, g, p);
    Discriminant(k, alpha, beta, s, g, p);
  }

  /** What Cauchy-Schwarz says of the coefficients; on parallel segments the linear term vanishes too. */
  predicate Gram(k: Form) {
    && k.a >= 0.0 && k.e >= 0.0 && k.a * k.e >= k.b * k.b
    && (k.a * k.e == k.b * k.b ==> k.c * k.e == k.b * k.f)
    && (k.e == 0.0 ==> k.b == 0.0)
  }

  function BestS(k: Form): real { Vertex(Numerator(k), Denominator(k)) }

  function Numerator(k: Form): real { k.b * k.f - k.c * k.e }

  function Denominator(k: Form): real { k.a * k.e - k.b * k.b }

  /** (BestS, its best t) minimises over the strip 0 <= s <= 1 with t unrestricted. */
  lemma StripMinimum(k: Form, s: real, t: real)
    requires Gram(k) && k.e > 0.0 && 0.0 <= s <= 1.0
    ensures Value(k, BestS(k), BestT(k, BestS(k))) <= Value(k, s, t)
  {
    BestTMinimises(k, s, t);
    StripAlongS(k, s);
  }

  lemma StripAlongS(k: Form, s: real)
    requires Gram(k) && k.e > 0.0 && 0.0 <= s <= 1.0
    ensures Value(k, BestS(k), BestT(k, BestS(k))) <= Value(k, s, BestT(k, s))
  {
    hide Value, BestT, BestS;
    var alpha, beta := k.a * k.e - k.b * k.b, k.c * k.e - k.b * k.f;
    MinimumAlongS(k, alpha, beta, s);
    MinimumAlongS(k, alpha, beta, BestS(k));
    BestSMinimises(k, alpha, beta, s);
    Compare(k.e, alpha * s * s + 2.0 * beta * s, alpha * BestS(k) * BestS(k) + 2.0 * beta * BestS(k),
            k.e * k.w - k.f * k.f, Value(k, s, BestT(k, s)), Value(k, BestS(k), BestT(k, BestS(k))));
  }

  lemma SameVertex(n: real, d: real, m: real, e: real)
    requires n == m && d == e
    ensures Vertex(n, d) == Vertex(m, e)
  {
  }

  lemma VertexIs(k: Form, alpha: real, beta: real)
    requires alpha == k.a * k.e - k.b * k.b && beta == k.c * k.e - k.b * k.f
    ensures BestS(k) == Vertex(-beta, alpha)
  {
    hide Vertex;
    SameVertex(Numerator(k), Denominator(k), -beta, alpha);
  }

  lemma BestSMinimises(k: Form, alpha: real, beta: real, s: real)
    requires Gram(k) && 0.0 <= s <= 1.0 && alpha == k.a * k.e - k.b * k.b && beta == k.c * k.e - k.b * k.f
    ensures alpha * BestS(k) * BestS(k) + 2.0 * beta * BestS(k) <= alpha * s * s + 2.0 * beta * s
  {
    hide Vertex, BestS;
    if alpha > 0.0 {
      VertexIs(k, alpha, beta);
      ClampMinimises(alpha, beta, s);
    } else {
      assert alpha == 0.0 && beta == 0.0;
    }
  }

  lemma Compare(e: real, high: real, low: real, rest: real, x: real, y: real)
    requires e > 0.0 && e * x == high + rest && e * y == low + rest && low <= high
    ensures y <= x
  {
    Cancel(e, y, x);
  }

  lemma Cancel(e: real, x: real, y: real)
    requires e > 0.0 && e * x <= e * y
    ensures x <= y
  {
    if x > y {
      ProductPositive(e, x - y, e * (x - y));
      assert false;
    }
  }

  // ---- Convexity and the re-clamped cases ------------------------------------------------

  /** The second-order part of the form. */
  function Quadratic(k: Form, x: real, y: real): real { k.a * x * x - 2.0 * k.b * x * y + k.e * y * y }

  lemma QuadraticIdentity(a: real, b: real, e: real, x: real, y: real)
    ensures e * (a * x * x - 2.0 * b * x * y + e * y * y) == (e * y - b * x) * (e * y - b * x) + (a * e - b * b) * (x * x)
  {
  }

  lemma QuadraticNonNegative(k: Form, x: real, y: real)
    requires k.e > 0.0 && k.a * k.e >= k.b * k.b
    ensures Quadratic(k, x, y) >= 0.0
  {
    var q, u, d := Quadratic(k, x, y), k.e * y - k.b * x, k.a * k.e - k.b * k.b;
    QuadraticIdentity(k.a, k.b, k.e, x, y);
    var uu := Square(u);
    var xx := Square(x);
    ProductNonNegative(d, xx, d * xx);
    NonNegativeFactor(k.e, q, uu + d * xx);
  }

  lemma NonNegativeFactor(e: real, q: real, p: real)
    requires e > 0.0 && p == e * q && p >= 0.0
    ensures q >= 0.0
  {
    if q < 0.0 {
      var low, high := MulStrict(q, 0.0, e);
    }
  }

  lemma Convex(k: Form, s: real, t: real, s': real, t': real, l: real)
    requires Quadratic(k, s' - s, t' - t) >= 0.0 && 0.0 <= l <= 1.0
    ensures Value(k, s + l * (s' - s), t + l * (t' - t)) <= (1.0 - l) * Value(k, s, t) + l * Value(k, s', t')
  {
    hide Value, Quadratic;
    var q, m := Quadratic(k, s' - s, t' - t), l * (1.0 - l);
    ProductNonNegative(l, 1.0 - l, m);
    ProductNonNegative(m, q, m * q);
    ConvexIdentity(k, s, t, s' - s, t' - t, l);
  }

  lemma ConvexIdentity(k: Form, s: real, t: real, x: real, y: real, l: real)
    ensures (1.0 - l) * Value(k, s, t) + l * Value(k, s + x, t + y) - Value(k, s + l * x, t + l * y)
         == (l * (1.0 - l)) * Quadratic(k, x, y)
  {
    Along(k, s, t, x, y, 1.0);
    Along(k, s, t, x, y, l);
    Combine(Value(k, s, t), Value(k, s + x, t + y), Value(k, s + l * x, t + l * y),
            2.0 * k.a * s * x - 2.0 * k.b * (s * y + t * x) + 2.0 * k.e * t * y + 2.0 * k.c * x - 2.0 * k.f * y,
            Quadratic(k, x, y), l);
  }

  lemma Combine(v: real, end: real, middle: real, slope: real, q: real, l: real)
    requires end == v + 1.0 * slope + 1.0 * 1.0 * q && middle == v + l * slope + l * l * q
    ensures (1.0 - l) * v + l * end - middle == (l * (1.0 - l)) * q
  {
    MixIdentity(v, slope, q, l);
  }

  lemma MixIdentity(v: real, slope: real, q: real, l: real)
    ensures (1.0 - l) * v + l * (v + slope + q) - (v + l * slope + l * l * q) == (l * (1.0 - l)) * q
  {
  }

  lemma Along(k: Form, s: real, t: real, x: real, y: real, l: real)
    ensures Value(k, s + l * x, t + l * y) == Value(k, s, t)
      + l * (2.0 * k.a * s * x - 2.0 * k.b * (s * y + t * x) + 2.0 * k.e * t * y + 2.0 * k.c * x - 2.0 * k.f * y)
      + l * l * Quadratic(k, x, y)
  {
  }

  /** If the strip minimum has t on the far side of the line t == edge, every point of the square on the
      near side is at least as far as some point of that line: the segment between them crosses it. */
  lemma CrossingPoint(k: Form, s1: real, t1: real, s: real, t: real, edge: real) returns (crossing: real)
    requires Gram(k) && k.e > 0.0 && 0.0 <= s1 <= 1.0 && 0.0 <= s <= 1.0
    requires (t1 < edge <= t) || (t <= edge < t1)
    requires Value(k, s1, t1) <= Value(k, s, t)
    ensures 0.0 <= crossing <= 1.0 && Value(k, crossing, edge) <= Value(k, s, t)
  {
    hide Value, Quadratic;
    var l;
    l, crossing := CrossingAt(s1, t1, s, t, edge);
    QuadraticNonNegative(k, s - s1, t - t1);
    Convex(k, s1, t1, s, t, l);
    Average(Value(k, s1, t1), Value(k, s, t), l);
  }

  lemma CrossingAt(s1: real, t1: real, s: real, t: real, edge: real) returns (l: real, crossing: real)
    requires 0.0 <= s1 <= 1.0 && 0.0 <= s <= 1.0
    requires (t1 < edge <= t) || (t <= edge < t1)
    ensures 0.0 <= l <= 1.0 && 0.0 <= crossing <= 1.0
    ensures crossing == s1 + l * (s - s1) && edge == t1 + l * (t - t1)
  {
    if t1 < t {
      l := (edge - t1) / (t - t1);
      Fraction(edge - t1, t - t1);
    } else {
      l := (t1 - edge) / (t1 - t);
      Fraction(t1 - edge, t1 - t);
    }
    crossing := s1 + l * (s - s1);
    Between(s1, s, l);
  }

  lemma Between(x: real, y: real, l: real)
    requires 0.0 <= x <= 1.0 && 0.0 <= y <= 1.0 && 0.0 <= l <= 1.0
    ensures 0.0 <= x + l * (y - x) <= 1.0
  {
    ProductNonNegative(1.0 - l, x, (1.0 - l) * x);
    ProductNonNegative(l, y, l * y);
    ProductNonNegative(1.0 - l, 1.0 - x, (1.0 - l) * (1.0 - x));
    ProductNonNegative(l, 1.0 - y, l * (1.0 - y));
  }

  lemma Average(x: real, y: real, l: real)
    requires x <= y && 0.0 <= l <= 1.0
    ensures (1.0 - l) * x + l * y <= y
  {
    ProductNonNegative(1.0 - l, y - x, (1.0 - l) * (y - x));
  }

  lemma Fraction(part: real, whole: real)
    requires 0.0 <= part <= whole && whole > 0.0
    ensures 0.0 <= part / whole <= 1.0 && (part / whole) * whole == part
  {
  }

  /** The best s on the line t == edge, as both re-clamped branches compute it. */
  function EdgeS(k: Form, edge: real): real
    requires k.a > 0.0
  {
    Vertex(EdgeNumerator(k, edge), k.a)
  }

  function EdgeNumerator(k: Form, edge: real): real { k.b * edge - k.c }

  lemma EdgeValue(k: Form, s: real, edge: real, beta: real, rest: real)
    requires beta == k.c - k.b * edge && rest == k.e * edge * edge - 2.0 * k.f * edge + k.w
    ensures Value(k, s, edge) == (k.a * s * s + 2.0 * beta * s) + rest
  {
    assert beta * s == k.c * s - k.b * edge * s;
  }

  lemma EdgeMinimises(k: Form, edge: real, s: real)
    requires k.a > 0.0 && 0.0 <= s <= 1.0
    ensures Value(k, EdgeS(k, edge), edge) <= Value(k, s, edge)
  {
    hide Value, Vertex;
    var beta, rest := k.c - k.b * edge, k.e * edge * edge - 2.0 * k.f * edge + k.w;
    ClampMinimises(k.a, beta, s);
    SameVertex(EdgeNumerator(k, edge), k.a, -beta, k.a);
    EdgeValue(k, s, edge, beta, rest);
    EdgeValue(k, EdgeS(k, edge), edge, beta, rest);
  }

  /** The code's choice for two proper segments. */
  function ChosenT(k: Form): real
    requires k.e > 0.0
  {
    Clamp(BestT(k, BestS(k)))
  }

  function ChosenS(k: Form): real
    requires k.a > 0.0 && k.e > 0.0
  {
    var t := BestT(k, BestS(k));
    if t < 0.0 then EdgeS(k, 0.0) else if t > 1.0 then EdgeS(k, 1.0) else BestS(k)
  }

  /** The chosen pair minimises over the whole unit square, parallel segments included. */
  lemma ChoiceMinimises(k: Form, s: real, t: real)
    requires Gram(k) && k.a > 0.0 && k.e > 0.0 && 0.0 <= s <= 1.0 && 0.0 <= t <= 1.0
    ensures Value(k, ChosenS(k), ChosenT(k)) <= Value(k, s, t)
  {
    StripMinimum(k, s, t);
    var s1, t1 := BestS(k), BestT(k, BestS(k));
    if t1 < 0.0 {
      var crossing := CrossingPoint(k, s1, t1, s, t, 0.0);
      EdgeMinimises(k, 0.0, crossing);
    } else if t1 > 1.0 {
      var crossing := CrossingPoint(k, s1, t1, s, t, 1.0);
      EdgeMinimises(k, 1.0, crossing);
    }
  }

  // ---- The coefficients of real segments -------------------------------------------------

  lemma LagrangeIdentity(u: Vec, v: Vec)
    ensures Dot(u, u) * Dot(v, v) - Dot(u, v) * Dot(u, v) == Dot(Cross(u, v), Cross(u, v))
  {
  }

  lemma SelfDotPositive(u: Vec)
    requires u != ORIGIN
    ensures Dot(u, u) > 0.0
  {
    var a := Square(u.x);
    var b := Square(u.y);
    var c := Square(u.z);
  }

  lemma SelfDotNonNegative(u: Vec)
    ensures Dot(u, u) >= 0.0 && (Dot(u, u) == 0.0 ==> u == ORIGIN)
  {
    if u != ORIGIN {
      SelfDotPositive(u);
    }
  }

  lemma ZeroDirection(u: Vec, v: Vec)
    ensures Dot(v, v) == 0.0 ==> Dot(u, v) == 0.0
  {
    if v == ORIGIN {
      assert Dot(u, ORIGIN) == 0.0;
    } else {
      SelfDotPositive(v);
    }
  }

  lemma ParallelVectors(u: Vec, v: Vec)
    requires Dot(u, u) * Dot(v, v) == Dot(u, v) * Dot(u, v)
    ensures Sub(Scale(u, Dot(v, v)), Scale(v, Dot(u, v))) == ORIGIN
  {
    ScaledDifference(u, v, Dot(v, v), Dot(u, v));
    Vanishes(Dot(u, u), Dot(u, v), Dot(v, v));
    SelfDotNonNegative(Sub(Scale(u, Dot(v, v)), Scale(v, Dot(u, v))));
  }

  /** Parallel directions: e*u == b*v, hence the same relation between their products with r. */
  lemma ParallelProducts(u: Vec, v: Vec, r: Vec)
    ensures Dot(u, u) * Dot(v, v) == Dot(u, v) * Dot(u, v) ==> Dot(u, r) * Dot(v, v) == Dot(u, v) * Dot(v, r)
  {
    if Dot(u, u) * Dot(v, v) == Dot(u, v) * Dot(u, v) {
      ParallelVectors(u, v);
      ScaledDot(u, v, r, Dot(v, v), Dot(u, v));
      ZeroDot(r);
    }
  }

  lemma ZeroDot(r: Vec)
    ensures Dot(ORIGIN, r) == 0.0
  {
  }

  lemma Vanishes(a: real, b: real, e: real)
    requires a * e == b * b
    ensures e * e * a - 2.0 * e * b * b + b * b * e == 0.0
  {
    assert e * e * a == e * (b * b);
  }

  lemma ScaledDifference(u: Vec, v: Vec, e: real, b: real)
    ensures
      var g := Sub(Scale(u, e), Scale(v, b));
      Dot(g, g) == e * e * Dot(u, u) - 2.0 * e * b * Dot(u, v) + b * b * Dot(v, v)
  {
  }

  lemma ScaledDot(u: Vec, v: Vec, r: Vec, e: real, b: real)
    ensures Dot(Sub(Scale(u, e), Scale(v, b)), r) == e * Dot(u, r) - b * Dot(v, r)
  {
  }

  lemma CauchySchwarz(u: Vec, v: Vec)
    ensures Dot(u, u) * Dot(v, v) >= Dot(u, v) * Dot(u, v)
  {
    LagrangeIdentity(u, v);
    SelfDotNonNegative(Cross(u, v));
  }

  predicate GramVectors(u: Vec, v: Vec, r: Vec) {
    && Dot(u, u) >= 0.0 && Dot(v, v) >= 0.0 && Dot(u, u) * Dot(v, v) >= Dot(u, v) * Dot(u, v)
    && (Dot(u, u) * Dot(v, v) == Dot(u, v) * Dot(u, v) ==> Dot(u, r) * Dot(v, v) == Dot(u, v) * Dot(v, r))
    && (Dot(v, v) == 0.0 ==> Dot(u, v) == 0.0)
  }

  lemma VectorsAreGram(u: Vec, v: Vec, r: Vec)
    ensures GramVectors(u, v, r)
  {
    assert Dot(u, u) * Dot(v, v) >= Dot(u, v) * Dot(u, v) by { CauchySchwarz(u, v); }
    assert Dot(u, u) >= 0.0 by { SelfDotNonNegative(u); }
    assert Dot(v, v) >= 0.0 by { SelfDotNonNegative(v); }
    assert Dot(v, v) == 0.0 ==> Dot(u, v) == 0.0 by { ZeroDirection(u, v); }
    assert Dot(u, u) * Dot(v, v) == Dot(u, v) * Dot(u, v) ==> Dot(u, r) * Dot(v, v) == Dot(u, v) * Dot(v, r) by {
      ParallelProducts(u, v, r);
    }
  }

  lemma SegmentsAreGram(p1: Vec, q1: Vec, p2: Vec, q2: Vec)
    ensures Gram(FormOf(p1, q1, p2, q2))
  {
    hide Dot, Sub;
    VectorsAreGram(Sub(q1, p1), Sub(q2, p2), Sub(p1, p2));
  }

  // ---- The code's choice in every branch -------------------------------------------------

  function Choice(k: Form): (real, real)
    requires k.a >= 0.0 && k.e >= 0.0
  {
    if k.a <= EPSILON && k.e <= EPSILON then (0.0, 0.0)
    else if k.a <= EPSILON then (0.0, Clamp(k.f / k.e))
    else if k.e <= EPSILON then (Clamp(-k.c / k.a), 0.0)
    else (ChosenS(k), ChosenT(k))
  }

  ghost predicate Minimises(k: Form, s: real, t: real) {
    forall s', t' :: 0.0 <= s' <= 1.0 && 0.0 <= t' <= 1.0 ==> Value(k, s, t) <= Value(k, s', t')
  }

  /** What a segment shorter than the threshold needs at the parameters of the other: moving off its start
      point must not come closer. */
  predicate StartIsBest(k: Form, s: real, t: real) {
    (k.a > EPSILON || k.c >= k.b * t) && (k.e > EPSILON || k.b * s + k.f <= 0.0)
  }

  /** The same on the products of the difference vectors alone, for a caller to check before the call. */
  predicate StartsSuffice(k: Form) {
    if k.a <= EPSILON && k.e <= EPSILON then k.c >= 0.0 && k.f <= 0.0
    else if k.a <= EPSILON then
      if k.f <= 0.0 then k.c >= 0.0 else if k.f >= k.e then k.c >= k.b else k.c * k.e >= k.b * k.f
    else if k.e <= EPSILON then
      if k.c >= 0.0 then k.f <= 0.0 else if -k.c >= k.a then k.b + k.f <= 0.0 else k.f * k.a <= k.b * k.c
    else true
  }

  lemma ClampedRatio(n: real, d: real) returns (q: real)
    requires d > 0.0
    ensures q == Clamp(n / d)
    ensures n <= 0.0 ==> q == 0.0
    ensures n >= d ==> q == 1.0
    ensures 0.0 < n < d ==> q * d == n
  {
    var ratio := n / d;
    assert ratio * d == n;
    q := Clamp(ratio);
    if ratio > 1.0 {
      var x, y := MulStrict(1.0, ratio, d);
    }
    if ratio < 0.0 {
      var x, y := MulStrict(ratio, 0.0, d);
    }
    if n < 0.0 && ratio >= 0.0 {
      ProductNonNegative(ratio, d, n);
    }
    if n >= d && ratio < 1.0 {
      var x, y := MulStrict(ratio, 1.0, d);
    }
  }

  /** x >= y * q exactly when x * d >= y * n, for the ratio q of n to d. */
  lemma CompareRatio(x: real, y: real, q: real, n: real, d: real)
    requires d > 0.0 && q * d == n
    ensures x >= y * q <==> x * d >= y * n
  {
    var z := y * q;
    assert z * d == y * n by { ProductRegroups(y, q, d); }
    if x >= z {
      var a, b := MulMono(z, x, d);
    } else {
      var a, b := MulStrict(x, z, d);
    }
  }

  lemma ProductRegroups(y: real, q: real, d: real)
    ensures (y * q) * d == y * (q * d)
  {
  }

  lemma FirstTiny(k: Form)
    requires k.a >= 0.0 && k.a <= EPSILON && k.e > EPSILON
    ensures StartIsBest(k, Choice(k).0, Choice(k).1) <==> StartsSuffice(k)
  {
    var t := ClampedRatio(k.f, k.e);
    if 0.0 < k.f < k.e {
      CompareRatio(k.c, k.b, t, k.f, k.e);
    }
  }

  lemma SecondTiny(k: Form)
    requires k.e >= 0.0 && k.a > EPSILON && k.e <= EPSILON
    ensures StartIsBest(k, Choice(k).0, Choice(k).1) <==> StartsSuffice(k)
  {
    var s := ClampedRatio(-k.c, k.a);
    if 0.0 < -k.c < k.a {
      CompareRatio(-k.f, k.b, s, -k.c, k.a);
    }
  }

  /** The condition at the chosen parameters is a condition on the inputs. */
  lemma StartsAreInputs(k: Form)
    requires k.a >= 0.0 && k.e >= 0.0
    ensures StartIsBest(k, Choice(k).0, Choice(k).1) <==> StartsSuffice(k)
  {
    if k.a <= EPSILON && k.e <= EPSILON {
      assert Choice(k) == (0.0, 0.0);
    } else if k.a <= EPSILON {
      FirstTiny(k);
    } else if k.e <= EPSILON {
      SecondTiny(k);
    }
  }

  /** Half the partial derivatives of the form. */
  function SlopeS(k: Form, s: real, t: real): real { k.a * s - k.b * t + k.c }

  function SlopeT(k: Form, s: real, t: real): real { k.e * t - k.b * s - k.f }

  lemma Expand(k: Form, s: real, t: real, x: real, y: real)
    ensures Value(k, s + x, t + y) == Value(k, s, t) + 2.0 * SlopeS(k, s, t) * x + 2.0 * SlopeT(k, s, t) * y
      + Quadratic(k, x, y)
  {
  }

  lemma FormNonNegative(k: Form, x: real, y: real)
    requires Gram(k)
    ensures Quadratic(k, x, y) >= 0.0
  {
    if k.e > 0.0 {
      QuadraticNonNegative(k, x, y);
    } else {
      var square := Square(x);
      ProductNonNegative(k.a, x * x, k.a * (x * x));
    }
  }

  /** A point whose slopes point out of the square minimises over it. */
  lemma StationaryMinimises(k: Form, s: real, t: real, s': real, t': real)
    requires Gram(k) && SlopeS(k, s, t) * (s' - s) >= 0.0 && SlopeT(k, s, t) * (t' - t) >= 0.0
    ensures Value(k, s, t) <= Value(k, s', t')
  {
    Expand(k, s, t, s' - s, t' - t);
    FormNonNegative(k, s' - s, t' - t);
  }

  lemma ClampStationary(alpha: real, beta: real, vertex: real, s: real, m: real, slope: real)
    requires alpha > 0.0 && 0.0 <= s <= 1.0 && vertex * alpha == -beta && m == Clamp(vertex) && slope == m * alpha + beta
    ensures slope * (s - m) >= 0.0
  {
    if m > vertex {
      var x, y := MulStrict(vertex, m, alpha);
      ProductNonNegative(slope, s - m, slope * (s - m));
    } else if m < vertex {
      var x, y := MulStrict(m, vertex, alpha);
      ProductNonNegative(-slope, m - s, (-slope) * (m - s));
      Opposites(slope, s - m);
    } else {
      assert slope == 0.0;
    }
  }

  lemma Opposites(x: real, y: real)
    ensures (-x) * (-y) == x * y
  {
  }

  lemma SlopeAtStart(slope: real, s: real)
    requires slope >= 0.0 && s >= 0.0
    ensures slope * (s - 0.0) >= 0.0
  {
    ProductNonNegative(slope, s, slope * s);
  }

  lemma ChoiceStationaryS(k: Form, s': real)
    requires Gram(k) && (k.a <= EPSILON || k.e <= EPSILON) && StartIsBest(k, Choice(k).0, Choice(k).1)
    requires 0.0 <= s' <= 1.0
    ensures SlopeS(k, Choice(k).0, Choice(k).1) * (s' - Choice(k).0) >= 0.0
  {
    hide Clamp, ChosenS, ChosenT;
    var (s, t) := Choice(k);
    var slope := SlopeS(k, s, t);
    if k.a <= EPSILON {
      assert slope == k.c - k.b * t;
      SlopeAtStart(slope, s');
    } else {
      assert slope == s * k.a + k.c;
      ClampStationary(k.a, k.c, -k.c / k.a, s', s, slope);
    }
  }

  lemma ChoiceStationaryT(k: Form, t': real)
    requires Gram(k) && (k.a <= EPSILON || k.e <= EPSILON) && StartIsBest(k, Choice(k).0, Choice(k).1)
    requires 0.0 <= t' <= 1.0
    ensures SlopeT(k, Choice(k).0, Choice(k).1) * (t' - Choice(k).1) >= 0.0
  {
    hide Clamp, ChosenS, ChosenT;
    var (s, t) := Choice(k);
    var slope := SlopeT(k, s, t);
    if k.e <= EPSILON {
      assert slope == -(k.b * s + k.f);
      SlopeAtStart(slope, t');
    } else {
      assert slope == t * k.e + -k.f;
      ClampStationary(k.e, -k.f, k.f / k.e, t', t, slope);
    }
  }

  lemma StartIsBestSuffices(k: Form, s': real, t': real)
    requires Gram(k) && (k.a <= EPSILON || k.e <= EPSILON) && StartIsBest(k, Choice(k).0, Choice(k).1)
    requires 0.0 <= s' <= 1.0 && 0.0 <= t' <= 1.0
    ensures Value(k, Choice(k).0, Choice(k).1) <= Value(k, s', t')
  {
    hide Value, SlopeS, SlopeT;
    ChoiceStationaryS(k, s');
    ChoiceStationaryT(k, t');
    StationaryMinimises(k, Choice(k).0, Choice(k).1, s', t');
  }

  /** An inward slope at a start point leaves room for improvement along that edge. */
  lemma Improves(alpha: real, beta: real) returns (x: real)
    requires alpha >= 0.0 && beta < 0.0
    ensures 0.0 <= x <= 1.0 && alpha * x * x + 2.0 * beta * x < 0.0
  {
    if alpha <= -beta {
      x := 1.0;
    } else {
      x := -beta / alpha;
      assert x * alpha == -beta;
      if x > 1.0 {
        var low, high := MulStrict(1.0, x, alpha);
      }
      if x <= 0.0 {
        var low, high := MulMono(x, 0.0, alpha);
      }
      ProductPositive(-beta, x, (-beta) * x);
      assert alpha * x * x + 2.0 * beta * x == beta * x;
    }
  }

  lemma BetterS(k: Form, t: real) returns (x: real)
    requires k.a >= 0.0 && k.c < k.b * t
    ensures 0.0 <= x <= 1.0 && Value(k, x, t) < Value(k, 0.0, t)
  {
    var beta := k.c - k.b * t;
    x := Improves(k.a, beta);
    assert beta * x == k.c * x - k.b * t * x;
    assert Value(k, x, t) - Value(k, 0.0, t) == k.a * x * x + 2.0 * beta * x;
  }

  lemma BetterT(k: Form, s: real) returns (y: real)
    requires k.e >= 0.0 && k.b * s + k.f > 0.0
    ensures 0.0 <= y <= 1.0 && Value(k, s, y) < Value(k, s, 0.0)
  {
    var beta := -(k.b * s + k.f);
    y := Improves(k.e, beta);
    assert beta * y == -(k.b * s * y) - k.f * y;
    assert Value(k, s, y) - Value(k, s, 0.0) == k.e * y * y + 2.0 * beta * y;
  }

  lemma StartIsBestNeeded(k: Form)
    requires Gram(k) && !StartIsBest(k, Choice(k).0, Choice(k).1)
    ensures exists s', t' :: 0.0 <= s' <= 1.0 && 0.0 <= t' <= 1.0 && Value(k, s', t') < Value(k, Choice(k).0, Choice(k).1)
  {
    var (s, t) := Choice(k);
    if k.a <= EPSILON && k.c < k.b * t {
      var x := BetterS(k, t);
    } else {
      var y := BetterT(k, s);
    }
  }

  lemma ChosenIsExactIff(k: Form)
    requires Gram(k)
    ensures Minimises(k, Choice(k).0, Choice(k).1) <==> StartIsBest(k, Choice(k).0, Choice(k).1)
  {
    if StartIsBest(k, Choice(k).0, Choice(k).1) {
      forall s', t' | 0.0 <= s' <= 1.0 && 0.0 <= t' <= 1.0
        ensures Value(k, Choice(k).0, Choice(k).1) <= Value(k, s', t')
      {
        if k.a <= EPSILON || k.e <= EPSILON {
          StartIsBestSuffices(k, s', t');
        } else {
          ChoiceMinimises(k, s', t');
        }
      }
    }
    if !StartIsBest(k, Choice(k).0, Choice(k).1) {
      StartIsBestNeeded(k);
    }
  }

  /** For every pair of segments the chosen parameters minimise over the unit square exactly when both are longer
      than the threshold or the products satisfy the sign conditions of StartsSuffice. */
  lemma ChoiceIsExactIff(k: Form)
    requires Gram(k)
    ensures Minimises(k, Choice(k).0, Choice(k).1) <==> StartsSuffice(k)
  {
    hide Minimises, StartIsBest, StartsSuffice, Choice;
    ChosenIsExactIff(k);
    StartsAreInputs(k);
  }

  /** A segment of length 1e-7 that points straight at another one, a unit away. */
  const TINY := Form(0.00000000000001, 0.0000001, -0.0000001, 1.0, -1.0, 1.0)

  lemma AlongX(x: real, y: real)
    ensures Dot(Vec(x, 0.0, 0.0), Vec(y, 0.0, 0.0)) == x * y
  {
  }

  lemma TinyForm()
    ensures FormOf(ORIGIN, Vec(0.0000001, 0.0, 0.0), Vec(1.0, 0.0, 0.0), Vec(2.0, 0.0, 0.0)) == TINY
  {
    AlongX(0.0000001, 0.0000001);
    AlongX(0.0000001, 1.0);
    AlongX(0.0000001, -1.0);
    AlongX(1.0, 1.0);
    AlongX(1.0, -1.0);
    AlongX(-1.0, -1.0);
  }

  lemma TinyChoice()
    ensures Choice(TINY) == (0.0, 0.0) && !StartsSuffice(TINY)
    ensures Value(TINY, 1.0, 0.0) < Value(TINY, 0.0, 0.0)
  {
    assert TINY.f / TINY.e == -1.0;
  }

  /** It is treated as a point: the code settles on the two start points, and the end point is closer. */
  lemma TinySegmentMisses()
    ensures
      var p, q, u, v := ORIGIN, Vec(0.0000001, 0.0, 0.0), Vec(1.0, 0.0, 0.0), Vec(2.0, 0.0, 0.0);
      && FormOf(p, q, u, v) == TINY && Choice(TINY) == (0.0, 0.0) && !StartsSuffice(FormOf(p, q, u, v))
      && SquaredDistanceAt(p, q, u, v, 1.0, 0.0) < SquaredDistanceAt(p, q, u, v, 0.0, 0.0)
  {
    hide FormOf, SquaredDistanceAt, Value, Choice, StartsSuffice;
    TinyForm();
    TinyChoice();
    DistanceIsForm(ORIGIN, Vec(0.0000001, 0.0, 0.0), Vec(1.0, 0.0, 0.0), Vec(2.0, 0.0, 0.0), 1.0, 0.0);
    DistanceIsForm(ORIGIN, Vec(0.0000001, 0.0, 0.0), Vec(1.0, 0.0, 0.0), Vec(2.0, 0.0, 0.0), 0.0, 0.0);
  }

  /** The branches of _segment_distance, on the products of the difference vectors. */
  method ChooseParameters(a: real, b: real, c: real, e: real, f: real, ghost w: real) returns (s: real, t: real)
    requires a >= 0.0 && e >= 0.0
    ensures (s, t) == Choice(Form(a, b, c, e, f, w))
  {
    if a <= EPSILON && e <= EPSILON {
      s, t := 0.0, 0.0;
    } else if a <= EPSILON {
      s, t := 0.0, Clamp(f / e);
    } else if e <= EPSILON {
      s, t := Clamp(-c / a), 0.0;
    } else {
      s, t := ChooseProper(a, b, c, e, f, w);
    }
  }

  method ChooseProper(a: real, b: real, c: real, e: real, f: real, ghost w: real) returns (s: real, t: real)
    requires a > 0.0 && e > 0.0
    ensures s == ChosenS(Form(a, b, c, e, f, w)) && t == ChosenT(Form(a, b, c, e, f, w))
  {
    hide ChosenS, ChosenT, BestS, BestT, Clamp;
    ghost var k := Form(a, b, c, e, f, w);
    s := ClampedVertex(a, b, c, e, f, w);
    t := (b * s + f) / e;
    BestTIs(k, s, t);
    ChosenIs(k, s, t);
    if t < 0.0 {
      t := 0.0;
      s := Clamp(-c / a);
    } else if t > 1.0 {
      t := 1.0;
      s := Clamp((b - c) / a);
    }
  }

  method ClampedVertex(a: real, b: real, c: real, e: real, f: real, ghost w: real) returns (s: real)
    ensures s == BestS(Form(a, b, c, e, f, w))
  {
    ghost var k := Form(a, b, c, e, f, w);
    var denominator := a * e - b * b;
    var numerator := b * f - c * e;
    s := if denominator == 0.0 then 0.0 else Clamp(numerator / denominator);
    SameVertex(numerator, denominator, Numerator(k), Denominator(k));
  }

  lemma BestTIs(k: Form, s: real, t: real)
    requires k.e > 0.0 && t == (k.b * s + k.f) / k.e
    ensures t == BestT(k, s)
  {
  }

  lemma ChosenIs(k: Form, s: real, t: real)
    requires k.a > 0.0 && k.e > 0.0 && s == BestS(k) && t == BestT(k, s)
    ensures ChosenT(k) == (if t < 0.0 then 0.0 else if t > 1.0 then 1.0 else t)
    ensures ChosenS(k) == (if t < 0.0 then Clamp(-k.c / k.a) else if t > 1.0 then Clamp((k.b - k.c) / k.a) else s)
  {
    hide BestS, BestT, EdgeS;
    EdgesAre(k);
  }

  lemma EdgesAre(k: Form)
    requires k.a > 0.0
    ensures EdgeS(k, 0.0) == Clamp(-k.c / k.a) && EdgeS(k, 1.0) == Clamp((k.b - k.c) / k.a)
  {
    hide Clamp, Vertex;
    SameVertex(EdgeNumerator(k, 0.0), k.a, -k.c, k.a);
    SameVertex(EdgeNumerator(k, 1.0), k.a, k.b - k.c, k.a);
    VertexOf(-k.c, k.a);
    VertexOf(k.b - k.c, k.a);
  }

  lemma ChoiceInSquare(k: Form)
    requires Gram(k)
    ensures 0.0 <= Choice(k).0 <= 1.0 && 0.0 <= Choice(k).1 <= 1.0
  {
  }

  /** _segment_distance, squared: a distance attained at (s, t), and the least one over both segments exactly
      when the products of the inputs satisfy StartsSuffice, as they do whenever both are longer than the
      threshold. */
  method SquaredSegmentDistance(p1: Vec, q1: Vec, p2: Vec, q2: Vec) returns (d: real, s: real, t: real)
    ensures 0.0 <= s <= 1.0 && 0.0 <= t <= 1.0 && d == SquaredDistanceAt(p1, q1, p2, q2, s, t)
    ensures StartsSuffice(FormOf(p1, q1, p2, q2)) <==>
      forall s', t' :: 0.0 <= s' <= 1.0 && 0.0 <= t' <= 1.0 ==> d <= SquaredDistanceAt(p1, q1, p2, q2, s', t')
  {
    var d1, d2, r := Sub(q1, p1), Sub(q2, p2), Sub(p1, p2);
    SegmentsAreGram(p1, q1, p2, q2);
    s, t := ChooseParameters(Dot(d1, d1), Dot(d1, d2), Dot(d1, r), Dot(d2, d2), Dot(d2, r), Dot(r, r));
    var closest := Sub(Add(p1, Scale(d1, s)), Add(p2, Scale(d2, t)));
    d := Dot(closest, closest);
    Transfer(p1, q1, p2, q2, s, t);
    ChoiceIsExactIff(FormOf(p1, q1, p2, q2));
    ChoiceInSquare(FormOf(p1, q1, p2, q2));
  }

  lemma Transfer(p1: Vec, q1: Vec, p2: Vec, q2: Vec, s: real, t: real)
    ensures Minimises(FormOf(p1, q1, p2, q2), s, t) <==>
      forall s', t' :: 0.0 <= s' <= 1.0 && 0.0 <= t' <= 1.0 ==>
        SquaredDistanceAt(p1, q1, p2, q2, s, t) <= SquaredDistanceAt(p1, q1, p2, q2, s', t')
  {
    DistanceIsForm(p1, q1, p2, q2, s, t);
    forall s', t'
      ensures SquaredDistanceAt(p1, q1, p2, q2, s', t') == Value(FormOf(p1, q1, p2, q2), s', t')
    {
      DistanceIsForm(p1, q1, p2, q2, s', t');
    }
  }
}
