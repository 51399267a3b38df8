/** Facts about products and quotients of reals.

    The solver treats products of two unknowns only in part.  Each fact that the acceleration
    curves need is therefore stated once, for plain numbers, and used by name there: how a
    product grows with either factor, how two quotients compare, and how a line with an offset
    is the sum of two stretches. */
module RealArithmetic {
  function Abs(x: real): real { if x < 0.0 then -x else x }

  function Ceil(x: real): int { if x.Floor as real == x then x.Floor else x.Floor + 1 }

  lemma CeilAtMost(x: real, n: int)
    ensures Ceil(x) <= n <==> x <= n as real
  {
  }

  lemma Quotient(a: real, v: real)
    requires v != 0.0
    ensures (a / v) * v == a
  {
  }

  lemma Distribute(s: real, v: real, w: real)
    ensures s * (v - w) == s * v - s * w
  {
  }

  lemma Grows(s: real, v: real, w: real)
    requires s > 0.0 && v < w
    ensures s * v < s * w
  {
  }

  lemma Weakly(s: real, t: real, v: real)
    requires s <= t && v >= 0.0
    ensures s * v <= t * v
  {
  }

  lemma Cancel(x: real, y: real, v: real)
    requires v > 0.0 && x * v == y * v
    ensures x == y
  {
    if x < y { Grows(v, x, y); } else if y < x { Grows(v, y, x); }
  }

  /** Between two points of a line it rises, by no more than a steeper one. */
  lemma LineRise(s: real, t: real, d: real, u: real, v: real, a: real, b: real)
    requires 0.0 < s <= t && u < v && a == s * u + d && b == s * v + d
    ensures 0.0 < b - a <= t * v - t * u
  {
    LineRises(s, d, u, v, a, b);
    LineBounded(s, t, d, u, v, a, b);
  }

  lemma LineRises(s: real, d: real, u: real, v: real, a: real, b: real)
    requires 0.0 < s && u < v && a == s * u + d && b == s * v + d
    ensures a < b
  {
    Grows(s, u, v);
  }

  lemma LineBounded(s: real, t: real, d: real, u: real, v: real, a: real, b: real)
    requires s <= t && u < v && a == s * u + d && b == s * v + d
    ensures b - a <= t * v - t * u
  {
    Steeper(s, t, u, v);
  }

  lemma Steeper(s: real, t: real, u: real, v: real)
    requires s <= t && u < v
    ensures s * v - s * u <= t * v - t * u
  {
    Weakly(s, t, v - u);
    Distribute(s, v, u);
    Distribute(t, v, u);
  }

  lemma SlopeGain(a: real, s: real, u: real)
    requires u > 0.0 && a == s * u
    ensures a / u == s
  {
    var q := a / u;
    Quotient(a, u);
    Cancel(q, s, u);
  }

  lemma QuotientOrder(a: real, u: real, b: real, v: real)
    requires u > 0.0 && v > 0.0 && a * v <= b * u
    ensures a / u <= b / v
  {
    var x, y := a / u, b / v;
    assert a == x * u && b == y * v;
    assert x * u * v <= y * v * u;
    if x > y { Grows(u * v, y, x); assert false; }
  }

  lemma QuotientGrows(a: real, b: real, v: real)
    requires v > 0.0 && a < b
    ensures a / v < b / v
  {
    var x, y := a / v, b / v;
    Quotient(a, v);
    Quotient(b, v);
    if y < x { Grows(v, y, x); }
  }

  lemma CrossProducts(s: real, d: real, u: real, v: real)
    requires d <= 0.0 && 0.0 < u <= v
    ensures (s * u + d) * v <= (s * v + d) * u
  {
    Weakly(u, v, -d);
    assert (s * u + d) * v == s * u * v + d * v;
    assert (s * v + d) * u == s * u * v + d * u;
  }

  lemma LineGain(s: real, d: real, u: real, v: real, a: real, b: real)
    requires d <= 0.0 && 0.0 < u <= v && a == s * u + d && b == s * v + d
    ensures a / u <= b / v
  {
    CrossProducts(s, d, u, v);
    QuotientOrder(a, u, b, v);
  }

  /** A line with its offset written out as a second slope over a first stretch of `w`. */
  lemma Stretch(s: real, t: real, w: real, v: real)
    ensures t * v + w * (s - t) == s * w + t * (v - w)
  {
    Distribute(t, v, w);
    Distribute(w, s, t);
  }

  lemma WeightedSum(a: real, b: real, c: real, a': real, b': real, c': real, x: real, y: real, z: real)
    requires a < a' && b <= b' && c <= c' && x > 0.0 && y >= 0.0 && z >= 0.0
    ensures a * x + b * y + c * z < a' * x + b' * y + c' * z
  {
    Grows(x, a, a');
    Weakly(b, b', y);
    Weakly(c, c', z);
  }
}
