/** The unit cubic Bezier easing curve of the exact linear strategy
    (`XMaterialLinearProgressAnimationBazierExact.Cubic`): the Bernstein cubic
    with anchors 0 and 1, and the bisection that inverts its x-component. */
module Easing {
  import opened Wrappers

  /** Error bound of the bisection: a midpoint is accepted once its x lies
      closer than this to the requested progress. */
  const CubicErrorBound: real := 0.001

  /** The bisection never probes more midpoints than this (ProbeCompletes):
      after 11 halvings the bracket is 1/2048 wide, and its midpoint's x then
      lies within 1.5/2048 < 0.001 of the target. */
  const MaxProbes: nat := 12

  function Abs(x: real): real { if x < 0.0 then -x else x }

  /** The width of the bisection bracket after n halvings of [0, 1]. */
  function BracketWidth(n: nat): (w: real)
    ensures w > 0.0
  {
    if n == 0 then 1.0 else BracketWidth(n - 1) / 2.0
  }

  /** The Bernstein cubic B(p, q, m) = 3p(1-m)^2 m + 3q(1-m) m^2 + m^3 with
      inner control values p, q and anchors 0 and 1 (`_evaluateCubic`). */
  function EvaluateCubic(p: real, q: real, m: real): real {
    3.0 * p * (1.0 - m) * (1.0 - m) * m + 3.0 * q * (1.0 - m) * m * m + m * m * m
  }

  /** A cubic Bezier from (0,0) to (1,1) with control points (a,b) and (c,d):
      x follows B(a, c, m) and y follows B(b, d, m). */
  datatype Cubic = Cubic(a: real, b: real, c: real, d: real) {

    /** Both control points' x lie in [0, 1], as for every curve of the
        library; under this the bisection is proved to stop. */
    predicate XInUnit() {
      0.0 <= a <= 1.0 && 0.0 <= c <= 1.0
    }

    /** Both control points' y lie in [0, 1], so eased values stay in [0, 1]. */
    predicate YInUnit() {
      0.0 <= b <= 1.0 && 0.0 <= d <= 1.0
    }

    /** The bisection of `transformInternal` started on the bracket [lo, hi]
        with at most `left` probes: the first midpoint whose x is within the
        error bound of t, or None if `left` probes all missed. Whatever it
        returns is a midpoint strictly inside the bracket whose x lies within
        the error bound of t. */
    function Probe(t: real, lo: real, hi: real, left: nat): (r: Option<real>)
      ensures r.Some? ==> Abs(t - EvaluateCubic(a, c, r.value)) < CubicErrorBound
      ensures r.Some? && lo < hi ==> lo < r.value < hi
      decreases left
    {
      if left == 0 then None
      else
        var midpoint := (lo + hi) / 2.0;
        var estimate := EvaluateCubic(a, c, midpoint);
        if Abs(t - estimate) < CubicErrorBound then Some(midpoint)
        else if estimate < t then Probe(t, midpoint, hi, left - 1)
        else Probe(t, lo, midpoint, left - 1)
    }

    /** The eased value of progress t: y at the first probed midpoint whose x
        is within the error bound of t. */
    function Ease(t: real): (r: real)
      requires XInUnit() && 0.0 <= t <= 1.0
      ensures exists m :: 0.0 < m < 1.0 && Abs(t - EvaluateCubic(a, c, m)) < CubicErrorBound
                          && r == EvaluateCubic(b, d, m)
    {
      BisectionTerminates(this, t);
      var m := Probe(t, 0.0, 1.0, MaxProbes).value;
      assert 0.0 < m < 1.0 && Abs(t - EvaluateCubic(a, c, m)) < CubicErrorBound;
      EvaluateCubic(b, d, m)
    }

    /** The bisection loop of `Cubic.transformInternal`: probe the midpoint of
        [start, end]; return y there once its x is within the error bound of t,
        otherwise keep the half whose x-range still brackets t. */
    method TransformInternal(t: real) returns (r: real)
      requires XInUnit() && 0.0 <= t <= 1.0
      ensures r == Ease(t)
    {
      var start := 0.0;
      var end := 1.0;
      ghost var probes: nat := 0;
      BisectionTerminates(this, t);
      EvaluateCubicEndpoints(a, c);
      while true
        invariant 0.0 <= start < end <= 1.0
        invariant end - start == BracketWidth(probes)
        invariant EvaluateCubic(a, c, start) <= t <= EvaluateCubic(a, c, end)
        invariant probes < MaxProbes
        invariant Probe(t, start, end, MaxProbes - probes) == Probe(t, 0.0, 1.0, MaxProbes)
        invariant Probe(t, 0.0, 1.0, MaxProbes).Some?
        decreases MaxProbes - probes
      {
        var midpoint := (start + end) / 2.0;
        var estimate := EvaluateCubic(a, c, midpoint);
        if Abs(t - estimate) < CubicErrorBound {
          return EvaluateCubic(b, d, midpoint);
        }
        if estimate < t {
          start := midpoint;
        } else {
          end := midpoint;
        }
        probes := probes + 1;
      }
    }
  }

  /** The curve's anchors: B(p, q, 0) = 0 and B(p, q, 1) = 1 for every p, q. */
  lemma EvaluateCubicEndpoints(p: real, q: real)
    ensures EvaluateCubic(p, q, 0.0) == 0.0 && EvaluateCubic(p, q, 1.0) == 1.0
  {
  }

  lemma MulNonneg(x: real, y: real)
    requires x >= 0.0 && y >= 0.0
    ensures x * y >= 0.0
  {
  }

  lemma SquareNonneg(x: real)
    ensures x * x >= 0.0
  {
    if x < 0.0 { MulNonneg(-x, -x); } else { MulNonneg(x, x); }
  }

  /** With control values in [0, 1] the curve stays inside the unit square:
      it lies between the curves with p = q = 0 (m^3) and p = q = 1
      (1 - (1-m)^3). */
  lemma EvaluateCubicBounds(p: real, q: real, m: real)
    requires 0.0 <= p <= 1.0 && 0.0 <= q <= 1.0 && 0.0 <= m <= 1.0
    ensures 0.0 <= EvaluateCubic(p, q, m) <= 1.0
  {
    var u := 1.0 - m;
    MulNonneg(u, m);
    MulNonneg(u, u);
    MulNonneg(m, m);
    var b1 := u * u * m;
    var b2 := u * m * m;
    MulNonneg(u * u, m);
    MulNonneg(u * m, m);
    MulNonneg(m * m, m);
    MulNonneg(u * u, u);
    MulNonneg(p, b1);
    MulNonneg(q, b2);
    MulNonneg(1.0 - p, b1);
    MulNonneg(1.0 - q, b2);
    assert EvaluateCubic(p, q, m) == 3.0 * (p * b1) + 3.0 * (q * b2) + m * m * m;
    assert 3.0 * b1 + 3.0 * b2 + m * m * m == 1.0 - u * u * u;
  }

  /** The divided difference (B(m2) - B(m1)) / (m2 - m1) of the cubic. */
  function Slope(p: real, q: real, m1: real, m2: real): real {
    var s := m1 + m2;
    var sq := m1 * m1 + m1 * m2 + m2 * m2;
    3.0 * p * (1.0 - 2.0 * s + sq) + 3.0 * q * (s - sq) + sq
  }

  lemma PowerForm(p: real, q: real, m: real)
    ensures EvaluateCubic(p, q, m)
         == 3.0 * p * m + (3.0 * q - 6.0 * p) * (m * m) + (3.0 * p - 3.0 * q + 1.0) * (m * m * m)
  {
  }

  /** On [0, 1]: m^2 <= m and m1 m2 <= m1, so sq <= 1.5 s; and
      4 sq - 3 s^2 = (m1 - m2)^2, so sq >= 0.75 s^2. */
  lemma SumOfSquaresBounds(m1: real, m2: real)
    requires 0.0 <= m1 <= m2 <= 1.0
    ensures var s := m1 + m2; var sq := m1 * m1 + m1 * m2 + m2 * m2;
      sq <= 1.5 * s && 4.0 * sq >= 3.0 * s * s
  {
    MulNonneg(m1, 1.0 - m1);
    MulNonneg(m2, 1.0 - m2);
    MulNonneg(m1, 1.0 - m2);
    SquareNonneg(m1 - m2);
  }

  lemma SlopeBound(p: real, q: real, m1: real, m2: real)
    requires 0.0 <= p <= 1.0 && 0.0 <= q <= 1.0
    requires 0.0 <= m1 <= m2 <= 1.0
    ensures Slope(p, q, m1, m2) <= 3.0
  {
    var s := m1 + m2;
    var sq := m1 * m1 + m1 * m2 + m2 * m2;
    var u := 1.0 - 2.0 * s + sq;
    var v := s - sq;
    SumOfSquaresBounds(m1, m2);
    SquareNonneg(s - 1.0);
    var pu := if u >= 0.0 then u else 0.0;
    var qv := if v >= 0.0 then v else 0.0;
    if u >= 0.0 { MulNonneg(1.0 - p, u); } else { MulNonneg(p, -u); }
    if v >= 0.0 { MulNonneg(1.0 - q, v); } else { MulNonneg(q, -v); }
    assert Slope(p, q, m1, m2) <= 3.0 * pu + 3.0 * qv + sq;
  }

  /** One-sided Lipschitz bound: with control values in [0, 1] the curve
      rises by at most 3 per unit of the parameter. */
  lemma EvaluateCubicRise(p: real, q: real, m1: real, m2: real)
    requires 0.0 <= p <= 1.0 && 0.0 <= q <= 1.0
    requires 0.0 <= m1 <= m2 <= 1.0
    ensures EvaluateCubic(p, q, m2) - EvaluateCubic(p, q, m1) <= 3.0 * (m2 - m1)
  {
    PowerForm(p, q, m1);
    PowerForm(p, q, m2);
    assert EvaluateCubic(p, q, m2) - EvaluateCubic(p, q, m1) == (m2 - m1) * Slope(p, q, m1, m2);
    SlopeBound(p, q, m1, m2);
    MulNonneg(m2 - m1, 3.0 - Slope(p, q, m1, m2));
  }

  /** If x brackets t on [lo, hi], the midpoint's x is within 1.5 (hi - lo)
      of t. */
  lemma MidpointClose(curve: Cubic, t: real, lo: real, hi: real)
    requires curve.XInUnit()
    requires 0.0 <= lo <= hi <= 1.0
    requires EvaluateCubic(curve.a, curve.c, lo) <= t <= EvaluateCubic(curve.a, curve.c, hi)
    ensures Abs(t - EvaluateCubic(curve.a, curve.c, (lo + hi) / 2.0)) <= 1.5 * (hi - lo)
  {
    var midpoint := (lo + hi) / 2.0;
    EvaluateCubicRise(curve.a, curve.c, lo, midpoint);
    EvaluateCubicRise(curve.a, curve.c, midpoint, hi);
  }

  /** The bisection hits within its remaining probes: a bracket around t
      reached after k halvings is 2^-k wide, and with MaxProbes - k probes
      left the last possible one sees a bracket 2^-11 wide, whose midpoint's x
      lies within 1.5 * 2^-11 < 0.001 of t. */
  lemma {:induction false} ProbeCompletes(curve: Cubic, t: real, lo: real, hi: real, left: nat)
    requires curve.XInUnit()
    requires 0.0 <= lo < hi <= 1.0
    requires EvaluateCubic(curve.a, curve.c, lo) <= t <= EvaluateCubic(curve.a, curve.c, hi)
    requires 1 <= left <= MaxProbes && hi - lo == BracketWidth(MaxProbes - left)
    ensures curve.Probe(t, lo, hi, left).Some?
    decreases left
  {
    var midpoint := (lo + hi) / 2.0;
    var estimate := EvaluateCubic(curve.a, curve.c, midpoint);
    MidpointClose(curve, t, lo, hi);
    if left == 1 {
      assert BracketWidth(11) == 1.0 / 2048.0;
    } else if Abs(t - estimate) >= CubicErrorBound {
      if estimate < t {
        ProbeCompletes(curve, t, midpoint, hi, left - 1);
      } else {
        ProbeCompletes(curve, t, lo, midpoint, left - 1);
      }
    }
  }

  /** The source's unbounded `while true` bisection stops, within MaxProbes
      probes, for every progress t in [0, 1] and every curve whose control
      points' x lie in [0, 1] (x need not be monotone). */
  lemma BisectionTerminates(curve: Cubic, t: real)
    requires curve.XInUnit() && 0.0 <= t <= 1.0
    ensures curve.Probe(t, 0.0, 1.0, MaxProbes).Some?
  {
    EvaluateCubicEndpoints(curve.a, curve.c);
    ProbeCompletes(curve, t, 0.0, 1.0, MaxProbes);
  }

  /** With both control points inside the unit square, eased values lie in
      [0, 1]. */
  lemma EaseBounds(curve: Cubic, t: real)
    requires curve.XInUnit() && 0.0 <= t <= 1.0
    ensures curve.YInUnit() ==> 0.0 <= curve.Ease(t) <= 1.0
  {
    var r := curve.Ease(t);
    var m :| 0.0 < m < 1.0 && Abs(t - EvaluateCubic(curve.a, curve.c, m)) < CubicErrorBound
             && r == EvaluateCubic(curve.b, curve.d, m);
    if curve.YInUnit() {
      EvaluateCubicBounds(curve.b, curve.d, m);
    }
  }
}
