/**
 * Strong-axis flexure (AISC 360-10 sections F2, F3 and F10): lateral-torsional
 * buckling in three zones of the unbraced length Lb, flange local buckling in
 * three zones of bf/2tf, Mn = min of the two for I-shapes and channels, and
 * Mn = 1.5·My for angles; Md = 0.9·Mn.
 */
module Flexure {
  import opened Wrappers
  import opened RealMath
  import opened Tags
  import opened Diagnostics
  import opened Profile
  import opened Rows

  const E: real := 200000.0     // MPa
  const PhiB: real := 0.90

  // ---------------------------------------------------------------------------
  // F2 helpers
  // ---------------------------------------------------------------------------

  /** `_rts(Iy, Cw, Sx)`: rts = √(√(Iy·Cw)/Sx). */
  function Rts(m: Analytic, iy: real, cw: real, sx: real): real
    requires sx != 0.0
  {
    m.sqrt(m.sqrt(iy * cw) / sx)
  }

  /** rts² = √(Iy·Cw)/Sx, and rts > 0 when Iy·Cw > 0 and Sx > 0. */
  lemma RtsSquared(m: Analytic, iy: real, cw: real, sx: real)
    requires Sound(m) && iy * cw >= 0.0 && sx > 0.0
    ensures Rts(m, iy, cw, sx) >= 0.0
    ensures Rts(m, iy, cw, sx) * Rts(m, iy, cw, sx) == m.sqrt(iy * cw) / sx
    ensures iy * cw > 0.0 ==> Rts(m, iy, cw, sx) > 0.0
  {
    var w := m.sqrt(iy * cw);
    DivNonNegative(w, sx);
    if iy * cw > 0.0 {
      SqrtPositive(m, iy * cw);
      DivPositive(w, sx);
      SqrtPositive(m, w / sx);
    }
  }

  /** `_Lp(ry, E, Fy)`: Lp = 1.76·ry·√(E/Fy), equation F2-5. */
  function PlasticLength(m: Analytic, ry: real, fy: real): real
    requires fy != 0.0
  {
    1.76 * ry * m.sqrt(E / fy)
  }

  /** For ry, Fy > 0: Lp > 0 and Lp²·Fy = 1.76²·ry²·E, the defining equation without the root. */
  lemma PlasticLengthSquared(m: Analytic, ry: real, fy: real)
    requires Sound(m) && ry > 0.0 && fy > 0.0
    ensures PlasticLength(m, ry, fy) > 0.0
    ensures Sq(PlasticLength(m, ry, fy)) * fy == 3.0976 * Sq(ry) * E
  {
    var q := E / fy;
    DivPositive(E, fy);
    SqrtPositive(m, q);
    var w := m.sqrt(q);
    assert w * w == q;
    PositiveProduct(1.76 * ry, w);
    SqIsSquare(1.76 * ry * w);
    SqIsSquare(ry);
    assert Sq(1.76 * ry * w) == 3.0976 * (ry * ry) * (w * w);
    assert q * fy == E;
  }

  /** `_Lr(rts, E, Fy, J, Sx, ho)`: equation F2-6 with u = J/(Sx·ho). */
  function InelasticLength(m: Analytic, rts: real, fy: real, j: real, sx: real, ho: real): real
    requires fy != 0.0 && sx * ho != 0.0
  {
    var u := j / (sx * ho);
    1.95 * rts * (E / (0.7 * fy)) * m.sqrt(u + m.sqrt(Sq(u) + 6.76 * Sq(0.7 * fy / E)))
  }

  /** √(u² + c) > |u| for c > 0, so u + √(u² + c) > 0 for every u. */
  lemma RootAboveAbs(m: Analytic, u: real, c: real)
    requires Sound(m) && c > 0.0
    ensures u + m.sqrt(Sq(u) + c) > 0.0
  {
    var w := m.sqrt(Sq(u) + c);
    assert w >= 0.0 && w * w == Sq(u) + c;
    SqIsSquare(w);
    SqOfAbs(u);
    if w <= Abs(u) {
      SqMonotone(w, Abs(u));
    }
  }

  /** For rts > 0 and Fy > 0 the limiting length Lr is positive, whatever J, Sx and ho. */
  lemma InelasticLengthPositive(m: Analytic, rts: real, fy: real, j: real, sx: real, ho: real)
    requires Sound(m) && rts > 0.0 && fy > 0.0 && sx * ho != 0.0
    ensures InelasticLength(m, rts, fy, j, sx, ho) > 0.0
  {
    var u := j / (sx * ho);
    var c := 6.76 * Sq(0.7 * fy / E);
    assert c > 0.0;
    RootAboveAbs(m, u, c);
    SqrtPositive(m, u + m.sqrt(Sq(u) + c));
    DivPositive(E, 0.7 * fy);
    PositiveProduct(1.95 * rts, E / (0.7 * fy));
    PositiveProduct(1.95 * rts * (E / (0.7 * fy)), m.sqrt(u + m.sqrt(Sq(u) + c)));
  }

  // ---------------------------------------------------------------------------
  // Lateral-torsional buckling, F2-1 to F2-4
  // ---------------------------------------------------------------------------

  /** The LTB zones. */
  datatype LtbMode = Yielding | InelasticLtb | ElasticLtb

  /** The share x/d of a drop g. */
  function Drop(g: real, x: real, d: real): real
    requires d != 0.0
  {
    g * x / d
  }

  /** The straight line through (x0, y0) and (x1, y1), at x: the form of equations F2-2 and F3-1. */
  function Line(y0: real, y1: real, x: real, x0: real, x1: real): real
    requires x1 != x0
  {
    y0 - Drop(y0 - y1, x - x0, x1 - x0)
  }

  /** The line passes through its two defining points. */
  lemma LineEndpoints(y0: real, y1: real, x0: real, x1: real)
    requires x1 != x0
    ensures Line(y0, y1, x0, x0, x1) == y0
    ensures Line(y0, y1, x1, x0, x1) == y1
  {
    var d := x1 - x0;
    assert (y0 - y1) * d / d == y0 - y1;
  }

  /** A falling line (y1 ≤ y0) stays between y1 and y0 on [x0, x1] and does not increase there. */
  lemma LineBetween(y0: real, y1: real, xa: real, xb: real, x0: real, x1: real)
    requires x0 <= xa <= xb <= x1 && x0 < x1 && y1 <= y0
    ensures y1 <= Line(y0, y1, xb, x0, x1) <= Line(y0, y1, xa, x0, x1) <= y0
  {
    LineFraction(y0 - y1, xa - x0, x1 - x0);
    LineFraction(y0 - y1, xb - x0, x1 - x0);
    LineMonotone(y0 - y1, xa - x0, xb - x0, x1 - x0);
  }

  /** Equation F2-2 before the Mp cap: the straight line from Cb·Mp at Lp to Cb·0.7·Fy·Sx at Lr. */
  function InelasticLtbMoment(lb: real, lp: real, lr: real, mp: real, fy: real, sx: real, cb: real): real
    requires lr != lp
  {
    cb * Line(mp, 0.7 * fy * sx, lb, lp, lr)
  }

  /** The torsional coefficient 0.078·J/(Sx·ho) of equation F2-4. */
  function TorsionCoefficient(j: real, sx: real, ho: real): real
    requires sx * ho != 0.0
  {
    0.078 * j / (sx * ho)
  }

  /** The slenderness Lb/rts of equation F2-4. */
  function LtbSlenderness(lb: real, rts: real): (s: real)
    requires rts != 0.0 && lb != 0.0
    ensures s != 0.0
  {
    assert lb / rts * rts == lb;
    lb / rts
  }

  /** √(1 + k·t)/t, the part of equation F2-4 that depends on t = (Lb/rts)². */
  function Decay(m: Analytic, k: real, t: real): real
    requires t != 0.0
  {
    m.sqrt(1.0 + k * t) / t
  }

  /**
   * Equations F2-3 and F2-4 for the slenderness s = Lb/rts and the torsional
   * coefficient k: Fcr = Cb·π²·E/s²·√(1 + k·s²), grouped as (Cb·π²·E)·(√(1 + k·s²)/s²).
   */
  function ElasticLtbStress(m: Analytic, s: real, cb: real, k: real): real
    requires s != 0.0
  {
    LtbCoefficient(m, cb) * Decay(m, k, Sq(s))
  }

  /** Cb·π²·E. */
  function LtbCoefficient(m: Analytic, cb: real): (c: real)
    ensures cb >= 0.0 ==> c >= 0.0
  {
    if cb >= 0.0 then NonNegativeProduct(cb, Sq(m.pi)); cb * Sq(m.pi) * E
    else cb * Sq(m.pi) * E
  }

  /**
   * `_Mn_LTB`: Lb ≤ Lp yields (Mp), Lp < Lb ≤ Lr is inelastic, beyond Lr
   * elastic; both buckling zones are capped at Mp. Only the elastic zone
   * divides by rts and Lb.
   */
  function LtbMoment(m: Analytic, lb: real, lp: real, lr: real, mp: real, fy: real, sx: real,
                     cb: real, rts: real, j: real, ho: real): (r: Result<(real, LtbMode), Error>)
    requires sx * ho != 0.0
    ensures lb <= lp ==> r == Ok((mp, Yielding))
    ensures lp < lb <= lr ==> r == Ok((Min(InelasticLtbMoment(lb, lp, lr, mp, fy, sx, cb), mp), InelasticLtb))
    ensures lp < lb && lr < lb ==>
      && (r.Ok? <==> rts != 0.0 && lb != 0.0)
      && (r.Ok? ==> r.value == (Min(ElasticLtbStress(m, LtbSlenderness(lb, rts), cb, TorsionCoefficient(j, sx, ho)) * sx, mp), ElasticLtb))
      && (r.Err? ==> r.error == ZeroDivision)
    ensures r.Ok? ==> r.value.0 <= mp
  {
    if lb <= lp then Ok((mp, Yielding))
    else if lb <= lr then Ok((Min(InelasticLtbMoment(lb, lp, lr, mp, fy, sx, cb), mp), InelasticLtb))
    else if rts == 0.0 || lb == 0.0 then Err(ZeroDivision)
    else Ok((Min(ElasticLtbStress(m, LtbSlenderness(lb, rts), cb, TorsionCoefficient(j, sx, ho)) * sx, mp), ElasticLtb))
  }

  /** Before the cap, the F2-2 line equals Cb·Mp at Lb = Lp and Cb·0.7·Fy·Sx at Lb = Lr. */
  lemma InelasticLtbEndpoints(lp: real, lr: real, mp: real, fy: real, sx: real, cb: real)
    requires lr != lp
    ensures InelasticLtbMoment(lp, lp, lr, mp, fy, sx, cb) == cb * mp
    ensures InelasticLtbMoment(lr, lp, lr, mp, fy, sx, cb) == cb * (0.7 * fy * sx)
  {
    LineEndpoints(mp, 0.7 * fy * sx, lp, lr);
  }

  /** For g ≥ 0 and 0 ≤ x ≤ d: 0 ≤ g·x/d ≤ g. */
  lemma LineFraction(g: real, x: real, d: real)
    requires g >= 0.0 && 0.0 <= x <= d && d > 0.0
    ensures 0.0 <= Drop(g, x, d) <= g
  {
    NonNegativeProduct(g, x);
    DivNonNegative(g * x, d);
    MulMonotone(x, d, g);
    DivAtMost(g * x, d, g);
  }

  /** For g ≥ 0 and d > 0, g·x/d grows with x. */
  lemma LineMonotone(g: real, x1: real, x2: real, d: real)
    requires g >= 0.0 && x1 <= x2 && d > 0.0
    ensures Drop(g, x1, d) <= Drop(g, x2, d)
  {
    MulMonotone(x1, x2, g);
    DivMonotone(g * x1, g * x2, d);
  }

  /**
   * Inside the inelastic zone, with 0.7·Fy·Sx ≤ Mp and Cb ≥ 0, the line lies
   * between Cb·0.7·Fy·Sx and Cb·Mp and does not increase with Lb.
   */
  lemma InelasticLtbBetween(lb1: real, lb2: real, lp: real, lr: real, mp: real, fy: real, sx: real, cb: real)
    requires lp <= lb1 <= lb2 <= lr && lp < lr && 0.7 * fy * sx <= mp && cb >= 0.0
    ensures cb * (0.7 * fy * sx) <= InelasticLtbMoment(lb2, lp, lr, mp, fy, sx, cb)
    ensures InelasticLtbMoment(lb2, lp, lr, mp, fy, sx, cb) <= InelasticLtbMoment(lb1, lp, lr, mp, fy, sx, cb)
    ensures InelasticLtbMoment(lb1, lp, lr, mp, fy, sx, cb) <= cb * mp
  {
    LineBetween(mp, 0.7 * fy * sx, lb1, lb2, lp, lr);
    Scaled(cb, 0.7 * fy * sx, Line(mp, 0.7 * fy * sx, lb2, lp, lr), Line(mp, 0.7 * fy * sx, lb1, lp, lr), mp);
  }

  /** Multiplying on the left by c ≥ 0 keeps the order. */
  lemma ScaleLeft(a: real, b: real, c: real)
    requires a <= b && c >= 0.0
    ensures c * a <= c * b
  {
    MulMonotone(a, b, c);
  }

  /** Multiplying an ordered chain by c ≥ 0. */
  lemma Scaled(c: real, a: real, b: real, x: real, y: real)
    requires c >= 0.0 && a <= b <= x <= y
    ensures c * a <= c * b <= c * x <= c * y
  {
    MulMonotone(a, b, c);
    MulMonotone(b, x, c);
    MulMonotone(x, y, c);
  }

  /** For k ≥ 0 and 0 < t1 ≤ t2: (1 + k·t2)·t1² ≤ (1 + k·t1)·t2². */
  lemma CrossBound(k: real, t1: real, t2: real)
    requires k >= 0.0 && 0.0 < t1 <= t2
    ensures (1.0 + k * t2) * (t1 * t1) <= (1.0 + k * t1) * (t2 * t2)
  {
    MulMonotone(t1, t2, t1);
    MulMonotone(t1, t2, t2);
    var w := k * t1 * t2;
    NonNegativeProduct(k * t1, t2);
    MulMonotone(t1, t2, w);
    assert (1.0 + k * t2) * (t1 * t1) == t1 * t1 + t1 * w;
    assert (1.0 + k * t1) * (t2 * t2) == t2 * t2 + t2 * w;
  }

  /** √(1 + k·t)/t does not increase with t > 0 when k ≥ 0. */
  lemma DecayNonIncreasing(m: Analytic, k: real, t1: real, t2: real)
    requires Sound(m) && k >= 0.0 && 0.0 < t1 <= t2
    ensures Decay(m, k, t2) <= Decay(m, k, t1)
  {
    NonNegativeProduct(k, t1);
    MulMonotone(t1, t2, k);
    var a, b := m.sqrt(1.0 + k * t1), m.sqrt(1.0 + k * t2);
    assert a >= 0.0 && a * a == 1.0 + k * t1;
    assert b >= 0.0 && b * b == 1.0 + k * t2;
    CrossBound(k, t1, t2);
    assert (b * t1) * (b * t1) == (b * b) * (t1 * t1);
    assert (a * t2) * (a * t2) == (a * a) * (t2 * t2);
    NonNegativeProduct(b, t1);
    NonNegativeProduct(a, t2);
    SquareMonotone(b * t1, a * t2);
    CrossDivide(b, t2, a, t1);
  }

  /** Lb/rts grows with Lb for rts > 0. */
  lemma SlendernessMonotone(lb1: real, lb2: real, rts: real)
    requires 0.0 < lb1 <= lb2 && rts > 0.0
    ensures 0.0 < LtbSlenderness(lb1, rts) <= LtbSlenderness(lb2, rts)
  {
    DivPositive(lb1, rts);
    DivMonotone(lb1, lb2, rts);
  }

  /** The elastic LTB stress does not increase with the slenderness s > 0 when Cb ≥ 0 and k ≥ 0. */
  lemma ElasticLtbNonIncreasing(m: Analytic, s1: real, s2: real, cb: real, k: real)
    requires Sound(m) && 0.0 < s1 <= s2 && cb >= 0.0 && k >= 0.0
    ensures ElasticLtbStress(m, s2, cb, k) <= ElasticLtbStress(m, s1, cb, k)
  {
    SqMonotone(s1, s2);
    DecayNonIncreasing(m, k, Sq(s1), Sq(s2));
    ScaleLeft(Decay(m, k, Sq(s2)), Decay(m, k, Sq(s1)), LtbCoefficient(m, cb));
  }

  /** In the elastic zone Mn does not increase with Lb, for a fixed section and Cb ≥ 0 (J ≥ 0, Sx, ho > 0). */
  lemma LtbElasticZoneNonIncreasing(m: Analytic, lb1: real, lb2: real, lp: real, lr: real, mp: real, fy: real,
                                    sx: real, cb: real, rts: real, j: real, ho: real)
    requires Sound(m) && lp < lb1 && lr < lb1 && 0.0 < lb1 <= lb2
    requires rts > 0.0 && cb >= 0.0 && j >= 0.0 && sx > 0.0 && sx * ho > 0.0
    ensures LtbMoment(m, lb1, lp, lr, mp, fy, sx, cb, rts, j, ho).Ok?
    ensures LtbMoment(m, lb2, lp, lr, mp, fy, sx, cb, rts, j, ho).value.0
         <= LtbMoment(m, lb1, lp, lr, mp, fy, sx, cb, rts, j, ho).value.0
  {
    SlendernessMonotone(lb1, lb2, rts);
    TorsionCoefficientNonNegative(j, sx, ho);
    ElasticLtbNonIncreasing(m, LtbSlenderness(lb1, rts), LtbSlenderness(lb2, rts), cb, TorsionCoefficient(j, sx, ho));
    ElasticZoneOrder(m, lb1, lb2, lp, lr, mp, fy, sx, cb, rts, j, ho);
  }

  /** In the elastic zone, the order of the two F2-3 stresses carries over to the two moments. */
  lemma ElasticZoneOrder(m: Analytic, lb1: real, lb2: real, lp: real, lr: real, mp: real, fy: real,
                         sx: real, cb: real, rts: real, j: real, ho: real)
    requires lp < lb1 && lr < lb1 && 0.0 < lb1 <= lb2 && rts > 0.0 && sx > 0.0 && sx * ho > 0.0
    requires ElasticLtbStress(m, LtbSlenderness(lb2, rts), cb, TorsionCoefficient(j, sx, ho))
          <= ElasticLtbStress(m, LtbSlenderness(lb1, rts), cb, TorsionCoefficient(j, sx, ho))
    ensures LtbMoment(m, lb1, lp, lr, mp, fy, sx, cb, rts, j, ho).Ok?
    ensures LtbMoment(m, lb2, lp, lr, mp, fy, sx, cb, rts, j, ho).value.0
         <= LtbMoment(m, lb1, lp, lr, mp, fy, sx, cb, rts, j, ho).value.0
  {
    ScaledMinMonotone(ElasticLtbStress(m, LtbSlenderness(lb2, rts), cb, TorsionCoefficient(j, sx, ho)),
                      ElasticLtbStress(m, LtbSlenderness(lb1, rts), cb, TorsionCoefficient(j, sx, ho)), sx, mp);
  }

  lemma TorsionCoefficientNonNegative(j: real, sx: real, ho: real)
    requires j >= 0.0 && sx * ho > 0.0
    ensures TorsionCoefficient(j, sx, ho) >= 0.0
  {
    DivNonNegative(0.078 * j, sx * ho);
  }

  /** Scaling by s ≥ 0 and capping at c keep the order. */
  lemma ScaledMinMonotone(f2: real, f1: real, s: real, c: real)
    requires f2 <= f1 && s >= 0.0
    ensures Min(f2 * s, c) <= Min(f1 * s, c)
  {
    MulMonotone(f2, f1, s);
  }

  // ---------------------------------------------------------------------------
  // Flange local buckling, F3
  // ---------------------------------------------------------------------------

  /** The FLB zones; `FlangeAssumedCompact` is the bf/2tf ≤ 0 case, where FLB is not checked. */
  datatype FlbMode = CompactFlange | InelasticFlb | ElasticFlb | FlangeAssumedCompact

  /** (λpf, λrf) = (0.38·√(E/Fy), 1.0·√(E/Fy)). */
  function FlangeLimits(m: Analytic, fy: real): (real, real)
    requires fy != 0.0
  {
    (0.38 * m.sqrt(E / fy), 1.0 * m.sqrt(E / fy))
  }

  /** For Fy > 0 the breakpoints are ordered 0 < λpf < λrf. */
  lemma FlangeLimitsOrdered(m: Analytic, fy: real)
    requires Sound(m) && fy > 0.0
    ensures 0.0 < FlangeLimits(m, fy).0 < FlangeLimits(m, fy).1
  {
    DivPositive(E, fy);
    SqrtPositive(m, E / fy);
  }

  /** Kc = min(max(4/√λ, 0.35), 0.76). */
  function Kc(m: Analytic, lamf: real): (k: real)
    requires m.sqrt(lamf) != 0.0
    ensures 0.35 <= k <= 0.76
    ensures 0.35 <= 4.0 / m.sqrt(lamf) <= 0.76 ==> k == 4.0 / m.sqrt(lamf)
    ensures 4.0 / m.sqrt(lamf) < 0.35 ==> k == 0.35
    ensures 0.76 < 4.0 / m.sqrt(lamf) ==> k == 0.76
  {
    Min(Max(4.0 / m.sqrt(lamf), 0.35), 0.76)
  }

  /** Equation F3-1 between λpf and λrf: the line from Mp down to 0.7·Fy·Sx. */
  function InelasticFlbMoment(mp: real, fy: real, sx: real, lamf: real, lampf: real, lamrf: real): real
    requires lamrf != lampf
  {
    Line(mp, 0.7 * fy * sx, lamf, lampf, lamrf)
  }

  /** Equation F3-2: Fcr = 0.9·E·Kc/λ². */
  function ElasticFlbStress(m: Analytic, lamf: real): real
    requires m.sqrt(lamf) != 0.0 && lamf != 0.0
  {
    0.9 * E * Kc(m, lamf) / Sq(lamf)
  }

  /** The F3-1 line is Mp at λpf and 0.7·Fy·Sx at λrf. */
  lemma InelasticFlbEndpoints(mp: real, fy: real, sx: real, lampf: real, lamrf: real)
    requires lamrf != lampf
    ensures InelasticFlbMoment(mp, fy, sx, lampf, lampf, lamrf) == mp
    ensures InelasticFlbMoment(mp, fy, sx, lamrf, lampf, lamrf) == 0.7 * fy * sx
  {
    LineEndpoints(mp, 0.7 * fy * sx, lampf, lamrf);
  }

  /** Kc does not increase with λ, so the elastic FLB stress decreases as the flange gets more slender. */
  lemma ElasticFlbNonIncreasing(m: Analytic, l1: real, l2: real)
    requires Sound(m) && 0.0 < l1 <= l2
    ensures m.sqrt(l1) > 0.0 && m.sqrt(l2) > 0.0
    ensures ElasticFlbStress(m, l2) <= ElasticFlbStress(m, l1)
  {
    SqrtPositive(m, l1);
    SqrtPositive(m, l2);
    SqrtMonotone(m, l1, l2);
    DivAntitone(4.0, m.sqrt(l1), m.sqrt(l2));
    var k1, k2 := Kc(m, l1), Kc(m, l2);
    assert k2 <= k1;
    SqMonotone(l1, l2);
    var c1, c2 := 0.9 * E * k1, 0.9 * E * k2;
    DivMonotone(c2, c1, Sq(l2));
    DivAntitone(c1, Sq(l1), Sq(l2));
  }

  /**
   * `_Mn_FLB`: compact up to λpf (Mp), the F3-1 line up to λrf, the elastic
   * F3-2 stress times Sx beyond, capped at Mp; also returns (λpf, λrf).
   */
  function FlbMoment(m: Analytic, mp: real, fy: real, sx: real, lamf: real): (r: Result<(real, FlbMode, real, real), Error>)
    requires lamf > 0.0
    ensures fy == 0.0 ==> r == Err(ZeroDivision)
    ensures fy != 0.0 ==>
      var (lampf, lamrf) := FlangeLimits(m, fy);
      && (r.Ok? ==> r.value.2 == lampf && r.value.3 == lamrf)
      && (lamf <= lampf ==> r.Ok? && r.value.0 == mp && r.value.1 == CompactFlange)
      && (lampf < lamf <= lamrf ==>
           r.Ok? && r.value.0 == InelasticFlbMoment(mp, fy, sx, lamf, lampf, lamrf) && r.value.1 == InelasticFlb)
      && (lampf < lamf && lamrf < lamf ==>
           && (r.Ok? <==> m.sqrt(lamf) != 0.0)
           && (r.Ok? ==> r.value.0 == Min(ElasticFlbStress(m, lamf) * sx, mp) && r.value.1 == ElasticFlb))
    ensures r.Err? ==> r.error == ZeroDivision
  {
    if fy == 0.0 then Err(ZeroDivision)
    else
      var (lampf, lamrf) := FlangeLimits(m, fy);
      if lamf <= lampf then Ok((mp, CompactFlange, lampf, lamrf))
      else if lamf <= lamrf then Ok((InelasticFlbMoment(mp, fy, sx, lamf, lampf, lamrf), InelasticFlb, lampf, lamrf))
      else if m.sqrt(lamf) == 0.0 then Err(ZeroDivision)
      else Ok((Min(ElasticFlbStress(m, lamf) * sx, mp), ElasticFlb, lampf, lamrf))
  }

  /** With 0.7·Fy·Sx ≤ Mp, FLB never gives more than Mp in any zone. */
  lemma FlbMomentAtMostPlastic(m: Analytic, mp: real, fy: real, sx: real, lamf: real)
    requires lamf > 0.0 && 0.7 * fy * sx <= mp
    ensures FlbMoment(m, mp, fy, sx, lamf).Ok? ==> FlbMoment(m, mp, fy, sx, lamf).value.0 <= mp
  {
    var r := FlbMoment(m, mp, fy, sx, lamf);
    if r.Ok? && r.value.1 == InelasticFlb {
      var (lampf, lamrf) := FlangeLimits(m, fy);
      LineBetween(mp, 0.7 * fy * sx, lamf, lamf, lampf, lamrf);
    }
  }

  // ---------------------------------------------------------------------------
  // `flexion`
  // ---------------------------------------------------------------------------

  /** The governing limit state reported as `modo`. */
  datatype FlexureMode = LtbGoverns(ltb: LtbMode) | FlbGoverns(flb: FlbMode) | AngleRule

  /** The F2/F3 quantities reported for I-shapes and channels; moments in kN·m, lengths in mm. */
  datatype StrongAxisDetail = StrongAxisDetail(
    lp: real, lr: real, rts: real, ho: real,
    mnLtb: real, mnFlb: real, ltbMode: LtbMode, flbMode: FlbMode,
    lamF: real, lamPf: real, lamRf: real)

  /** The result of `flexion`; moments in kN·m. `detail` is None for angles (Lp, Lr are NaN there). */
  datatype FlexureResult = FlexureResult(
    props: Props, mn: real, md: real, mp: real, my: real,
    detail: Option<StrongAxisDetail>, mode: FlexureMode, warnings: seq<Warning>)

  /** Fy times a section modulus: Mp = Fy·Zx, My = Fy·Sx (N·mm). */
  function Moment(fy: real, modulus: real): real {
    fy * modulus
  }

  /** N·mm to kN·m. */
  function KiloNewtonMetres(x: real): real {
    x / 1000000.0
  }

  /** `props['flexion'].get('Zx')`, with 1.12·Sx when it is absent or zero; the flag says which. */
  function PlasticModulus(flexure: map<Key, real>, sx: real): (real, bool) {
    if Zx in flexure && flexure[Zx] != 0.0 then (flexure[Zx], false) else (1.12 * sx, true)
  }

  /** The strong-axis (F2/F3) properties read in the order of the source. */
  datatype StrongAxisInputs = StrongAxisInputs(sx: real, iy: real, ry: real, j: real, cw: real, d: real, tf: real, bf2tf: real)

  function ReadStrongAxis(p: Props): (r: Result<StrongAxisInputs, Error>)
    ensures WellFormed(p) && p.family in {DobleT, Canal} ==> r.Ok?
    ensures r.Ok? <==> Sx in p.flexure && Iy in p.flexure && Ry in p.flexure && J in p.torsion && Cw in p.torsion
                       && D in p.basic && Tf in p.section && Bf2tf in p.section
    ensures r.Err? ==> r.error.MissingKey?
    ensures r.Ok? ==> r.value == StrongAxisInputs(p.flexure[Sx], p.flexure[Iy], p.flexure[Ry], p.torsion[J],
                                                  p.torsion[Cw], p.basic[D], p.section[Tf], p.section[Bf2tf])
  {
    var sx :- Lookup(p.flexure, Sx);
    var iy :- Lookup(p.flexure, Iy);
    var ry :- Lookup(p.flexure, Ry);
    var j :- Lookup(p.torsion, J);
    var cw :- Lookup(p.torsion, Cw);
    var d :- Lookup(p.basic, D);
    var tf :- Lookup(p.section, Tf);
    var bf2tf :- Lookup(p.section, Bf2tf);
    Ok(StrongAxisInputs(sx, iy, ry, j, cw, d, tf, bf2tf))
  }

  /** The flange check, with Mn_flb = Mp and the breakpoints when bf/2tf ≤ 0. */
  function FlangeCheck(m: Analytic, mp: real, fy: real, sx: real, bf2tf: real): (r: Result<(real, FlbMode, real, real), Error>)
    requires fy != 0.0
    ensures bf2tf > 0.0 ==> r == FlbMoment(m, mp, fy, sx, bf2tf)
    ensures bf2tf <= 0.0 ==> r == Ok((mp, FlangeAssumedCompact, FlangeLimits(m, fy).0, FlangeLimits(m, fy).1))
  {
    if bf2tf > 0.0 then FlbMoment(m, mp, fy, sx, bf2tf)
    else Ok((mp, FlangeAssumedCompact, FlangeLimits(m, fy).0, FlangeLimits(m, fy).1))
  }

  /** The warnings of the I-shape/channel branch, in the order they are appended. */
  function StrongAxisWarnings(zxApproximated: bool, bf2tf: real, family: Family): seq<Warning> {
    (if zxApproximated then [ZxApproximated] else [])
    + (if bf2tf <= 0.0 then [FlangeNotChecked] else [])
    + (if family == Canal then [ChannelLtb] else [])
  }

  /** Whether `flexion` divides by zero: by Fy, or by Sx·ho in the expression of Lr. */
  predicate DividesByZero(v: StrongAxisInputs, fy: real) {
    fy == 0.0 || v.sx * (v.d - v.tf) == 0.0
  }

  /**
   * The exception the I-shape/channel branch raises, or None: the KeyError of
   * a missing property, the division by Fy, Sx or ho, then the divisions of
   * the LTB and FLB checks.
   */
  function StrongAxisRaises(m: Analytic, p: Props, fy: real, lb: real, cb: real): Option<Error>
  {
    match ReadStrongAxis(p)
    case Err(e) => Some(e)
    case Ok(v) =>
      if DividesByZero(v, fy) then Some(ZeroDivision)
      else BucklingRaises(m, v, Moment(fy, PlasticModulus(p.flexure, v.sx).0), fy, lb, cb)
  }

  /** The exception of the LTB check, then of the FLB check, once the divisors are known to be non-zero. */
  function BucklingRaises(m: Analytic, v: StrongAxisInputs, mp: real, fy: real, lb: real, cb: real): Option<Error>
    requires !DividesByZero(v, fy)
  {
    var ho := v.d - v.tf;
    var rts := Rts(m, v.iy, v.cw, v.sx);
    var ltb := LtbMoment(m, lb, PlasticLength(m, v.ry, fy), InelasticLength(m, rts, fy, v.j, v.sx, ho),
                         mp, fy, v.sx, cb, rts, v.j, ho);
    if ltb.Err? then Some(ltb.error)
    else
      var flb := FlangeCheck(m, mp, fy, v.sx, v.bf2tf);
      if flb.Err? then Some(flb.error) else None
  }

  /** The I-shape/channel branch of `flexion`. */
  method StrongAxisFlexure(m: Analytic, p: Props, fy: real, lb: real, cb: real) returns (r: Result<FlexureResult, Error>)
    ensures ReadStrongAxis(p).Err? ==> r == Err(ReadStrongAxis(p).error)
    ensures ReadStrongAxis(p).Ok? && DividesByZero(ReadStrongAxis(p).value, fy) ==> r == Err(ZeroDivision)
    ensures r.Ok? ==> StrongAxisOf(m, p, fy, lb, cb, r.value)
    ensures r.Ok? ==> r.value.mn <= r.value.mp && r.value.md == PhiB * r.value.mn
    ensures r.Ok? <==> StrongAxisRaises(m, p, fy, lb, cb).None?
    ensures r.Err? ==> Some(r.error) == StrongAxisRaises(m, p, fy, lb, cb)
  {
    var vr := ReadStrongAxis(p);
    if vr.Err? {
      assert StrongAxisRaises(m, p, fy, lb, cb) == Some(vr.error);
      return Err(vr.error);
    }
    var v := vr.value;
    if DividesByZero(v, fy) {
      assert StrongAxisRaises(m, p, fy, lb, cb) == Some(ZeroDivision);
      return Err(ZeroDivision);
    }
    r := StrongAxisChecks(m, p, fy, lb, cb);
  }

  /** The lateral-torsional and flange local buckling checks, once the properties are read and the divisors are non-zero. */
  method StrongAxisChecks(m: Analytic, p: Props, fy: real, lb: real, cb: real) returns (r: Result<FlexureResult, Error>)
    requires ReadStrongAxis(p).Ok?
    requires !DividesByZero(ReadStrongAxis(p).value, fy)
    ensures r.Ok? ==> StrongAxisOf(m, p, fy, lb, cb, r.value)
    ensures r.Ok? ==> r.value.mn <= r.value.mp && r.value.md == PhiB * r.value.mn
    ensures r.Ok? <==> StrongAxisRaises(m, p, fy, lb, cb).None?
    ensures r.Err? ==> Some(r.error) == StrongAxisRaises(m, p, fy, lb, cb)
  {
    var v := ReadStrongAxis(p).value;
    var (zx, approximated) := PlasticModulus(p.flexure, v.sx);
    var mp, my, ho := Moment(fy, zx), Moment(fy, v.sx), v.d - v.tf;
    ghost var raises := BucklingRaises(m, v, mp, fy, lb, cb);
    assert StrongAxisRaises(m, p, fy, lb, cb) == raises;
    var rts := Rts(m, v.iy, v.cw, v.sx);
    var lp := PlasticLength(m, v.ry, fy);
    var lr := InelasticLength(m, rts, fy, v.j, v.sx, ho);
    var ltb := LtbMoment(m, lb, lp, lr, mp, fy, v.sx, cb, rts, v.j, ho);
    if ltb.Err? {
      assert raises == Some(ltb.error);
      return Err(ltb.error);
    }
    var (mnLtb, ltbMode) := ltb.value;
    assert mnLtb <= mp;
    var flb := FlangeCheck(m, mp, fy, v.sx, v.bf2tf);
    assert raises == (if flb.Err? then Some(flb.error) else None);
    if flb.Err? {
      return Err(flb.error);
    }
    var (mnFlb, flbMode, lamPf, lamRf) := flb.value;
    var mn := Min(mnLtb, mnFlb);
    var mode := if mnLtb <= mnFlb then LtbGoverns(ltbMode) else FlbGoverns(flbMode);
    var detail := StrongAxisDetail(lp, lr, rts, ho, KiloNewtonMetres(mnLtb), KiloNewtonMetres(mnFlb),
                                   ltbMode, flbMode, v.bf2tf, lamPf, lamRf);
    DivAtMost(mn, 1000000.0, KiloNewtonMetres(mp));
    r := Ok(FlexureResult(p, KiloNewtonMetres(mn), PhiB * KiloNewtonMetres(mn), KiloNewtonMetres(mp),
                          KiloNewtonMetres(my), Some(detail), mode, StrongAxisWarnings(approximated, v.bf2tf, p.family)));
  }

  /** What a successful I-shape/channel branch reports, in terms of the functions of each step. */
  ghost predicate StrongAxisOf(m: Analytic, p: Props, fy: real, lb: real, cb: real, c: FlexureResult) {
    && ReadStrongAxis(p).Ok?
    && var v := ReadStrongAxis(p).value;
       var (zx, approximated) := PlasticModulus(p.flexure, v.sx);
       var mp, ho := Moment(fy, zx), v.d - v.tf;
       && fy != 0.0 && v.sx * ho != 0.0
       && c.detail.Some?
       && (var dt := c.detail.value;
          && dt.rts == Rts(m, v.iy, v.cw, v.sx)
          && dt.lp == PlasticLength(m, v.ry, fy)
          && dt.lr == InelasticLength(m, dt.rts, fy, v.j, v.sx, ho)
          && dt.ho == ho
          && (var ltb := LtbMoment(m, lb, dt.lp, dt.lr, mp, fy, v.sx, cb, dt.rts, v.j, ho);
              var flb := FlangeCheck(m, mp, fy, v.sx, v.bf2tf);
              && ltb.Ok? && flb.Ok?
              && dt.ltbMode == ltb.value.1 && dt.mnLtb == KiloNewtonMetres(ltb.value.0)
              && dt.flbMode == flb.value.1 && dt.mnFlb == KiloNewtonMetres(flb.value.0)
              && dt.lamF == v.bf2tf && dt.lamPf == flb.value.2 && dt.lamRf == flb.value.3
              && c.mn == KiloNewtonMetres(Min(ltb.value.0, flb.value.0))
              && c.mode == (if ltb.value.0 <= flb.value.0 then LtbGoverns(ltb.value.1) else FlbGoverns(flb.value.1))))
       && c.props == p
       && c.mp == KiloNewtonMetres(mp) && c.my == KiloNewtonMetres(Moment(fy, v.sx))
       && c.warnings == StrongAxisWarnings(approximated, v.bf2tf, p.family)
  }

  /**
   * `flexion` on the profile's row: extract the properties, then the
   * I-shape/channel branch, the angle rule Mn = 1.5·Fy·Sx (with Mp reported
   * equal to Mn), or the ValueError of any other family.
   */
  /** The exception `flexion` raises for a row, or None. */
  function FlexureRaises(m: Analytic, row: Row, db: Database, fy: real, lb: real, cb: real): Option<Error> {
    match ExtractProperties(m, row, db.Name())
    case Err(e) => Some(e)
    case Ok(p) =>
      if p.family in {DobleT, Canal} then StrongAxisRaises(m, p, fy, lb, cb)
      else if p.family == Angular then None
      else Some(UnsupportedFamily(p.family))
  }

  method FlexureOfRow(m: Analytic, row: Row, db: Database, fy: real, lb: real, cb: real)
    returns (r: Result<FlexureResult, Error>)
    ensures ExtractProperties(m, row, db.Name()).Err? ==> r == Err(ExtractProperties(m, row, db.Name()).error)
    ensures ExtractProperties(m, row, db.Name()).Ok? ==>
      var p := ExtractProperties(m, row, db.Name()).value;
      && (p.family !in {DobleT, Canal, Angular} ==> r == Err(UnsupportedFamily(p.family)))
      && (p.family == Angular ==> r == Ok(AngleResult(p, fy)))
      && (p.family in {DobleT, Canal} && r.Ok? ==> StrongAxisOf(m, p, fy, lb, cb, r.value))
      && (p.family in {DobleT, Canal} ==> (r.Ok? <==> StrongAxisRaises(m, p, fy, lb, cb).None?))
      && (p.family in {DobleT, Canal} && r.Err? ==> Some(r.error) == StrongAxisRaises(m, p, fy, lb, cb))
    ensures r.Ok? ==> ExtractProperties(m, row, db.Name()) == Ok(r.value.props)
    ensures r.Ok? ==> r.value.md == PhiB * r.value.mn
    ensures r.Ok? && r.value.props.family != Angular ==> r.value.mn <= r.value.mp
    ensures r.Ok? <==> FlexureRaises(m, row, db, fy, lb, cb).None?
    ensures r.Err? ==> Some(r.error) == FlexureRaises(m, row, db, fy, lb, cb)
  {
    var pr := ExtractProperties(m, row, db.Name());
    if pr.Err? {
      return Err(pr.error);
    }
    var p := pr.value;
    if p.family == DobleT || p.family == Canal {
      r := StrongAxisFlexure(m, p, fy, lb, cb);
    } else if p.family == Angular {
      r := Ok(AngleResult(p, fy));
    } else {
      r := Err(UnsupportedFamily(p.family));
    }
  }

  /** Section F10 simplified: My = Fy·Sx and Mn = Mp = 1.5·My, with the angle note. */
  function AngleResult(p: Props, fy: real): (c: FlexureResult)
    requires Sx in p.flexure
    ensures c.mn == c.mp && c.md == PhiB * c.mn && c.detail.None? && c.mode == AngleRule
    ensures c.mn == 1.5 * c.my && c.my == KiloNewtonMetres(fy * p.flexure[Sx])
    ensures c.warnings == [AngleFlexure]
  {
    var my := fy * p.flexure[Sx];
    var mn := 1.5 * my;
    FlexureResult(p, KiloNewtonMetres(mn), PhiB * KiloNewtonMetres(mn), KiloNewtonMetres(mn), KiloNewtonMetres(my),
                  None, AngleRule, [AngleFlexure])
  }

  /** Mn = min(Mn_ltb, Mn_flb), and the mode comes from LTB exactly when Mn_ltb ≤ Mn_flb (ties go to LTB). */
  lemma GoverningLimitState(m: Analytic, p: Props, fy: real, lb: real, cb: real, c: FlexureResult)
    requires StrongAxisOf(m, p, fy, lb, cb, c)
    ensures c.mn <= c.detail.value.mnLtb && c.mn <= c.detail.value.mnFlb
    ensures c.mn == c.detail.value.mnLtb || c.mn == c.detail.value.mnFlb
    ensures c.mode.LtbGoverns? <==> c.detail.value.mnLtb <= c.detail.value.mnFlb
    ensures c.mode.LtbGoverns? ==> c.mode.ltb == c.detail.value.ltbMode
    ensures c.mode.FlbGoverns? ==> c.mode.flb == c.detail.value.flbMode
  {
    var dt := c.detail.value;
    var v := ReadStrongAxis(p).value;
    var (zx, approximated) := PlasticModulus(p.flexure, v.sx);
    var mp, ho := Moment(fy, zx), v.d - v.tf;
    var ltb := LtbMoment(m, lb, dt.lp, dt.lr, mp, fy, v.sx, cb, dt.rts, v.j, ho);
    var flb := FlangeCheck(m, mp, fy, v.sx, v.bf2tf);
    var a, b := ltb.value.0, flb.value.0;
    DivAtMost(Min(a, b), 1000000.0, KiloNewtonMetres(a));
    DivAtMost(Min(a, b), 1000000.0, KiloNewtonMetres(b));
    if a <= b {
      DivAtMost(a, 1000000.0, KiloNewtonMetres(b));
    } else {
      DivLess(b, 1000000.0, KiloNewtonMetres(a));
    }
  }
}
