/**
 * Axial compression strength (AISC 360-10 sections E3, E4 and E7): elastic
 * buckling stresses of the flexural, torsional and flexural-torsional modes,
 * the governing (smallest) one, the critical stress in two regimes, the
 * iteration for the slender-element factor Q, and Pn = Fcr·A, Pd = 0.9·Pn.
 */
module Compression {
  import opened Wrappers
  import opened RealMath
  import opened Tags
  import opened Diagnostics
  import opened Profile
  import opened Rows
  import opened Classification

  const E: real := 200000.0     // MPa
  const G: real := 77200.0      // MPa
  const PhiC: real := 0.90

  // ---------------------------------------------------------------------------
  // Elastic buckling stresses
  // ---------------------------------------------------------------------------

  /** `_fe_flexional(KL, r)`: (π²·E/(KL/r)², KL/r), equation E3-4. */
  function FeFlexural(m: Analytic, kl: real, r: real): (real, real)
    requires r != 0.0 && kl != 0.0
  {
    var s := kl / r;
    (Sq(m.pi) * E / Sq(s), s)
  }

  /** The flexural stress is positive and Fe·(KL/r)² = π²·E. */
  lemma FeFlexuralSound(m: Analytic, kl: real, r: real)
    requires Sound(m) && r != 0.0 && kl != 0.0
    ensures var (fe, s) := FeFlexural(m, kl, r);
      && s == kl / r && fe > 0.0 && fe * Sq(s) == Sq(m.pi) * E
  {
    var s := kl / r;
    assert s != 0.0;
    DivPositive(Sq(m.pi) * E, Sq(s));
  }

  /** A more slender member buckles at a lower (or equal) flexural stress. */
  lemma FeFlexuralDecreasing(m: Analytic, kl1: real, r1: real, kl2: real, r2: real)
    requires Sound(m) && r1 != 0.0 && kl1 != 0.0 && r2 != 0.0 && kl2 != 0.0
    requires Abs(kl1 / r1) <= Abs(kl2 / r2)
    ensures FeFlexural(m, kl2, r2).0 <= FeFlexural(m, kl1, r1).0
  {
    var s1, s2 := kl1 / r1, kl2 / r2;
    assert s1 != 0.0;
    SqOfAbs(s1);
    SqOfAbs(s2);
    SqMonotone(Abs(s1), Abs(s2));
    DivAntitone(Sq(m.pi) * E, Sq(s1), Sq(s2));
  }

  /** `_fe_torsional`: (π²·E·Cw/(Kz·Lz)² + G·J)/(Ag·ro²), equation E4-4. */
  function FeTorsional(m: Analytic, j: real, cw: real, kz: real, lz: real, ag: real, ro: real): real
    requires kz * lz != 0.0 && ag * Sq(ro) != 0.0
  {
    (Sq(m.pi) * E * cw / Sq(kz * lz) + G * j) / (ag * Sq(ro))
  }

  /** With positive area, non-negative J and Cw and one of them positive, the torsional stress is positive. */
  lemma FeTorsionalPositive(m: Analytic, j: real, cw: real, kz: real, lz: real, ag: real, ro: real)
    requires Sound(m) && kz * lz != 0.0 && ag > 0.0 && ro != 0.0
    requires j >= 0.0 && cw >= 0.0 && (j > 0.0 || cw > 0.0)
    ensures FeTorsional(m, j, cw, kz, lz, ag, ro) > 0.0
  {
    var w := Sq(m.pi) * E * cw;
    DivNonNegative(w, Sq(kz * lz));
    if cw > 0.0 {
      DivPositive(w, Sq(kz * lz));
    }
    PositiveProduct(ag, Sq(ro));
    DivPositive(w / Sq(kz * lz) + G * j, ag * Sq(ro));
  }

  /** `_fe_flexotorsional_canal`: (Fey + Fez)/(2H)·(1 − √(1 − 4·Fey·Fez·H/(Fey + Fez)²)), equation E4-2. */
  function FeFlexTorsional(m: Analytic, fey: real, fez: real, h: real): real
    requires h != 0.0 && fey + fez != 0.0
  {
    (fey + fez) / (2.0 * h) * (1.0 - Root(m, fey, fez, h))
  }

  /** The square root in equation E4-2. */
  function Root(m: Analytic, fey: real, fez: real, h: real): real
    requires fey + fez != 0.0
  {
    m.sqrt(1.0 - 4.0 * fey * fez * h / Sq(fey + fez))
  }

  /** For positive Fey, Fez and 0 < H ≤ 1 the subtracted term lies in (0, 1]. */
  lemma DiscriminantRange(fey: real, fez: real, h: real)
    requires fey > 0.0 && fez > 0.0 && 0.0 < h <= 1.0
    ensures 0.0 < 4.0 * fey * fez * h / Sq(fey + fez) <= 1.0
  {
    var s := fey + fez;
    SqIsSquare(s);
    SqIsSquare(fey - fez);
    assert Sq(s) - 4.0 * (fey * fez) == Sq(fey - fez);
    PositiveProduct(fey, fez);
    MulMonotone(h, 1.0, 4.0 * (fey * fez));
    DivAtMost(4.0 * fey * fez * h, Sq(s), 1.0);
    PositiveProduct(4.0 * (fey * fez), h);
    DivPositive(4.0 * fey * fez * h, Sq(s));
  }

  /** 1 − 4·Fey·Fez·H/(Fey + Fez)² ≥ ((Fey − Fez)/(Fey + Fez))². */
  lemma DiscriminantLower(fey: real, fez: real, h: real)
    requires fey > 0.0 && fez > 0.0 && 0.0 < h <= 1.0
    ensures Sq(fey - fez) / Sq(fey + fez) <= 1.0 - 4.0 * fey * fez * h / Sq(fey + fez)
  {
    var s := fey + fez;
    var w := 4.0 * (fey * fez);
    SqIsSquare(s);
    SqIsSquare(fey - fez);
    assert Sq(s) - w == Sq(fey - fez);
    PositiveProduct(fey, fez);
    MulMonotone(h, 1.0, w);
    var big := Sq(s);
    var num := w * h;
    assert 4.0 * fey * fez * h == num;
    DivSubtract(big, num, Sq(fey - fez));
  }

  /** (Fey + Fez)·√(…) ≥ |Fey − Fez|. */
  lemma RootLowerBound(m: Analytic, fey: real, fez: real, h: real)
    requires Sound(m) && fey > 0.0 && fez > 0.0 && 0.0 < h <= 1.0
    ensures Abs(fey - fez) <= (fey + fez) * m.sqrt(1.0 - 4.0 * fey * fez * h / Sq(fey + fez))
  {
    var s := fey + fez;
    var x := 1.0 - 4.0 * fey * fez * h / Sq(s);
    var d := Sq(fey - fez) / Sq(s);
    DivNonNegative(Sq(fey - fez), Sq(s));
    DiscriminantLower(fey, fez, h);
    SqrtMonotone(m, d, x);
    SqrtOfQuotient(m, fey - fez, s);
    ScaleBound(m.sqrt(d), m.sqrt(x), s, Abs(fey - fez));
  }

  /** The bound after rationalising 1 − q = t/(1 + q). */
  lemma RationalizedBound(s: real, q: real, t: real, fey: real, fez: real, h: real)
    requires s == fey + fez && fey > 0.0 && fez > 0.0 && h > 0.0 && 0.0 <= q
    requires fez - fey <= s * q
    requires (1.0 - q) * (1.0 + q) == t && t * (s * s) == 4.0 * fey * fez * h
    ensures s * (1.0 - q) <= 2.0 * h * fey
  {
    var c := 2.0 * (h * fey);
    PositiveProduct(h, fey);
    var lhs, rhs := 2.0 * fez, s * (1.0 + q);
    MulMonotone(lhs, rhs, c);
    assert s * (s * t) <= s * (c * (1.0 + q));
    MulCancel(s * t, c * (1.0 + q), s);
    assert (s * (1.0 - q)) * (1.0 + q) <= c * (1.0 + q);
    MulCancel(s * (1.0 - q), c, 1.0 + q);
  }

  lemma ScaledFactorBound(s: real, q: real, h: real, f: real)
    requires s > 0.0 && 0.0 <= q < 1.0 && h > 0.0 && s * (1.0 - q) <= 2.0 * h * f
    ensures 0.0 < s / (2.0 * h) * (1.0 - q) <= f
  {
    QuotientTimes(s, 2.0 * h, 1.0 - q);
    PositiveProduct(s, 1.0 - q);
    DivPositive(s * (1.0 - q), 2.0 * h);
    DivAtMost(s * (1.0 - q), 2.0 * h, f);
  }

  /** What the proof of the bounds uses about the root. */
  lemma RootFacts(m: Analytic, fey: real, fez: real, h: real)
    requires Sound(m) && fey > 0.0 && fez > 0.0 && 0.0 < h <= 1.0
    ensures var q := Root(m, fey, fez, h);
      && 0.0 <= q < 1.0
      && Abs(fey - fez) <= (fey + fez) * q
      && (1.0 - q) * (1.0 + q) == 4.0 * fey * fez * h / Sq(fey + fez)
  {
    var t := 4.0 * fey * fez * h / Sq(fey + fez);
    DiscriminantRange(fey, fez, h);
    SqrtBelowOne(m, 1.0 - t);
    RootLowerBound(m, fey, fez, h);
    RootSquared(m, 1.0 - t);
  }

  lemma RootGap(m: Analytic, fey: real, fez: real, h: real)
    requires fey > 0.0 && fez > 0.0 && 0.0 < h <= 1.0
    requires var q := Root(m, fey, fez, h);
      && 0.0 <= q < 1.0
      && Abs(fey - fez) <= (fey + fez) * q
      && (1.0 - q) * (1.0 + q) == 4.0 * fey * fez * h / Sq(fey + fez)
    ensures (fey + fez) * (1.0 - Root(m, fey, fez, h)) <= 2.0 * h * fey
  {
    QuotientOfSquare(4.0 * fey * fez * h, fey + fez);
    RationalizedBound(fey + fez, Root(m, fey, fez, h), 4.0 * fey * fez * h / Sq(fey + fez), fey, fez, h);
  }

  lemma FeFlexTorsionalFromGap(m: Analytic, fey: real, fez: real, h: real)
    requires fey > 0.0 && fez > 0.0 && h > 0.0 && 0.0 <= Root(m, fey, fez, h) < 1.0
    requires (fey + fez) * (1.0 - Root(m, fey, fez, h)) <= 2.0 * h * fey
    ensures 0.0 < FeFlexTorsional(m, fey, fez, h) <= fey
  {
    var s, q := fey + fez, Root(m, fey, fez, h);
    assert FeFlexTorsional(m, fey, fez, h) == s / (2.0 * h) * (1.0 - q);
    ScaledFactorBound(s, q, h, fey);
  }

  lemma FeFlexTorsionalBelowFirst(m: Analytic, fey: real, fez: real, h: real)
    requires Sound(m) && fey > 0.0 && fez > 0.0 && 0.0 < h <= 1.0
    ensures 0.0 < FeFlexTorsional(m, fey, fez, h) <= fey
  {
    RootFacts(m, fey, fez, h);
    RootGap(m, fey, fez, h);
    FeFlexTorsionalFromGap(m, fey, fez, h);
  }

  /** Equation E4-2 is symmetric in Fey and Fez. */
  lemma FeFlexTorsionalSymmetric(m: Analytic, fey: real, fez: real, h: real)
    requires h != 0.0 && fey + fez != 0.0
    ensures FeFlexTorsional(m, fey, fez, h) == FeFlexTorsional(m, fez, fey, h)
  {
    assert 4.0 * fey * fez * h == 4.0 * fez * fey * h;
    assert Root(m, fey, fez, h) == Root(m, fez, fey, h);
  }

  /** The flexural-torsional stress is positive and below both Fey and Fez. */
  lemma FeFlexTorsionalBounds(m: Analytic, fey: real, fez: real, h: real)
    requires Sound(m) && fey > 0.0 && fez > 0.0 && 0.0 < h <= 1.0
    ensures 0.0 < FeFlexTorsional(m, fey, fez, h) <= Min(fey, fez)
  {
    FeFlexTorsionalBelowFirst(m, fey, fez, h);
    FeFlexTorsionalBelowFirst(m, fez, fey, h);
    FeFlexTorsionalSymmetric(m, fey, fez, h);
  }

  // ---------------------------------------------------------------------------
  // Critical stress
  // ---------------------------------------------------------------------------

  /** `_calcular_Fcr(Fe, Fy, Q)`: equations E3-2/E3-3 with Q·Fy in place of Fy (E7-2/E7-3). */
  function Fcr(m: Analytic, fe: real, fy: real, q: real): real
    requires fe != 0.0
  {
    CriticalStress(m, fe, q * fy)
  }

  /** The two regimes on QFy = Q·Fy. */
  function CriticalStress(m: Analytic, fe: real, qfy: real): real
    requires fe != 0.0
  {
    var ratio := qfy / fe;
    if ratio <= 2.25 then m.pow0658(ratio) * qfy else 0.877 * fe
  }

  lemma CriticalStressRegimes(m: Analytic, fe: real, qfy: real)
    requires Sound(m) && fe > 0.0 && qfy > 0.0
    ensures qfy / fe <= 2.25 ==> CriticalStress(m, fe, qfy) == m.pow0658(qfy / fe) * qfy
    ensures qfy / fe > 2.25 ==> CriticalStress(m, fe, qfy) == 0.877 * fe
    ensures 0.0 < CriticalStress(m, fe, qfy) <= qfy
  {
    var ratio := qfy / fe;
    DivPositive(qfy, fe);
    if ratio <= 2.25 {
      var p := m.pow0658(ratio);
      assert 0.0 < p <= 1.0;
      PositiveProduct(p, qfy);
      MulMonotone(p, 1.0, qfy);
    } else {
      DivAtMost(qfy, fe, 2.25);
    }
  }

  /**
   * For Fe > 0 and Q·Fy > 0: in the inelastic regime (Q·Fy/Fe ≤ 2.25)
   * Fcr = 0.658^(Q·Fy/Fe)·Q·Fy, in the elastic regime Fcr = 0.877·Fe, and in
   * both 0 < Fcr ≤ Q·Fy.
   */
  lemma FcrRegimes(m: Analytic, fe: real, fy: real, q: real)
    requires Sound(m) && fe > 0.0 && q * fy > 0.0
    ensures q * fy / fe <= 2.25 ==> Fcr(m, fe, fy, q) == m.pow0658(q * fy / fe) * (q * fy)
    ensures q * fy / fe > 2.25 ==> Fcr(m, fe, fy, q) == 0.877 * fe
    ensures 0.0 < Fcr(m, fe, fy, q) <= q * fy
  {
    CriticalStressRegimes(m, fe, q * fy);
  }

  /** Pn in kN from Fcr in MPa and A in mm². */
  function NominalStrength(fcr: real, a: real): real {
    fcr * a / 1000.0
  }

  /** The design strength φc·Fcr·A never exceeds φc·Q·Fy·A for a positive area. */
  lemma DesignStrengthBound(m: Analytic, fe: real, fy: real, q: real, a: real)
    requires Sound(m) && fe > 0.0 && q * fy > 0.0 && a > 0.0
    ensures 0.0 < PhiC * NominalStrength(Fcr(m, fe, fy, q), a) <= PhiC * NominalStrength(q * fy, a)
  {
    FcrRegimes(m, fe, fy, q);
    PositiveProduct(Fcr(m, fe, fy, q), a);
    MulMonotone(Fcr(m, fe, fy, q), q * fy, a);
  }

  // ---------------------------------------------------------------------------
  // Buckling modes and the governing one
  // ---------------------------------------------------------------------------

  /** The keys of `modos_Fe`. */
  datatype Mode = FlexuralX | FlexuralY | TorsionalZ | FlexTorsionalYZ | FlexuralIv

  /** Fe of each mode, in the insertion order of `modos_Fe`. */
  type Modes = seq<(Mode, real)>

  /**
   * `min(modos_Fe, key=modos_Fe.get)`: the position of the first mode whose
   * stress is the smallest.
   */
  function Governing(modes: Modes): (i: nat)
    requires |modes| > 0
    ensures i < |modes|
    ensures forall j :: 0 <= j < |modes| ==> modes[i].1 <= modes[j].1
    ensures forall j :: 0 <= j < i ==> modes[i].1 < modes[j].1
  {
    if |modes| == 1 then 0
    else
      var k := 1 + Governing(modes[1..]);
      assert forall j :: 1 <= j < |modes| ==> modes[j] == modes[1..][j - 1];
      if modes[0].1 <= modes[k].1 then 0 else k
  }

  function Names(modes: Modes): (names: seq<Mode>)
    ensures |names| == |modes|
    ensures forall i :: 0 <= i < |modes| ==> names[i] == modes[i].0
  {
    if modes == [] then [] else [modes[0].0] + Names(modes[1..])
  }

  /** The values of step 5 read from the property dictionary. */
  datatype SectionValues = SectionValues(
    a: real, rx: real, ry: real, j: real, cw: real,
    xo: real, yo: real, ro: real, h: Option<real>)

  /**
   * Step 5: `Ag`, `rx`, `ry`, `J`, `Cw`, `xo`, `yo`, `ro` with the KeyError of
   * the first absent one, and `H`, which is `None` when the dictionary holds none.
   */
  function ReadSectionValues(p: Props): (r: Result<SectionValues, Error>)
    ensures r.Ok? <==>
      && Ag in p.basic && Rx in p.flexure && Ry in p.flexure && J in p.torsion
      && Cw in p.torsion && Xo in p.shear && Yo in p.shear && Ro in p.shear
    ensures r.Ok? ==> r.value == SectionValues(
      p.basic[Ag], p.flexure[Rx], p.flexure[Ry], p.torsion[J], p.torsion[Cw],
      p.shear[Xo], p.shear[Yo], p.shear[Ro], if H in p.shear then Some(p.shear[H]) else None)
    ensures r.Err? ==> r.error.MissingKey?
  {
    var a :- Lookup(p.basic, Ag);
    var rx :- Lookup(p.flexure, Rx);
    var ry :- Lookup(p.flexure, Ry);
    var j :- Lookup(p.torsion, J);
    var cw :- Lookup(p.torsion, Cw);
    var xo :- Lookup(p.shear, Xo);
    var yo :- Lookup(p.shear, Yo);
    var ro :- Lookup(p.shear, Ro);
    Ok(SectionValues(a, rx, ry, j, cw, xo, yo, ro, if H in p.shear then Some(p.shear[H]) else None))
  }

  /** Every extracted dictionary has the values of step 5. */
  lemma WellFormedSectionValues(p: Props)
    requires WellFormed(p)
    ensures ReadSectionValues(p).Ok?
  {
    assert Ag in BasicKeys(p.family);
    assert Rx in FlexureKeys(p.family) && Ry in FlexureKeys(p.family);
    assert Xo in ShearKeys(p.family) && Yo in ShearKeys(p.family) && Ro in ShearKeys(p.family);
  }

  /** The outcome of step 7. */
  datatype Buckling = Buckling(modes: Modes, fe: real, mode: Mode, slenderness: real, fallback: bool)

  /** Fe and the governing mode of a nonempty list of modes. */
  function Govern(modes: Modes, slenderness: real, fallback: bool): (b: Buckling)
    requires |modes| > 0
  {
    var i := Governing(modes);
    Buckling(modes, modes[i].1, modes[i].0, slenderness, fallback)
  }

  /** The first mode with the smallest stress governs, and Fe is that stress. */
  predicate Governs(b: Buckling) {
    && |b.modes| > 0
    && (exists i :: 0 <= i < |b.modes| && b.modes[i] == (b.mode, b.fe)
          && forall j :: 0 <= j < i ==> b.fe < b.modes[j].1)
    && (forall j :: 0 <= j < |b.modes| ==> b.fe <= b.modes[j].1)
  }

  lemma GovernGoverns(modes: Modes, slenderness: real, fallback: bool)
    requires |modes| > 0
    ensures Governs(Govern(modes, slenderness, fallback))
  {
    var i := Governing(modes);
    assert modes[i] == (modes[i].0, modes[i].1);
  }

  /** Whether the channel has the data of the flexural-torsional formula (H given, H > 0, xo > 0). */
  predicate HasShearCentre(s: SectionValues) {
    s.h.Some? && s.h.value > 0.0 && s.xo > 0.0
  }

  /** The torsional stress of step 7, with the ZeroDivisionError of a zero KzLz or Ag·ro². */
  function Torsional(m: Analytic, s: SectionValues, kz: real, lz: real): (r: Result<real, Error>)
    ensures r.Ok? <==> kz * lz != 0.0 && s.a * Sq(s.ro) != 0.0
    ensures r.Ok? ==> r.value == FeTorsional(m, s.j, s.cw, kz, lz, s.a, s.ro)
    ensures r.Err? ==> r.error == ZeroDivision
  {
    if kz * lz == 0.0 || s.a * Sq(s.ro) == 0.0 then Err(ZeroDivision)
    else Ok(FeTorsional(m, s.j, s.cw, kz, lz, s.a, s.ro))
  }

  /** The flexural stress and slenderness of step 7, with the ZeroDivisionError of a zero r or KL. */
  function Flexural(m: Analytic, kl: real, r: real): (res: Result<(real, real), Error>)
    ensures res.Ok? <==> kl != 0.0 && r != 0.0
    ensures res.Ok? ==> res.value == FeFlexural(m, kl, r)
    ensures res.Err? ==> res.error == ZeroDivision
  {
    if r == 0.0 || kl == 0.0 then Err(ZeroDivision) else Ok(FeFlexural(m, kl, r))
  }

  /** Step 7 for I-shapes: flexural X, flexural Y and torsional. */
  function IShapeBuckling(m: Analytic, s: SectionValues, kxlx: real, kyly: real, kz: real, lz: real): (r: Result<Buckling, Error>)
    ensures r.Ok? <==> kxlx != 0.0 && s.rx != 0.0 && kyly != 0.0 && s.ry != 0.0 && kz * lz != 0.0 && s.a * Sq(s.ro) != 0.0
    ensures r.Err? ==> r.error == ZeroDivision
    ensures r.Ok? ==>
      && Governs(r.value) && !r.value.fallback
      && r.value.modes == [(FlexuralX, FeFlexural(m, kxlx, s.rx).0), (FlexuralY, FeFlexural(m, kyly, s.ry).0),
                           (TorsionalZ, FeTorsional(m, s.j, s.cw, kz, lz, s.a, s.ro))]
      && r.value.slenderness == Max(kxlx / s.rx, kyly / s.ry)
  {
    var (fex, sx) :- Flexural(m, kxlx, s.rx);
    var (fey, sy) :- Flexural(m, kyly, s.ry);
    var fez :- Torsional(m, s, kz, lz);
    var modes := [(FlexuralX, fex), (FlexuralY, fey), (TorsionalZ, fez)];
    GovernGoverns(modes, Max(sx, sy), false);
    Ok(Govern(modes, Max(sx, sy), false))
  }

  /**
   * Step 7 for channels: flexural X and flexural-torsional, the latter
   * replaced by flexural Y (with `fallback` set) without a usable shear centre.
   */
  function ChannelBuckling(m: Analytic, s: SectionValues, kxlx: real, kyly: real, kz: real, lz: real): (r: Result<Buckling, Error>)
    ensures r.Err? ==> r.error == ZeroDivision
    ensures r.Ok? ==> kxlx != 0.0 && s.rx != 0.0 && kyly != 0.0 && s.ry != 0.0 && kz * lz != 0.0 && s.a * Sq(s.ro) != 0.0
    ensures r.Ok? ==>
      && Governs(r.value) && |r.value.modes| == 2
      && r.value.modes[0] == (FlexuralX, FeFlexural(m, kxlx, s.rx).0)
      && r.value.modes[1].0 == FlexTorsionalYZ
      && (r.value.fallback <==> !HasShearCentre(s))
      && (r.value.fallback ==> r.value.modes[1].1 == FeFlexural(m, kyly, s.ry).0)
      && (!r.value.fallback ==>
            var fey := FeFlexural(m, kyly, s.ry).0;
            var fez := FeTorsional(m, s.j, s.cw, kz, lz, s.a, s.ro);
            fey + fez != 0.0 && r.value.modes[1].1 == FeFlexTorsional(m, fey, fez, s.h.value))
      && r.value.slenderness == Max(kxlx / s.rx, kyly / s.ry)
  {
    var (fex, sx) :- Flexural(m, kxlx, s.rx);
    var (fey, sy) :- Flexural(m, kyly, s.ry);
    var fez :- Torsional(m, s, kz, lz);
    if HasShearCentre(s) then
      if fey + fez == 0.0 then Err(ZeroDivision)
      else
        var modes := [(FlexuralX, fex), (FlexTorsionalYZ, FeFlexTorsional(m, fey, fez, s.h.value))];
        GovernGoverns(modes, Max(sx, sy), false);
        Ok(Govern(modes, Max(sx, sy), false))
    else
      var modes := [(FlexuralX, fex), (FlexTorsionalYZ, fey)];
      GovernGoverns(modes, Max(sx, sy), true);
      Ok(Govern(modes, Max(sx, sy), true))
  }

  /** Step 7 for angles: one flexural mode about the minor axis, radius `iv`, KL = max(KxLx, KyLy, KzLz). */
  function AngleBuckling(m: Analytic, flexure: map<Key, real>, kxlx: real, kyly: real, kz: real, lz: real): (r: Result<Buckling, Error>)
    ensures RadiusV !in flexure ==> r == Err(MissingKey(RadiusV))
    ensures RadiusV in flexure ==>
      var kl := Max(Max(kxlx, kyly), kz * lz);
      && (r.Ok? <==> kl != 0.0 && flexure[RadiusV] != 0.0)
      && (r.Err? ==> r.error == ZeroDivision)
      && (r.Ok? ==>
            && Governs(r.value) && !r.value.fallback
            && r.value.modes == [(FlexuralIv, FeFlexural(m, kl, flexure[RadiusV]).0)]
            && r.value.slenderness == kl / flexure[RadiusV])
  {
    var iv :- Lookup(flexure, RadiusV);
    var (fe, sl) :- Flexural(m, Max(Max(kxlx, kyly), kz * lz), iv);
    GovernGoverns([(FlexuralIv, fe)], sl, false);
    Ok(Govern([(FlexuralIv, fe)], sl, false))
  }

  /** Step 7: the modes of the family and the governing one; any other family is rejected. */
  function GlobalBuckling(m: Analytic, p: Props, s: SectionValues,
                          kxlx: real, kyly: real, kz: real, lz: real): (r: Result<Buckling, Error>)
    ensures p.family !in {DobleT, Canal, Angular} ==> r == Err(UnsupportedFamily(p.family))
    ensures p.family == DobleT ==> r == IShapeBuckling(m, s, kxlx, kyly, kz, lz)
    ensures p.family == Canal ==> r == ChannelBuckling(m, s, kxlx, kyly, kz, lz)
    ensures p.family == Angular ==> r == AngleBuckling(m, p.flexure, kxlx, kyly, kz, lz)
  {
    match p.family
    case DobleT => IShapeBuckling(m, s, kxlx, kyly, kz, lz)
    case Canal => ChannelBuckling(m, s, kxlx, kyly, kz, lz)
    case Angular => AngleBuckling(m, p.flexure, kxlx, kyly, kz, lz)
    case _ => Err(UnsupportedFamily(p.family))
  }

  /** The torsional mode has a positive stress for positive area, ro ≠ 0 and J, Cw ≥ 0 not both zero. */
  predicate TorsionallySound(s: SectionValues) {
    s.a > 0.0 && s.ro != 0.0 && s.j >= 0.0 && s.cw >= 0.0 && (s.j > 0.0 || s.cw > 0.0)
  }

  /** Lengths and radii with which every flexural mode is defined. */
  predicate Lengths(s: SectionValues, kxlx: real, kyly: real, kz: real, lz: real) {
    kxlx != 0.0 && kyly != 0.0 && kz * lz != 0.0 && s.rx != 0.0 && s.ry != 0.0
  }

  /** For an I-shape with a sound section every mode is defined and Fe > 0. */
  lemma IShapeBucklingPositive(m: Analytic, s: SectionValues, kxlx: real, kyly: real, kz: real, lz: real)
    requires Sound(m) && Lengths(s, kxlx, kyly, kz, lz) && TorsionallySound(s)
    ensures IShapeBuckling(m, s, kxlx, kyly, kz, lz).Ok?
    ensures IShapeBuckling(m, s, kxlx, kyly, kz, lz).value.fe > 0.0
  {
    PositiveProduct(s.a, Sq(s.ro));
    FeFlexuralSound(m, kxlx, s.rx);
    FeFlexuralSound(m, kyly, s.ry);
    FeTorsionalPositive(m, s.j, s.cw, kz, lz, s.a, s.ro);
  }

  /**
   * For a channel with a sound section every mode is defined, Fe > 0, and Fe
   * never exceeds the flexural Y stress: the flexural-torsional stress lies
   * below both Fey and Fez when 0 < H ≤ 1.
   */
  lemma ChannelBucklingBounds(m: Analytic, s: SectionValues, kxlx: real, kyly: real, kz: real, lz: real)
    requires Sound(m) && Lengths(s, kxlx, kyly, kz, lz) && TorsionallySound(s)
    requires HasShearCentre(s) ==> s.h.value <= 1.0
    ensures ChannelBuckling(m, s, kxlx, kyly, kz, lz).Ok?
    ensures var b := ChannelBuckling(m, s, kxlx, kyly, kz, lz).value;
      0.0 < b.fe <= FeFlexural(m, kyly, s.ry).0
    ensures var b := ChannelBuckling(m, s, kxlx, kyly, kz, lz).value;
      !b.fallback ==> b.modes[1].1 <= FeTorsional(m, s.j, s.cw, kz, lz, s.a, s.ro)
  {
    PositiveProduct(s.a, Sq(s.ro));
    FeFlexuralSound(m, kxlx, s.rx);
    FeFlexuralSound(m, kyly, s.ry);
    FeTorsionalPositive(m, s.j, s.cw, kz, lz, s.a, s.ro);
    var fey := FeFlexural(m, kyly, s.ry).0;
    var fez := FeTorsional(m, s.j, s.cw, kz, lz, s.a, s.ro);
    if HasShearCentre(s) {
      FeFlexTorsionalBounds(m, fey, fez, s.h.value);
    }
    var b := ChannelBuckling(m, s, kxlx, kyly, kz, lz).value;
    assert b.fe <= b.modes[1].1;
  }

  /** For an angle with non-zero KL and iv, Fe > 0. */
  lemma AngleBucklingPositive(m: Analytic, flexure: map<Key, real>, kxlx: real, kyly: real, kz: real, lz: real)
    requires Sound(m) && RadiusV in flexure && flexure[RadiusV] != 0.0
    requires Max(Max(kxlx, kyly), kz * lz) != 0.0
    ensures AngleBuckling(m, flexure, kxlx, kyly, kz, lz).Ok?
    ensures AngleBuckling(m, flexure, kxlx, kyly, kz, lz).value.fe > 0.0
  {
    FeFlexuralSound(m, Max(Max(kxlx, kyly), kz * lz), flexure[RadiusV]);
  }

  // ---------------------------------------------------------------------------
  // The Q iteration of section E7
  // ---------------------------------------------------------------------------

  /**
   * What `calcular_Q(props, Fy, E, Fcr)` returns: Q = Qs·Qa and its two
   * factors. The function is not part of this model; the iteration takes it
   * as a parameter, as a function of the trial critical stress.
   */
  datatype QInfo = QInfo(q: real, qs: real, qa: real)

  /** `error_relativo`: |Q_nuevo − Q_actual|/Q_actual, or 1.0 when Q_actual ≤ 0. */
  function RelativeChange(qNew: real, qOld: real): (e: real)
    ensures qOld > 0.0 ==> e >= 0.0 && (e == 0.0 <==> qNew == qOld)
    ensures qOld <= 0.0 ==> e == 1.0
  {
    if qOld > 0.0 then
      DivNonNegative(Abs(qNew - qOld), qOld);
      if qNew != qOld then DivPositive(Abs(qNew - qOld), qOld); Abs(qNew - qOld) / qOld
      else Abs(qNew - qOld) / qOld
    else 1.0
  }

  /** `Q_actual` at the start of iteration n ≥ 1: 1.0, then the previous iteration's Q. */
  function QBefore(m: Analytic, fe: real, fy: real, calcQ: real -> QInfo, n: nat): real
    requires fe != 0.0
    decreases n, 0
  {
    if n <= 1 then 1.0 else QAt(m, fe, fy, calcQ, n - 1).q
  }

  /** The outcome of `calcular_Q` in iteration n, evaluated at Fcr with the current Q. */
  function QAt(m: Analytic, fe: real, fy: real, calcQ: real -> QInfo, n: nat): QInfo
    requires fe != 0.0
    decreases n, 1
  {
    calcQ(Fcr(m, fe, fy, QBefore(m, fe, fy, calcQ, n)))
  }

  /** Iteration n meets the tolerance. */
  predicate Converges(m: Analytic, fe: real, fy: real, tol: real, calcQ: real -> QInfo, n: nat)
    requires fe != 0.0
  {
    RelativeChange(QAt(m, fe, fy, calcQ, n).q, QBefore(m, fe, fy, calcQ, n)) < tol
  }

  /** The iteration the loop stops at, searching from n: the first that converges, else the last. */
  function StopIndex(m: Analytic, fe: real, fy: real, tol: real, calcQ: real -> QInfo, n: nat, maxIter: nat): nat
    requires fe != 0.0 && 1 <= n <= maxIter
    decreases maxIter - n
  {
    if n == maxIter || Converges(m, fe, fy, tol, calcQ, n) then n
    else StopIndex(m, fe, fy, tol, calcQ, n + 1, maxIter)
  }

  /**
   * The stopping index lies in [n, maxIter], no earlier iteration converges,
   * and it converges unless it is the last one allowed.
   */
  lemma {:induction false} StopIndexFirst(m: Analytic, fe: real, fy: real, tol: real, calcQ: real -> QInfo, n: nat, maxIter: nat)
    requires fe != 0.0 && 1 <= n <= maxIter
    ensures var k := StopIndex(m, fe, fy, tol, calcQ, n, maxIter);
      && n <= k <= maxIter
      && (forall j :: n <= j < k ==> !Converges(m, fe, fy, tol, calcQ, j))
      && (k < maxIter ==> Converges(m, fe, fy, tol, calcQ, k))
    decreases maxIter - n
  {
    if n < maxIter && !Converges(m, fe, fy, tol, calcQ, n) {
      StopIndexFirst(m, fe, fy, tol, calcQ, n + 1, maxIter);
    }
  }

  /** The result of the Q iteration: the last `Q_info`, `iter_Q`, and whether the tolerance was met. */
  datatype QOutcome = QOutcome(info: QInfo, iterations: nat, converged: bool)

  /**
   * The `for iter_Q in range(1, max_iter_Q + 1)` loop with its early break.
   * With no iteration at all the loop's variables stay unbound; otherwise
   * Fcr divides by Fe.
   */
  method QIteration(m: Analytic, fe: real, fy: real, maxIter: int, tol: real, calcQ: real -> QInfo)
    returns (r: Result<QOutcome, Error>)
    ensures maxIter < 1 ==> r == Err(NoQIteration)
    ensures maxIter >= 1 && fe == 0.0 ==> r == Err(ZeroDivision)
    ensures maxIter >= 1 && fe != 0.0 ==>
      && r.Ok?
      && r.value.iterations == StopIndex(m, fe, fy, tol, calcQ, 1, maxIter)
      && r.value.info == QAt(m, fe, fy, calcQ, r.value.iterations)
      && (r.value.converged <==> Converges(m, fe, fy, tol, calcQ, r.value.iterations))
  {
    if maxIter < 1 {
      return Err(NoQIteration);
    }
    if fe == 0.0 {
      return Err(ZeroDivision);
    }
    var qActual := 1.0;
    var it: nat := 1;
    var info := calcQ(Fcr(m, fe, fy, qActual));
    var error := RelativeChange(info.q, qActual);
    while !(error < tol) && it < maxIter
      invariant 1 <= it <= maxIter
      invariant qActual == QBefore(m, fe, fy, calcQ, it)
      invariant info == QAt(m, fe, fy, calcQ, it)
      invariant error == RelativeChange(info.q, qActual)
      invariant StopIndex(m, fe, fy, tol, calcQ, 1, maxIter) == StopIndex(m, fe, fy, tol, calcQ, it, maxIter)
      decreases maxIter - it
    {
      qActual := info.q;
      it := it + 1;
      info := calcQ(Fcr(m, fe, fy, qActual));
      error := RelativeChange(info.q, qActual);
    }
    r := Ok(QOutcome(info, it, error < tol));
  }

  /**
   * So 1 ≤ iter_Q ≤ max_iter_Q, no iteration before the reported one met the
   * tolerance, and the loop only runs to the cap without converging.
   */
  lemma QIterationStops(m: Analytic, fe: real, fy: real, maxIter: nat, tol: real, calcQ: real -> QInfo)
    requires fe != 0.0 && maxIter >= 1
    ensures var k := StopIndex(m, fe, fy, tol, calcQ, 1, maxIter);
      && 1 <= k <= maxIter
      && (forall j :: 1 <= j < k ==> !Converges(m, fe, fy, tol, calcQ, j))
      && (!Converges(m, fe, fy, tol, calcQ, k) ==> k == maxIter)
  {
    StopIndexFirst(m, fe, fy, tol, calcQ, 1, maxIter);
  }

  /** A calcular_Q that returns the same Q for every trial stress converges in at most two iterations when tol > 0. */
  lemma ConstantQConverges(m: Analytic, fe: real, fy: real, maxIter: nat, tol: real, calcQ: real -> QInfo, c: QInfo)
    requires fe != 0.0 && maxIter >= 2 && tol > 0.0 && c.q > 0.0
    requires forall x :: calcQ(x) == c
    ensures StopIndex(m, fe, fy, tol, calcQ, 1, maxIter) <= 2
    ensures Converges(m, fe, fy, tol, calcQ, StopIndex(m, fe, fy, tol, calcQ, 1, maxIter))
  {
    assert QBefore(m, fe, fy, calcQ, 2) == c.q;
    assert QAt(m, fe, fy, calcQ, 2) == c;
    assert Converges(m, fe, fy, tol, calcQ, 2);
  }

  // ---------------------------------------------------------------------------
  // compresion(...)
  // ---------------------------------------------------------------------------

  /**
   * Step 6.5's trial Fe: Fe of step 7 for I-shapes, channels and angles,
   * 1000 MPa for any other family.
   */
  function ProvisionalFe(m: Analytic, p: Props, s: SectionValues,
                         kxlx: real, kyly: real, kz: real, lz: real): (r: Result<real, Error>)
    ensures p.family !in {DobleT, Canal, Angular} ==> r == Ok(1000.0)
    ensures p.family in {DobleT, Canal, Angular} ==>
      var b := GlobalBuckling(m, p, s, kxlx, kyly, kz, lz);
      && (r.Ok? <==> b.Ok?)
      && (r.Ok? ==> r.value == b.value.fe)
      && (r.Err? ==> r.error == b.error)
  {
    if p.family in {DobleT, Canal, Angular} then
      var b :- GlobalBuckling(m, p, s, kxlx, kyly, kz, lz);
      Ok(b.fe)
    else Ok(1000.0)
  }

  /** The factor Q with its parts and `iter_Q`. */
  datatype QFactor = QFactor(q: real, qs: real, qa: real, iterations: nat)

  /** The note on the Q iteration: converged after k iterations, or not within the cap. */
  function QNote(o: QOutcome, maxIter: int): Warning {
    if o.converged then QConverged(o.iterations, o.info.q, o.info.qs, o.info.qa)
    else QNotConverged(maxIter, o.info.q)
  }

  function FallbackNotes(b: Buckling): seq<Warning> {
    if b.fallback then [FlexTorsionalFallback] else []
  }

  /** KL/r above 200 (CIRSOC 301) only adds a warning. */
  function SlendernessNotes(b: Buckling): seq<Warning> {
    if b.slenderness > 200.0 then [SlendernessOver200(b.slenderness)] else []
  }

  /** The parts of the `resultados` dictionary the design relies on, in kN and MPa, unrounded. */
  datatype CompressionResult = CompressionResult(
    props: Props,
    classification: SectionClassification,
    section: SectionValues,
    lz: real,
    qFactor: QFactor,
    qNote: Warning,
    buckling: Buckling,
    slendernessX: real,
    slendernessY: real,
    fcr: real,
    pn: real,
    pd: real,
    warnings: seq<Warning>)

  /**
   * The exception step 6.5 raises, or None: for a slender section the error
   * of the trial Fe, then the unbound loop variables of an empty iteration,
   * then the division of Fcr by a zero trial Fe.
   */
  function QRaises(m: Analytic, p: Props, s: SectionValues, cls: SectionClassification,
                   kxlx: real, kyly: real, kz: real, lz: real, maxIter: int): Option<Error>
  {
    if !cls.slender then None
    else
      match ProvisionalFe(m, p, s, kxlx, kyly, kz, lz)
      case Err(e) => Some(e)
      case Ok(fe0) =>
        if maxIter < 1 then Some(NoQIteration)
        else if fe0 == 0.0 then Some(ZeroDivision)
        else None
  }

  /** The outcome of step 6.5 for a slender section, from StopIndex and QAt. */
  predicate SlenderQ(m: Analytic, p: Props, s: SectionValues, fy: real, kxlx: real, kyly: real, kz: real, lz: real,
                     maxIter: int, tol: real, calcQ: real -> QInfo, qf: QFactor, note: Warning)
  {
    var fe0 := ProvisionalFe(m, p, s, kxlx, kyly, kz, lz);
    && fe0.Ok? && fe0.value != 0.0 && maxIter >= 1
    && var k := StopIndex(m, fe0.value, fy, tol, calcQ, 1, maxIter);
       var info := QAt(m, fe0.value, fy, calcQ, k);
       && qf == QFactor(info.q, info.qs, info.qa, k)
       && note == QNote(QOutcome(info, k, Converges(m, fe0.value, fy, tol, calcQ, k)), maxIter)
  }

  /**
   * Step 6.5: for a slender section the trial Fe and the Q iteration, for any
   * other Q = Qs = Qa = 1.0, iter_Q = 0 and a note that Q is not reduced.
   */
  method QBlock(m: Analytic, p: Props, s: SectionValues, cls: SectionClassification, fy: real,
                kxlx: real, kyly: real, kz: real, lz: real, maxIter: int, tol: real, calcQ: real -> QInfo)
    returns (r: Result<(QFactor, Warning), Error>)
    ensures !cls.slender ==> r == Ok((QFactor(1.0, 1.0, 1.0, 0), NoQReduction(cls.sectionClass)))
    ensures cls.slender && r.Ok? ==> SlenderQ(m, p, s, fy, kxlx, kyly, kz, lz, maxIter, tol, calcQ, r.value.0, r.value.1)
    ensures cls.slender && r.Ok? ==> 1 <= r.value.0.iterations <= maxIter
    ensures r.Err? <==> QRaises(m, p, s, cls, kxlx, kyly, kz, lz, maxIter).Some?
    ensures r.Err? ==> r.error == QRaises(m, p, s, cls, kxlx, kyly, kz, lz, maxIter).value
  {
    if !cls.slender {
      return Ok((QFactor(1.0, 1.0, 1.0, 0), NoQReduction(cls.sectionClass)));
    }
    var fe0 := ProvisionalFe(m, p, s, kxlx, kyly, kz, lz);
    if fe0.Err? {
      return Err(fe0.error);
    }
    var qr := QIteration(m, fe0.value, fy, maxIter, tol, calcQ);
    if qr.Err? {
      return Err(qr.error);
    }
    var o := qr.value;
    QIterationStops(m, fe0.value, fy, maxIter, tol, calcQ);
    r := Ok((QFactor(o.info.q, o.info.qs, o.info.qa, o.iterations), QNote(o, maxIter)));
  }

  /** KL/r. */
  function Slenderness(kl: real, r: real): real
    requires r != 0.0
  {
    kl / r
  }

  /**
   * The exception steps 7 and 8 raise, or None: the buckling error, then the
   * division by rx or ry for the reported slenderness and by Fe in Fcr.
   */
  function StrengthRaises(m: Analytic, p: Props, s: SectionValues, kxlx: real, kyly: real, kz: real, lz: real): Option<Error>
  {
    match GlobalBuckling(m, p, s, kxlx, kyly, kz, lz)
    case Err(e) => Some(e)
    case Ok(b) => if s.rx == 0.0 || s.ry == 0.0 || b.fe == 0.0 then Some(ZeroDivision) else None
  }

  /** Steps 7 and 8: buckling, the slenderness checks, Fcr, Pn and Pd. */
  method Strength(m: Analytic, p: Props, s: SectionValues, fy: real, kxlx: real, kyly: real, kz: real, lz: real, q: real)
    returns (r: Result<(Buckling, real, real, real), Error>)
    ensures r.Ok? ==>
      var (b, fcr, pn, pd) := r.value;
      && GlobalBuckling(m, p, s, kxlx, kyly, kz, lz) == Ok(b)
      && s.rx != 0.0 && s.ry != 0.0 && b.fe != 0.0
      && fcr == Fcr(m, b.fe, fy, q) && pn == NominalStrength(fcr, s.a) && pd == PhiC * pn
    ensures GlobalBuckling(m, p, s, kxlx, kyly, kz, lz).Err? ==> r == Err(GlobalBuckling(m, p, s, kxlx, kyly, kz, lz).error)
    ensures GlobalBuckling(m, p, s, kxlx, kyly, kz, lz).Ok? ==>
      (r.Ok? <==> s.rx != 0.0 && s.ry != 0.0 && GlobalBuckling(m, p, s, kxlx, kyly, kz, lz).value.fe != 0.0)
    ensures r.Err? ==> Some(r.error) == StrengthRaises(m, p, s, kxlx, kyly, kz, lz)
    ensures r.Ok? <==> StrengthRaises(m, p, s, kxlx, kyly, kz, lz).None?
  {
    var br := GlobalBuckling(m, p, s, kxlx, kyly, kz, lz);
    if br.Err? {
      return Err(br.error);
    }
    var b := br.value;
    if s.rx == 0.0 || s.ry == 0.0 || b.fe == 0.0 {
      return Err(ZeroDivision);
    }
    var fcr := Fcr(m, b.fe, fy, q);
    var pn := NominalStrength(fcr, s.a);
    r := Ok((b, fcr, pn, PhiC * pn));
  }

  /**
   * The exception `compresion(...)` raises on the profile's row, or None when
   * it returns: the extraction error, the incomplete properties, the KeyError
   * of step 5, the classification error, then those of steps 6.5, 7 and 8.
   */
  function CompressionRaises(m: Analytic, row: Row, db: Database, fy: real,
                             lx: real, ly: real, lz: Option<real>, kx: real, ky: real, kz: real,
                             maxIterQ: int): Option<Error>
  {
    match ExtractProperties(m, row, db.Name())
    case Err(e) => Some(e)
    case Ok(p) =>
      if !(forall k :: k in Required(p.family) ==> k in p.available) then
        Some(IncompleteProperties(Absent(Required(p.family), p.available)))
      else
        match ReadSectionValues(p)
        case Err(e) => Some(e)
        case Ok(s) =>
          match ClassifySection(m, p, fy, E)
          case Err(e) => Some(e)
          case Ok(cls) =>
            var lzUsed := lz.GetOr(Max(lx, ly));
            match QRaises(m, p, s, cls, kx * lx, ky * ly, kz, lzUsed, maxIterQ)
            case Some(e) => Some(e)
            case None => StrengthRaises(m, p, s, kx * lx, ky * ly, kz, lzUsed)
  }

  /**
   * `compresion(...)` on the profile's row, after the store lookup: extract
   * and verify the properties (stopping with the missing required names
   * before any computation), default Lz to max(Lx, Ly), classify the
   * section, iterate Q for a slender one (Q = Qs = Qa = 1, iter_Q = 0 and a
   * note otherwise), take the governing buckling mode, then Fcr with that Q,
   * Pn = Fcr·A and Pd = 0.90·Pn.
   */
  method CompressionOfRow(m: Analytic, row: Row, db: Database, fy: real,
                          lx: real, ly: real, lz: Option<real>, kx: real, ky: real, kz: real,
                          maxIterQ: int, tolQ: real, calcQ: real -> QInfo)
    returns (r: Result<CompressionResult, Error>)
    ensures ExtractProperties(m, row, db.Name()).Err? ==> r == Err(ExtractProperties(m, row, db.Name()).error)
    ensures ExtractProperties(m, row, db.Name()).Ok? ==>
      var p := ExtractProperties(m, row, db.Name()).value;
      !(forall k :: k in Required(p.family) ==> k in p.available) ==>
        r == Err(IncompleteProperties(Absent(Required(p.family), p.available)))
    ensures r.Ok? ==>
      var c := r.value;
      && ExtractProperties(m, row, db.Name()) == Ok(c.props)
      && (forall k :: k in Required(c.props.family) ==> k in c.props.available)
      && c.warnings == MissingWarnings(Absent(Optional(c.props.family), c.props.available))
                       + c.classification.warnings + [c.qNote]
                       + FallbackNotes(c.buckling) + SlendernessNotes(c.buckling)
    ensures r.Ok? ==> ComputedFrom(m, r.value, fy, lx, ly, lz, kx, ky, kz, maxIterQ, tolQ, calcQ)
    ensures r.Ok? <==> CompressionRaises(m, row, db, fy, lx, ly, lz, kx, ky, kz, maxIterQ).None?
    ensures r.Err? ==> Some(r.error) == CompressionRaises(m, row, db, fy, lx, ly, lz, kx, ky, kz, maxIterQ)
  {
    ghost var raises := CompressionRaises(m, row, db, fy, lx, ly, lz, kx, ky, kz, maxIterQ);
    var pr := ExtractProperties(m, row, db.Name());
    if pr.Err? {
      return Err(pr.error);
    }
    var p := pr.value;
    var v := VerifyProperties(p);
    if !v.complete {
      return Err(IncompleteProperties(v.missing));
    }
    var lzUsed := lz.GetOr(Max(lx, ly));
    var sr := ReadSectionValues(p);
    if sr.Err? {
      assert raises == Some(sr.error);
      return Err(sr.error);
    }
    var s := sr.value;
    var cr := ClassifySection(m, p, fy, E);
    if cr.Err? {
      assert raises == Some(cr.error);
      return Err(cr.error);
    }
    var cls := cr.value;
    var kxlx, kyly := kx * lx, ky * ly;
    var qr := QBlock(m, p, s, cls, fy, kxlx, kyly, kz, lzUsed, maxIterQ, tolQ, calcQ);
    assert raises == (if qr.Err? then Some(qr.error) else StrengthRaises(m, p, s, kxlx, kyly, kz, lzUsed));
    if qr.Err? {
      return Err(qr.error);
    }
    var (qf, note) := qr.value;
    var st := Strength(m, p, s, fy, kxlx, kyly, kz, lzUsed, qf.q);
    if st.Err? {
      return Err(st.error);
    }
    var (b, fcr, pn, pd) := st.value;
    var warnings := v.warnings + cls.warnings + [note] + FallbackNotes(b) + SlendernessNotes(b);
    r := Ok(CompressionResult(p, cls, s, lzUsed, qf, note, b, Slenderness(kxlx, s.rx), Slenderness(kyly, s.ry), fcr, pn, pd, warnings));
  }

  /** What a successful `compresion` reports, in terms of the functions of each step. */
  ghost predicate ComputedFrom(m: Analytic, c: CompressionResult, fy: real, lx: real, ly: real, lz: Option<real>,
                               kx: real, ky: real, kz: real, maxIterQ: int, tolQ: real, calcQ: real -> QInfo)
  {
    && ReadSectionValues(c.props) == Ok(c.section)
    && ClassifySection(m, c.props, fy, E) == Ok(c.classification)
    && c.lz == lz.GetOr(Max(lx, ly))
    && (!c.classification.slender ==>
          c.qFactor == QFactor(1.0, 1.0, 1.0, 0) && c.qNote == NoQReduction(c.classification.sectionClass))
    && (c.classification.slender ==>
          && SlenderQ(m, c.props, c.section, fy, kx * lx, ky * ly, kz, c.lz, maxIterQ, tolQ, calcQ, c.qFactor, c.qNote)
          && 1 <= c.qFactor.iterations <= maxIterQ)
    && GlobalBuckling(m, c.props, c.section, kx * lx, ky * ly, kz, c.lz) == Ok(c.buckling)
    && c.section.rx != 0.0 && c.section.ry != 0.0
    && c.slendernessX == Slenderness(kx * lx, c.section.rx) && c.slendernessY == Slenderness(ky * ly, c.section.ry)
    && c.buckling.fe != 0.0
    && c.fcr == Fcr(m, c.buckling.fe, fy, c.qFactor.q)
    && c.pn == NominalStrength(c.fcr, c.section.a)
    && c.pd == PhiC * c.pn
  }
}
