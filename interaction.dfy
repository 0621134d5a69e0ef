/**
 * Combined axial compression and strong-axis bending (AISC 360-10 section
 * H1.1): the ratios Nu/Pd and Mu/Md, the choice between equations H1-1a and
 * H1-1b at Nu/Pd = 0.2, and the verdict ratio ≤ 1.0.
 */
module Interaction {
  import opened Wrappers
  import opened RealMath
  import opened Diagnostics
  import opened Rows
  import opened Tags
  import opened Profile
  import opened Compression
  import opened Flexure

  /** The equation used; `NotComputed` is the dash reported when Pd ≤ 0. */
  datatype Equation = H1_1a | H1_1b | NotComputed

  /** The interaction figures; a NaN of the source is `None`. */
  datatype Check = Check(nuPd: Option<real>, muMd: Option<real>, ratio: Option<real>, passes: bool, equation: Equation)

  /** Nu/Pd from which equation H1-1a applies. */
  const AxialThreshold: real := 0.2

  /** The defaults of `compresion` that `interaccion` keeps: five Q iterations, tolerance 1 %. */
  const MaxIterQ: int := 5
  const TolQ: real := 0.01

  /** Mu/Md, or 0 when Md ≤ 0. */
  function FlexureRatio(mu: real, md: real): real {
    if md > 0.0 then mu / md else 0.0
  }

  /** The left-hand side of H1-1a (n ≥ 0.2) or H1-1b (n < 0.2) for n = Nu/Pd and b = Mu/Md. */
  function Ratio(n: real, b: real): (real, Equation) {
    if n >= AxialThreshold then (n + 8.0 / 9.0 * b, H1_1a) else (n / 2.0 + b, H1_1b)
  }

  /** The verdict `cumple` for the ratios n and b. */
  predicate Passes(n: real, b: real) {
    Ratio(n, b).0 <= 1.0
  }

  /**
   * The figures of `interaccion` from Nu, Mu, Pd and Md: nothing but the
   * dash and a failed verdict when Pd ≤ 0, otherwise the two ratios and the
   * left-hand side of the applicable equation.
   */
  function Combine(nu: real, mu: real, pd: real, md: real): (c: Check)
    ensures c.passes <==> c.ratio.Some? && c.ratio.value <= 1.0
    ensures c.equation == NotComputed <==> pd <= 0.0
    ensures c.ratio.Some? <==> pd > 0.0
  {
    if pd <= 0.0 then Check(None, None, None, false, NotComputed)
    else
      var n := nu / pd;
      var b := FlexureRatio(mu, md);
      var (ratio, eq) := Ratio(n, b);
      Check(Some(n), Some(b), Some(ratio), ratio <= 1.0, eq)
  }

  /** With Pd > 0 the verdict is `Passes` of Nu/Pd and Mu/Md (the latter 0 when Md ≤ 0). */
  lemma CombinePasses(nu: real, mu: real, pd: real, md: real)
    requires pd > 0.0
    ensures Combine(nu, mu, pd, md).passes <==> Passes(nu / pd, FlexureRatio(mu, md))
    ensures Combine(nu, mu, pd, md).equation == (if nu / pd >= 0.2 then H1_1a else H1_1b)
  {
  }

  /**
   * The verdict is monotone: lowering either ratio never turns a pass into a
   * failure, across the switch between H1-1a and H1-1b too (a pass under
   * H1-1a bounds b by 0.9, and then n/2 + b < 0.1 + 0.9 for n < 0.2).
   */
  lemma PassesMonotone(n1: real, b1: real, n2: real, b2: real)
    requires n1 <= n2 && b1 <= b2
    ensures Passes(n2, b2) ==> Passes(n1, b1)
  {
    if Passes(n2, b2) && n2 >= 0.2 && n1 < 0.2 {
      assert b2 <= 0.9;
    }
  }

  /** More load never turns a pass into a failure, for the same Pd > 0 and Md. */
  lemma LoadMonotone(nu1: real, mu1: real, nu2: real, mu2: real, pd: real, md: real)
    requires nu1 <= nu2 && mu1 <= mu2 && pd > 0.0
    ensures Combine(nu2, mu2, pd, md).passes ==> Combine(nu1, mu1, pd, md).passes
  {
    CombinePasses(nu1, mu1, pd, md);
    CombinePasses(nu2, mu2, pd, md);
    DivMonotone(nu1, nu2, pd);
    if md > 0.0 {
      DivMonotone(mu1, mu2, md);
    }
    PassesMonotone(nu1 / pd, FlexureRatio(mu1, md), nu2 / pd, FlexureRatio(mu2, md));
  }

  /** More strength never turns a pass into a failure, for loads Nu, Mu ≥ 0 and Md > 0. */
  lemma StrengthMonotone(nu: real, mu: real, pd1: real, md1: real, pd2: real, md2: real)
    requires nu >= 0.0 && mu >= 0.0 && 0.0 < pd1 <= pd2 && 0.0 < md1 <= md2
    ensures Combine(nu, mu, pd1, md1).passes ==> Combine(nu, mu, pd2, md2).passes
  {
    CombinePasses(nu, mu, pd1, md1);
    CombinePasses(nu, mu, pd2, md2);
    DivAntitone(nu, pd1, pd2);
    DivAntitone(mu, md1, md2);
    PassesMonotone(nu / pd2, mu / md2, nu / pd1, mu / md1);
  }

  /** Without moment (Mu = 0) and for Nu ≥ 0, the section passes exactly when Nu ≤ Pd. */
  lemma PureCompression(nu: real, pd: real, md: real)
    requires pd > 0.0 && nu >= 0.0
    ensures Combine(nu, 0.0, pd, md).passes <==> nu <= pd
  {
    CombinePasses(nu, 0.0, pd, md);
    DivAtMost(nu, pd, 1.0);
    if nu / pd < 0.2 {
      DivLess(nu, pd, 0.2);
    }
  }

  /** Without axial load (Nu = 0) and with Md > 0, the section passes exactly when Mu ≤ Md, by H1-1b. */
  lemma PureFlexure(mu: real, pd: real, md: real)
    requires pd > 0.0 && md > 0.0
    ensures Combine(0.0, mu, pd, md).passes <==> mu <= md
    ensures Combine(0.0, mu, pd, md).equation == H1_1b
  {
    CombinePasses(0.0, mu, pd, md);
    DivAtMost(mu, md, 1.0);
  }

  /** With Md ≤ 0 the moment drops out: the verdict does not depend on Mu. */
  lemma NoFlexureStrength(nu: real, mu1: real, mu2: real, pd: real, md: real)
    requires md <= 0.0
    ensures Combine(nu, mu1, pd, md) == Combine(nu, mu2, pd, md)
  {
  }

  /** What `interaccion` returns besides its echo of the inputs. */
  datatype InteractionResult = InteractionResult(
    compression: CompressionResult,
    flexure: FlexureResult,
    lz: real,
    pd: real,
    md: real,
    check: Check,
    warnings: seq<Warning>)

  /** The note added when Pd ≤ 0. */
  function InteractionNotes(pd: real): seq<Warning> {
    if pd <= 0.0 then [InteractionNotComputed] else []
  }

  /**
   * What a successful `interaccion` reports: the compression result of its
   * steps at the Lz used, a flexure result for the same properties, and the
   * interaction figures of its Pd and Md.
   */
  ghost predicate Assembled(m: Analytic, row: Row, db: Database, fy: real, lx: real, ly: real, lb: real,
                            nu: real, mu: real, lz: Option<real>, kx: real, ky: real, kz: real, cb: real,
                            calcQ: real -> QInfo, x: InteractionResult)
  {
    && x.lz == lz.GetOr(Max(lx, ly))
    && ExtractProperties(m, row, db.Name()) == Ok(x.compression.props)
    && ComputedFrom(m, x.compression, fy, lx, ly, Some(x.lz), kx, ky, kz, MaxIterQ, TolQ, calcQ)
    && x.flexure.props == x.compression.props
    && x.compression.props.family in {DobleT, Canal, Angular}
    && (x.compression.props.family in {DobleT, Canal} ==> StrongAxisOf(m, x.compression.props, fy, lb, cb, x.flexure))
    && (x.compression.props.family == Angular ==>
          Sx in x.compression.props.flexure && x.flexure == AngleResult(x.compression.props, fy))
    && x.flexure.md == PhiB * x.flexure.mn
    && x.pd == x.compression.pd && x.md == x.flexure.md
    && x.check == Combine(nu, mu, x.pd, x.md)
    && x.warnings == x.compression.warnings + x.flexure.warnings + InteractionNotes(x.pd)
  }

  /** The exception `interaccion` raises, or None: that of `compresion` first, then that of `flexion`. */
  function InteractionRaises(m: Analytic, row: Row, db: Database, fy: real, lx: real, ly: real, lb: real,
                             lz: Option<real>, kx: real, ky: real, kz: real, cb: real): Option<Error>
  {
    var c := CompressionRaises(m, row, db, fy, lx, ly, Some(lz.GetOr(Max(lx, ly))), kx, ky, kz, MaxIterQ);
    if c.Some? then c else FlexureRaises(m, row, db, fy, lb, cb)
  }

  /**
   * `interaccion`: Lz defaults to max(Lx, Ly); `compresion` (with its default
   * Q settings) runs before `flexion`, so its error wins; the warnings are
   * those of compression, then of flexure, then the note for Pd ≤ 0.
   */
  method InteractionOfRow(m: Analytic, row: Row, db: Database, fy: real, lx: real, ly: real, lb: real,
                          nu: real, mu: real, lz: Option<real>, kx: real, ky: real, kz: real, cb: real,
                          calcQ: real -> QInfo)
    returns (r: Result<InteractionResult, Error>)
    ensures ExtractProperties(m, row, db.Name()).Err? ==> r == Err(ExtractProperties(m, row, db.Name()).error)
    ensures r.Ok? ==> Assembled(m, row, db, fy, lx, ly, lb, nu, mu, lz, kx, ky, kz, cb, calcQ, r.value)
    ensures r.Ok? <==> InteractionRaises(m, row, db, fy, lx, ly, lb, lz, kx, ky, kz, cb).None?
    ensures r.Err? ==> Some(r.error) == InteractionRaises(m, row, db, fy, lx, ly, lb, lz, kx, ky, kz, cb)
  {
    var lzUsed := lz.GetOr(Max(lx, ly));
    var cr := CompressionOfRow(m, row, db, fy, lx, ly, Some(lzUsed), kx, ky, kz, MaxIterQ, TolQ, calcQ);
    ghost var raises := InteractionRaises(m, row, db, fy, lx, ly, lb, lz, kx, ky, kz, cb);
    if cr.Err? {
      assert raises == Some(cr.error);
      return Err(cr.error);
    }
    var fr := FlexureOfRow(m, row, db, fy, lb, cb);
    assert raises == FlexureRaises(m, row, db, fy, lb, cb);
    if fr.Err? {
      return Err(fr.error);
    }
    var c, f := cr.value, fr.value;
    assert ExtractProperties(m, row, db.Name()).value == c.props == f.props;
    r := Ok(InteractionResult(c, f, lzUsed, c.pd, f.md, Combine(nu, mu, c.pd, f.md),
                              c.warnings + f.warnings + InteractionNotes(c.pd)));
  }
}
