/**
 * Serviceability loads: for a profile, a span L and an allowed deflection
 * δ = L/n, the point load P and the uniform load q that produce exactly δ
 * in a cantilever, a simply supported beam or a beam fixed at both ends,
 * about the strong and the weak axis.
 */
module Serviceability {
  import opened Wrappers
  import opened RealMath
  import opened Text
  import opened Tags
  import opened Diagnostics
  import opened Rows
  import opened Profile

  const E: real := 200000.0     // MPa = N/mm²

  // ---------------------------------------------------------------------------
  // Static schemes
  // ---------------------------------------------------------------------------

  datatype Scheme = Cantilever | Simple | Fixed

  function SchemeName(s: Scheme): string {
    match s
    case Cantilever => "CANTILEVER"
    case Simple => "SIMPLE"
    case Fixed => "EMPOTRADA"
  }

  /** The entry of `ESQUEMAS` with a given name, if any. */
  function SchemeNamed(name: string): (r: Option<Scheme>)
    ensures r.Some? ==> SchemeName(r.value) == name
    ensures r.None? ==> forall s: Scheme :: SchemeName(s) != name
  {
    if name == "CANTILEVER" then Some(Cantilever)
    else if name == "SIMPLE" then Some(Simple)
    else if name == "EMPOTRADA" then Some(Fixed)
    else None
  }

  /** The scheme argument is upper-cased, then stripped of surrounding blanks. */
  function NormalizeScheme(name: string): string {
    Strip(Upper(name))
  }

  /** (k_P, k_q): P = k_P·E·I·δ/L³ and q = k_q·E·I·δ/L⁴. */
  function Coefficients(s: Scheme): (real, real) {
    match s
    case Cantilever => (3.0, 8.0)
    case Simple => (48.0, 384.0 / 5.0)
    case Fixed => (192.0, 384.0)
  }

  /** The denominators n of δ = L/n used when none are given. */
  function DefaultFractions(s: Scheme): seq<int> {
    if s == Cantilever then [50, 100, 120, 150, 200] else [100, 200, 300, 400, 500]
  }

  // ---------------------------------------------------------------------------
  // Load formulas
  // ---------------------------------------------------------------------------

  /** k·E·I. */
  function Stiffness(k: real, i: real): real {
    k * E * i
  }

  function Cube(l: real): (c: real)
    ensures l > 0.0 ==> c > 0.0
  {
    if l > 0.0 then PositiveProduct(Sq(l), l); Sq(l) * l else Sq(l) * l
  }

  function Fourth(l: real): (c: real)
    ensures l > 0.0 ==> c > 0.0
  {
    if l > 0.0 then PositiveProduct(Cube(l), l); Cube(l) * l else Cube(l) * l
  }

  /** `_p_adm_N`: the point load in N. */
  function PointLoad(l: real, i: real, delta: real, k: real): real
    requires l > 0.0
  {
    Stiffness(k, i) * delta / Cube(l)
  }

  /** `_q_adm_Nmm`: the uniform load in N/mm. */
  function UniformLoad(l: real, i: real, delta: real, k: real): real
    requires l > 0.0
  {
    Stiffness(k, i) * delta / Fourth(l)
  }

  /** The deflection P·L³/(k·E·I) of a point load P. */
  function PointDeflection(l: real, i: real, p: real, k: real): real
    requires Stiffness(k, i) != 0.0
  {
    p * Cube(l) / Stiffness(k, i)
  }

  /** The deflection q·L⁴/(k·E·I) of a uniform load q. */
  function UniformDeflection(l: real, i: real, q: real, k: real): real
    requires Stiffness(k, i) != 0.0
  {
    q * Fourth(l) / Stiffness(k, i)
  }

  /** a·d/c·c/a = d. */
  lemma Undo(a: real, d: real, c: real)
    requires a != 0.0 && c != 0.0
    ensures a * d / c * c / a == d
  {
    assert a * d / c * c == a * d;
    assert a * d / a == d;
  }

  /** a·(l/n)/c·n = a·l/c. */
  lemma Proportional(a: real, l: real, n: real, c: real)
    requires n != 0.0 && c != 0.0
    ensures a * (l / n) / c * n == a * l / c
  {
    assert a * (l / n) * n == a * l;
  }

  /** The loads produce exactly the deflection they were computed for. */
  lemma LoadsRoundTrip(l: real, i: real, delta: real, k: real)
    requires l > 0.0
    ensures Stiffness(k, i) != 0.0 ==> PointDeflection(l, i, PointLoad(l, i, delta, k), k) == delta
    ensures Stiffness(k, i) != 0.0 ==> UniformDeflection(l, i, UniformLoad(l, i, delta, k), k) == delta
  {
    if Stiffness(k, i) != 0.0 {
      Undo(Stiffness(k, i), delta, Cube(l));
      Undo(Stiffness(k, i), delta, Fourth(l));
    }
  }

  /** With δ = L/n, n·P and n·q do not depend on n: the loads are inversely proportional to n. */
  lemma LoadsInverselyProportional(l: real, i: real, n: real, k: real)
    requires l > 0.0 && n != 0.0
    ensures PointLoad(l, i, l / n, k) * n == PointLoad(l, i, l, k)
    ensures UniformLoad(l, i, l / n, k) * n == UniformLoad(l, i, l, k)
  {
    Proportional(Stiffness(k, i), l, n, Cube(l));
    Proportional(Stiffness(k, i), l, n, Fourth(l));
  }

  /** A larger denominator (a stricter limit) never allows larger loads, for k·E·I ≥ 0. */
  lemma LoadsDecreaseWithDenominator(l: real, i: real, n1: real, n2: real, k: real)
    requires l > 0.0 && 0.0 < n1 <= n2 && Stiffness(k, i) >= 0.0
    ensures PointLoad(l, i, l / n2, k) <= PointLoad(l, i, l / n1, k)
    ensures UniformLoad(l, i, l / n2, k) <= UniformLoad(l, i, l / n1, k)
  {
    DivAntitone(l, n1, n2);
    MulMonotone(l / n2, l / n1, Stiffness(k, i));
    assert Stiffness(k, i) * (l / n2) <= Stiffness(k, i) * (l / n1);
    DivMonotone(Stiffness(k, i) * (l / n2), Stiffness(k, i) * (l / n1), Cube(l));
    DivMonotone(Stiffness(k, i) * (l / n2), Stiffness(k, i) * (l / n1), Fourth(l));
  }

  // ---------------------------------------------------------------------------
  // The table
  // ---------------------------------------------------------------------------

  /** One row of `tabla`: δ in mm, P in kN and q in kN/m about each axis. */
  datatype TableEntry = TableEntry(denominator: int, delta: real, px: real, qx: real, py: real, qy: real)

  /** The row for a positive denominator n. */
  function Entry(s: Scheme, l: real, ix: real, iy: real, n: int): (e: TableEntry)
    requires l > 0.0 && n > 0
    ensures e.denominator == n && e.delta == l / n as real
    ensures Stiffness(Coefficients(s).0, ix) != 0.0 ==> PointDeflection(l, ix, e.px * 1000.0, Coefficients(s).0) == e.delta
    ensures Stiffness(Coefficients(s).1, ix) != 0.0 ==> UniformDeflection(l, ix, e.qx / 1000.0, Coefficients(s).1) == e.delta
    ensures Stiffness(Coefficients(s).0, iy) != 0.0 ==> PointDeflection(l, iy, e.py * 1000.0, Coefficients(s).0) == e.delta
    ensures Stiffness(Coefficients(s).1, iy) != 0.0 ==> UniformDeflection(l, iy, e.qy / 1000.0, Coefficients(s).1) == e.delta
    ensures ix == iy ==> e.px == e.py && e.qx == e.qy
  {
    var (kp, kq) := Coefficients(s);
    var delta := l / n as real;
    var e := TableEntry(n, delta,
                        PointLoad(l, ix, delta, kp) / 1000.0, UniformLoad(l, ix, delta, kq) * 1000.0,
                        PointLoad(l, iy, delta, kp) / 1000.0, UniformLoad(l, iy, delta, kq) * 1000.0);
    LoadsRoundTrip(l, ix, delta, kp);
    LoadsRoundTrip(l, ix, delta, kq);
    LoadsRoundTrip(l, iy, delta, kp);
    LoadsRoundTrip(l, iy, delta, kq);
    e
  }

  /** The table of a list of denominators: one row per positive one, in order. */
  function TableOf(s: Scheme, l: real, ix: real, iy: real, fractions: seq<int>): seq<TableEntry>
    requires l > 0.0
  {
    if fractions == [] then []
    else
      var n := fractions[|fractions| - 1];
      TableOf(s, l, ix, iy, fractions[..|fractions| - 1]) + (if n > 0 then [Entry(s, l, ix, iy, n)] else [])
  }

  /** The positive denominators, in order. */
  function Positive(fractions: seq<int>): (r: seq<int>)
    ensures forall j :: 0 <= j < |r| ==> r[j] > 0 && r[j] in fractions
  {
    if fractions == [] then []
    else
      var n := fractions[|fractions| - 1];
      Positive(fractions[..|fractions| - 1]) + (if n > 0 then [n] else [])
  }

  /** The table lists the positive denominators in input order, each row being `Entry` of its denominator. */
  lemma {:induction false} TableOfPositive(s: Scheme, l: real, ix: real, iy: real, fractions: seq<int>)
    requires l > 0.0
    ensures |TableOf(s, l, ix, iy, fractions)| == |Positive(fractions)|
    ensures forall j :: 0 <= j < |Positive(fractions)| ==>
      TableOf(s, l, ix, iy, fractions)[j] == Entry(s, l, ix, iy, Positive(fractions)[j])
  {
    if fractions != [] {
      TableOfPositive(s, l, ix, iy, fractions[..|fractions| - 1]);
    }
  }

  /**
   * The loop of `serviciabilidad` over the denominators: a non-positive one
   * is skipped, every other one appends its row.
   */
  method BuildTable(s: Scheme, l: real, ix: real, iy: real, fractions: seq<int>) returns (table: seq<TableEntry>)
    requires l > 0.0
    ensures table == TableOf(s, l, ix, iy, fractions)
  {
    table := [];
    var i := 0;
    while i < |fractions|
      invariant 0 <= i <= |fractions|
      invariant table == TableOf(s, l, ix, iy, fractions[..i])
    {
      var n := fractions[i];
      assert fractions[..i + 1][..i] == fractions[..i];
      if n <= 0 {
        i := i + 1;
        continue;
      }
      table := table + [Entry(s, l, ix, iy, n)];
      i := i + 1;
    }
    assert fractions[..i] == fractions;
  }

  // ---------------------------------------------------------------------------
  // serviciabilidad
  // ---------------------------------------------------------------------------

  datatype ServiceabilityResult = ServiceabilityResult(
    props: Props, scheme: Scheme, l: real, ix: real, iy: real,
    table: seq<TableEntry>, warnings: seq<Warning>)

  /** Ix, and Iy except for angles, which take Iy = Ix; a KeyError for either that is absent. */
  function ReadInertias(p: Props): (r: Result<(real, real), Error>)
    ensures r.Ok? <==> Ix in p.flexure && (p.family != Angular ==> Iy in p.flexure)
    ensures r.Ok? ==> r.value.0 == p.flexure[Ix]
    ensures r.Ok? ==> r.value.1 == if p.family == Angular then p.flexure[Ix] else p.flexure[Iy]
    ensures Ix !in p.flexure ==> r == Err(MissingKey(Ix))
    ensures Ix in p.flexure && p.family != Angular && Iy !in p.flexure ==> r == Err(MissingKey(Iy))
  {
    var ix :- Lookup(p.flexure, Ix);
    if p.family == Angular then Ok((ix, ix))
    else
      var iy :- Lookup(p.flexure, Iy);
      Ok((ix, iy))
  }

  /** The angle note: equal-leg angles report the same table about both axes. */
  function InertiaNotes(f: Family): seq<Warning> {
    if f == Angular then [AngleEqualInertia] else []
  }

  /**
   * `serviciabilidad` for the row of the profile: the scheme and L are
   * validated first, then the properties are extracted and checked (missing
   * ones only warn), Ix (and Iy, except for angles, which take Iy = Ix) are
   * read and must be positive, and the table is built.
   */
  method ServiceabilityOfRow(m: Analytic, row: Row, db: Database, l: real, scheme: string, fractions: Option<seq<int>>)
    returns (r: Result<ServiceabilityResult, Error>)
    ensures SchemeNamed(NormalizeScheme(scheme)).None? ==> r == Err(UnknownScheme(NormalizeScheme(scheme)))
    ensures SchemeNamed(NormalizeScheme(scheme)).Some? && l <= 0.0 ==> r == Err(NonPositiveLength(l))
    ensures SchemeNamed(NormalizeScheme(scheme)).Some? && l > 0.0 && ExtractProperties(m, row, db.Name()).Err? ==>
      r == Err(ExtractProperties(m, row, db.Name()).error)
    ensures SchemeNamed(NormalizeScheme(scheme)).Some? && l > 0.0 && ExtractProperties(m, row, db.Name()).Ok? ==>
      var p := ExtractProperties(m, row, db.Name()).value;
      && (ReadInertias(p).Err? ==> r == Err(ReadInertias(p).error))
      && (ReadInertias(p).Ok? && (ReadInertias(p).value.0 <= 0.0 || ReadInertias(p).value.1 <= 0.0) ==>
            r == Err(InvalidInertia(ReadInertias(p).value.0, ReadInertias(p).value.1)))
      && (ReadInertias(p).Ok? && ReadInertias(p).value.0 > 0.0 && ReadInertias(p).value.1 > 0.0 ==> r.Ok?)
    ensures r.Ok? ==>
      var x := r.value;
      && SchemeNamed(NormalizeScheme(scheme)) == Some(x.scheme)
      && x.l == l && l > 0.0
      && ExtractProperties(m, row, db.Name()) == Ok(x.props)
      && ReadInertias(x.props) == Ok((x.ix, x.iy))
      && x.ix > 0.0 && x.iy > 0.0
      && x.table == TableOf(x.scheme, l, x.ix, x.iy, fractions.GetOr(DefaultFractions(x.scheme)))
      && x.warnings == MissingWarnings(Absent(Optional(x.props.family), x.props.available)) + InertiaNotes(x.props.family)
  {
    var name := NormalizeScheme(scheme);
    var sr := SchemeNamed(name);
    if sr.None? {
      return Err(UnknownScheme(name));
    }
    if l <= 0.0 {
      return Err(NonPositiveLength(l));
    }
    var s := sr.value;
    var fracs := fractions.GetOr(DefaultFractions(s));
    var pr := ExtractProperties(m, row, db.Name());
    if pr.Err? {
      return Err(pr.error);
    }
    var p := pr.value;
    var v := VerifyProperties(p);
    var warnings := v.warnings;
    var ir := ReadInertias(p);
    if ir.Err? {
      return Err(ir.error);
    }
    var (ix, iy) := ir.value;
    warnings := warnings + InertiaNotes(p.family);
    if ix <= 0.0 || iy <= 0.0 {
      return Err(InvalidInertia(ix, iy));
    }
    var table := BuildTable(s, l, ix, iy, fracs);
    r := Ok(ServiceabilityResult(p, s, l, ix, iy, table, warnings));
  }

  /** Every scheme is found under its own name. */
  lemma SchemeNamedRoundTrip(s: Scheme)
    ensures SchemeNamed(SchemeName(s)) == Some(s)
  {
  }

  /** Scheme names are already upper-case and stripped, so `serviciabilidad` accepts them as written. */
  lemma SchemeNamesNormal(s: Scheme)
    ensures NormalizeScheme(SchemeName(s)) == SchemeName(s)
  {
    var n := SchemeName(s);
    assert forall i :: 0 <= i < |n| ==> 'A' <= n[i] <= 'Z';
    UpperOfCapitals(n);
    assert !IsSpace(n[0]) && !IsSpace(n[|n| - 1]);
    StripOfTrimmed(n);
  }

  /** A weak axis as stiff as the strong one gives the same loads on both, as for angles. */
  lemma EqualInertiaColumns(s: Scheme, l: real, ix: real, fractions: seq<int>)
    requires l > 0.0
    ensures forall e :: e in TableOf(s, l, ix, ix, fractions) ==> e.px == e.py && e.qx == e.qy
  {
    TableOfPositive(s, l, ix, ix, fractions);
  }
}
