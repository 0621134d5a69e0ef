/**
 * Profile properties: the family of a profile tipo, the per-database column
 * maps with their unit factors, reading one property from a row, extraction
 * of every property of a row into SI units (mm, mm², mm⁴, mm⁶) together with
 * the shear-centre quantities, and the check of required property names.
 */
module Profile {
  import opened Wrappers
  import opened RealMath
  import opened Text
  import opened Tags
  import opened Diagnostics
  import opened Rows

  // ---------------------------------------------------------------------------
  // Families
  // ---------------------------------------------------------------------------

  type FamilyTable = seq<(Family, seq<string>)>

  /** The family table, in the order the source searches it. */
  const Families: FamilyTable := [
    (DobleT, ["W", "M", "HP", "S", "IPE", "IPN", "IPB", "IPBl", "IPBv"]),
    (Canal, ["C", "MC", "UPN"]),
    (Angular, ["L"]),
    (PerfilT, ["T", "WT", "MT", "ST"]),
    (TuboCirc, ["TUBO CIRC.", "PIPE"]),
    (TuboCuad, ["TUBO CUAD.", "HSS"]),
    (TuboRect, ["TUBO RECT.", "HSS"])
  ]

  predicate Listed(table: FamilyTable, tipo: string) {
    exists i :: 0 <= i < |table| && tipo in table[i].1
  }

  /** The first family of `table` that lists `tipo`, or Desconocida when none does. */
  function FirstFamily(table: FamilyTable, tipo: string): (f: Family)
    requires forall i :: 0 <= i < |table| ==> table[i].0 != Desconocida
    ensures f == Desconocida <==> !Listed(table, tipo)
    ensures f != Desconocida ==>
      exists i :: 0 <= i < |table| && table[i].0 == f && tipo in table[i].1 &&
        forall j :: 0 <= j < i ==> tipo !in table[j].1
  {
    if table == [] then Desconocida
    else if tipo in table[0].1 then table[0].0
    else
      var f := FirstFamily(table[1..], tipo);
      assert Listed(table, tipo) ==> Listed(table[1..], tipo) by {
        if Listed(table, tipo) {
          var i :| 0 <= i < |table| && tipo in table[i].1;
          assert i > 0 && tipo in table[1..][i - 1].1;
        }
      }
      assert f != Desconocida ==>
        exists i :: 0 <= i < |table| && table[i].0 == f && tipo in table[i].1 &&
          forall j :: 0 <= j < i ==> tipo !in table[j].1
      by {
        if f != Desconocida {
          var k :| 0 <= k < |table[1..]| && table[1..][k].0 == f && tipo in table[1..][k].1 &&
            forall j :: 0 <= j < k ==> tipo !in table[1..][j].1;
          assert forall j :: 0 <= j < k + 1 ==> tipo !in table[j].1 by {
            forall j | 0 <= j < k + 1 ensures tipo !in table[j].1 {
              if j > 0 { assert table[j] == table[1..][j - 1]; }
            }
          }
          assert table[k + 1] == table[1..][k];
        }
      }
      f
  }

  /** The square-or-rectangular decision for an HSS row, exceptions included. */
  function HssFamily(row: Row): (f: Family)
    ensures f == TuboCuad || f == TuboRect
  {
    match Get(row, "B", Num(0.0))
    case Num(b) =>
      if b > 0.0 then
        match Get(row, "d", Num(0.0))
        case Num(d) => if Abs(d - b) / Max(Max(d, b), 1.0) < 0.05 then TuboCuad else TuboRect
        case Missing => TuboRect   // NaN: the tolerance comparison is false
        case Text(_) => TuboCuad   // TypeError on the subtraction, caught
      else TuboCuad
    case Text(_) => TuboCuad       // "" is falsy; other text raises TypeError on `> 0`, caught
    case Missing => TuboCuad       // NaN > 0 is false
  }

  /** `determinar_familia(tipo, perfil)`. */
  function DetermineFamily(tipo: string, row: Option<Row>): (f: Family)
    ensures tipo == "HSS" && row.Some? ==> f == HssFamily(row.value)
    ensures !(tipo == "HSS" && row.Some?) ==> f == FirstFamily(Families, tipo)
  {
    if tipo == "HSS" && row.Some? then HssFamily(row.value) else FirstFamily(Families, tipo)
  }

  /** With a positive numeric B and a numeric d, HSS is square iff |d − B| < 5% of max(d, B, 1). */
  lemma HssSquareRule(row: Row, b: real, d: real)
    requires Get(row, "B", Num(0.0)) == Num(b) && b > 0.0
    requires Get(row, "d", Num(0.0)) == Num(d)
    ensures HssFamily(row) == TuboCuad <==> Abs(d - b) < 0.05 * Max(Max(d, b), 1.0)
  {
    DivLess(Abs(d - b), Max(Max(d, b), 1.0), 0.05);
  }

  /** Without B (or with B ≤ 0) an HSS row is taken as square. */
  lemma HssWithoutWidthIsSquare(row: Row)
    requires "B" !in row || (row["B"].Num? && row["B"].v <= 0.0) || row["B"].Missing?
    ensures DetermineFamily("HSS", Some(row)) == TuboCuad
  {
  }

  /** Outside the HSS rule the family is the first table entry listing the tipo. */
  lemma {:induction false} FamilyOfListedTipo(tipo: string, row: Option<Row>, i: nat)
    requires tipo != "HSS" || row.None?
    requires i < |Families| && tipo in Families[i].1
    requires forall j :: 0 <= j < i ==> tipo !in Families[j].1
    ensures DetermineFamily(tipo, row) == Families[i].0
  {
    assert Listed(Families, tipo);
    var f := FirstFamily(Families, tipo);
    var k :| 0 <= k < |Families| && Families[k].0 == f && tipo in Families[k].1 &&
      forall j :: 0 <= j < k ==> tipo !in Families[j].1;
    assert k == i;
  }

  // ---------------------------------------------------------------------------
  // Column maps and reading one property
  // ---------------------------------------------------------------------------

  /** One map entry: no column, a column with its unit factor, or alternatives tried in order. */
  datatype Entry = NoColumn | Column(name: string, factor: real) | Alternatives(options: seq<(string, real)>)

  /** Map for I-shapes and channels (and the area and weight of angles). */
  function BaseEntry(db: Database, k: Key): Entry {
    match db
    case CIRSOC =>
      (match k
        case Area => Column("Ag", 100.0)
        case Peso => Column("Peso", 1.0)
        case D => Column("d", 1.0)
        case Bf => Column("bf", 1.0)
        case Tf => Column("tf", 1.0)
        case Tw => Column("tw", 1.0)
        case Hw => Column("hw", 1.0)
        case Ix => Column("Ix", 10000.0)
        case Sx => Column("Sx", 1000.0)
        case Rx => Column("rx", 10.0)
        case Zx => Column("Zx", 1000.0)
        case Iy => Column("Iy", 10000.0)
        case Sy => Column("Sy", 1000.0)
        case Ry => Column("ry", 10.0)
        case Zy => Column("Zy", 1000.0)
        case J => Column("J", 10000.0)
        case Cw => Column("Cw", 1000000.0)
        case X => Column("x", 10.0)
        case Eo => Column("eo", 10.0)
        case Bf2tf => Column("bf/2tf", 1.0)
        case HwTw => Column("hw/tw", 1.0)
        case _ => NoColumn)
    case AISC =>
      (match k
        case Area => Column("A", 1.0)
        case Peso => Column("W", 1.0)
        case D => Column("d", 1.0)
        case Bf => Column("bf", 1.0)
        case Tf => Column("tf", 1.0)
        case Tw => Column("tw", 1.0)
        case Hw => NoColumn
        case Ix => Column("Ix", 1000000.0)
        case Sx => Column("Sx", 1000.0)
        case Rx => Column("rx", 1.0)
        case Zx => Column("Zx", 1000.0)
        case Iy => Column("Iy", 1000000.0)
        case Sy => Column("Sy", 1000.0)
        case Ry => Column("ry", 1.0)
        case Zy => Column("Zy", 1000.0)
        case J => Column("J", 1000.0)
        case Cw => Column("Cw", 1000000000.0)
        case X => Column("x", 1.0)
        case Eo => Column("eo", 1.0)
        case Bf2tf => Column("bf/2tf", 1.0)
        case HwTw => Column("h/tw", 1.0)
        case _ => NoColumn)
  }

  /** Map for angles. */
  function AngleEntry(db: Database, k: Key): Entry {
    match db
    case CIRSOC =>
      (match k
        case B => Column("b", 1.0)
        case T => Column("t", 1.0)
        case IxAng => Column("Ix-Iy", 10000.0)
        case SxAng => Column("Sx-Sy", 1000.0)
        case RxAng => Column("rx-ry", 10.0)
        case Iv => Column("Iv", 10000.0)
        case Sv => Column("Sv", 1000.0)
        case RadiusV => Column("iv", 10.0)
        case Iz => Column("Iz", 10000.0)
        case RadiusZ => Column("iz", 10.0)
        case BT => Column("b/t", 1.0)
        case ExEy => Column("ex-ey", 10.0)
        case _ => NoColumn)
    case AISC =>
      (match k
        case B => Column("b", 1.0)
        case T => Column("t", 1.0)
        case IxAng => Column("Ix", 1000000.0)
        case SxAng => Column("Sx", 1000.0)
        case RxAng => Column("rx", 1.0)
        case Iv => Column("Iw", 1000000.0)
        case Sv => NoColumn
        case RadiusV => Column("rz", 1.0)
        case Iz => Column("Iz", 1000000.0)
        case RadiusZ => Column("rz", 1.0)
        case BT => Column("b/t", 1.0)
        case ExEy => Column("x", 1.0)
        case _ => NoColumn)
  }

  /** Map for tees. */
  function TeeEntry(db: Database, k: Key): Entry {
    match db
    case CIRSOC =>
      (match k
        case D => Column("d", 1.0)
        case Bf => Column("bf", 1.0)
        case Tf => Column("tf", 1.0)
        case Area => Column("Ag", 100.0)
        case Peso => Column("Peso", 1.0)
        case Ix => Column("Ix", 10000.0)
        case Sx => Column("Sx", 1000.0)
        case Rx => Column("rx", 10.0)
        case Zx => Column("Zx", 1000.0)
        case Iy => Column("Iy", 10000.0)
        case Sy => Column("Sy", 1000.0)
        case Ry => Column("ry", 10.0)
        case Zy => Column("Zy", 1000.0)
        case J => Column("J", 10000.0)
        case Cw => Column("Cw", 1000000.0)
        case Bf2tf => Column("bf/2tf", 1.0)
        case DTw => Column("d/tw", 1.0)
        case _ => NoColumn)
    case AISC =>
      (match k
        case D => Column("d", 1.0)
        case Bf => Column("bf", 1.0)
        case Tf => Column("tf", 1.0)
        case Tw => Column("tw", 1.0)
        case Area => Column("A", 1.0)
        case Peso => Column("W", 1.0)
        case Ix => Column("Ix", 1000000.0)
        case Sx => Column("Sx", 1000.0)
        case Rx => Column("rx", 1.0)
        case Zx => Column("Zx", 1000.0)
        case Iy => Column("Iy", 1000000.0)
        case Sy => Column("Sy", 1000.0)
        case Ry => Column("ry", 1.0)
        case Zy => Column("Zy", 1000.0)
        case J => Column("J", 1000.0)
        case Cw => Column("Cw", 1000000000.0)
        case Bf2tf => Column("bf/2tf", 1.0)
        case DTw => Column("d/tw", 1.0)
        case _ => NoColumn)
  }

  /** Map for tubes and pipes. */
  function TubeEntry(db: Database, k: Key): Entry {
    match db
    case CIRSOC =>
      (match k
        case D => Column("d", 1.0)
        case Bf => Column("bf", 1.0)
        case T => Column("tf", 1.0)
        case Area => Column("Ag", 100.0)
        case Peso => Column("Peso", 1.0)
        case Ix => Column("Ix", 10000.0)
        case Sx => Column("Sx", 1000.0)
        case Rx => Column("rx", 10.0)
        case Zx => Column("Zx", 1000.0)
        case Iy => Column("Iy", 10000.0)
        case Sy => Column("Sy", 1000.0)
        case Ry => Column("ry", 10.0)
        case Zy => Column("Zy", 1000.0)
        case J => Column("J", 10000.0)
        case Cw => Column("Cw", 1000000.0)
        case _ => NoColumn)
    case AISC =>
      (match k
        case D => Alternatives([("Ht", 1.0), ("OD", 1.0)])
        case Bf => Alternatives([("B", 1.0)])
        case T => Alternatives([("tdes", 1.0), ("t", 1.0)])
        case Area => Column("A", 1.0)
        case Peso => Column("W", 1.0)
        case Ix => Column("Ix", 1000000.0)
        case Sx => Column("Sx", 1000.0)
        case Rx => Column("rx", 1.0)
        case Zx => Column("Zx", 1000.0)
        case Iy => Column("Iy", 1000000.0)
        case Sy => Column("Sy", 1000.0)
        case Ry => Column("ry", 1.0)
        case Zy => Column("Zy", 1000.0)
        case J => Column("J", 1000.0)
        case Cw => NoColumn
        case _ => NoColumn)
  }

  /** Whether alternative `i` has a numeric value in `row`. */
  predicate HasValue(row: Row, options: seq<(string, real)>, i: int)
    requires 0 <= i < |options|
  {
    Get(row, options[i].0, Missing).Num?
  }

  /** The first alternative column with a numeric value, times its own factor; `default` if none. */
  function FirstAvailable(row: Row, options: seq<(string, real)>, default: real): (r: real)
    ensures (forall i :: 0 <= i < |options| ==> !HasValue(row, options, i)) ==> r == default
    ensures forall i ::
      (0 <= i < |options| && HasValue(row, options, i) && forall j :: 0 <= j < i ==> !HasValue(row, options, j)) ==>
        r == Get(row, options[i].0, Missing).v * options[i].1
  {
    if options == [] then default
    else if HasValue(row, options, 0) then Get(row, options[0].0, Missing).v * options[0].1
    else
      assert forall k :: 0 <= k < |options| - 1 ==> HasValue(row, options[1..], k) == HasValue(row, options, k + 1);
      FirstAvailable(row, options[1..], default)
  }

  /**
   * `_leer`: one property read through its column-map entry. No entry gives
   * `default`; a column gives its numeric value times the factor, or
   * `default` times the factor when the cell is absent, NaN or text;
   * alternatives give the first available one.
   */
  function Read(row: Row, e: Entry, default: real): (r: real)
    ensures e.NoColumn? ==> r == default
    ensures e.Column? && e.name in row && row[e.name].Num? ==> r == row[e.name].v * e.factor
    ensures e.Column? && !(e.name in row && row[e.name].Num?) ==> r == default * e.factor
    ensures e.Alternatives? ==> r == FirstAvailable(row, e.options, default)
  {
    match e
    case NoColumn => default
    case Alternatives(options) => FirstAvailable(row, options, default)
    case Column(name, factor) => AFlotante(Get(row, name, Num(default)), default) * factor
  }

  // ---------------------------------------------------------------------------
  // Extracted properties
  // ---------------------------------------------------------------------------

  /**
   * The property dictionary: tipo, family and the groups basic, flexure,
   * torsion, section and shear centre. A shear centre without "H" is the
   * source's `H = None`.
   */
  datatype Props = Props(
    tipo: string,
    family: Family,
    basic: map<Key, real>,
    flexure: map<Key, real>,
    torsion: map<Key, real>,
    section: map<Key, real>,
    shear: map<Key, real>,
    available: seq<Key>)

  function BasicKeys(f: Family): set<Key> {
    match f
    case DobleT => {D, Bf, Ag, Peso}
    case Canal => {D, Bf, Ag, Peso}
    case Angular => {B, T, Ag, Peso}
    case PerfilT => {D, Bf, Ag, Peso}
    case TuboRect => {D, Bf, T, Ag, Peso}
    case _ => {D, T, Ag, Peso}
  }

  function FlexureKeys(f: Family): set<Key> {
    match f
    case Angular => {Ix, Sx, Rx, Iy, Sy, Ry, Iv, Sv, RadiusV, Iz, RadiusZ}
    case _ => {Ix, Sx, Rx, Zx, Iy, Sy, Ry, Zy}
  }

  function SectionKeys(f: Family): set<Key> {
    match f
    case DobleT => {Tf, Tw, Hw, Bf2tf, HwTw}
    case Canal => {Tf, Tw, Hw, Bf2tf, HwTw}
    case Angular => {B, T, BT}
    case PerfilT => {Tf, Tw, Bf2tf, DTw}
    case TuboRect => {D, Bf, T, DT}
    case _ => {D, T, DT}
  }

  function ShearKeys(f: Family): set<Key> {
    match f
    case Canal => {Xo, Yo, Ro, H, X, Eo}
    case Angular => {Ex, Ey, Xo, Yo, Ro}
    case PerfilT => {Xo, Yo, Ro}
    case _ => {Xo, Yo, Ro, H}
  }

  /** The static `disponibles` list of each family branch. */
  function AvailableNames(f: Family): seq<Key> {
    match f
    case DobleT => [D, Bf, Tf, Tw, Hw, Ag, Ix, Iy, Sx, Sy, Rx, Ry, Zx, Zy, J, Cw]
    case Canal => [D, Bf, Tf, Tw, Hw, Ag, Ix, Iy, Sx, Sy, Rx, Ry, Zx, Zy, J, Cw, X, Eo]
    case Angular => [B, T, Ag, Ix, Rx, Iv, RadiusV, Iz, J, Cw]
    case PerfilT => [D, Bf, Tf, Ag, Ix, Iy, Sx, Sy, Rx, Ry, Zx, Zy, J, Cw]
    case TuboRect => [D, Bf, T, Ag, Ix, Iy, Sx, Sy, Rx, Ry, Zx, Zy, J, Cw]
    case TuboCirc => [D, T, Ag, Ix, Rx, J, Cw]
    case TuboCuad => [D, T, Ag, Ix, Rx, J, Cw]
    case Desconocida => []
  }

  /** The shape of an extracted property dictionary for its family. */
  predicate WellFormed(p: Props) {
    && p.family != Desconocida
    && p.basic.Keys == BasicKeys(p.family)
    && p.flexure.Keys == FlexureKeys(p.family)
    && p.torsion.Keys == {J, Cw}
    && p.section.Keys == SectionKeys(p.family)
    && p.shear.Keys == ShearKeys(p.family)
    && p.available == AvailableNames(p.family)
  }

  /** `grupo[clave]`: a property of one group, with the KeyError of an absent name. */
  function Lookup(g: map<Key, real>, k: Key): (r: Result<real, Error>)
    ensures k in g <==> r.Ok?
    ensures r.Ok? ==> r.value == g[k]
    ensures r.Err? ==> r.error == MissingKey(k)
  {
    if k in g then Ok(g[k]) else Err(MissingKey(k))
  }

  /** A property reader: the source's shortcuts `R`, `L`, `T` and `Tb`, one property name to its value. */
  type Reader = Key -> real

  /** `R(clave)`: a read through the base column map. */
  function Base(row: Row, db: Database, key: Key): real {
    Read(row, BaseEntry(db, key), 0.0)
  }

  /** `L(clave)`: a read through the angle column map. */
  function Ang(row: Row, db: Database, key: Key): real {
    Read(row, AngleEntry(db, key), 0.0)
  }

  /** `T(clave)`: a read through the tee column map. */
  function Tee(row: Row, db: Database, key: Key): real {
    Read(row, TeeEntry(db, key), 0.0)
  }

  /** `Tb(clave)`: a read through the tube column map. */
  function Tube(row: Row, db: Database, key: Key): real {
    Read(row, TubeEntry(db, key), 0.0)
  }

  /** The flexure group of I-shapes, channels, tees and rectangular tubes, every value read. */
  function FullFlexure(r: Reader): map<Key, real> {
    map[
      Ix := r(Ix), Sx := r(Sx), Rx := r(Rx), Zx := r(Zx),
      Iy := r(Iy), Sy := r(Sy), Ry := r(Ry), Zy := r(Zy)
    ]
  }

  /** ro = √((Ix + Iy)/Ag) when Ag > 0, else 0: the polar radius of a doubly symmetric section. */
  function PolarRadius(m: Analytic, ix: real, iy: real, ag: real): real {
    if ag > 0.0 then m.sqrt((ix + iy) / ag) else 0.0
  }

  /** Channel shear centre computed from x and eo: (xo, ro, H). */
  function ChannelShearCentre(m: Analytic, x: real, eo: real, ix: real, iy: real, ag: real): (real, real, real) {
    var xo := Abs(x - eo);
    var ro := if ag > 0.0 then m.sqrt(xo * xo + (ix + iy) / ag) else 0.0;
    var h := if ro > 0.0 then 1.0 - xo * xo / (ro * ro) else 1.0;
    (xo, ro, h)
  }

  /**
   * Channel shear centre (xo, ro, H): for AISC the tabulated ro and H when both
   * are positive, with xo = √((1 − H)·ro²); otherwise the computed one.
   */
  function ChannelShear(m: Analytic, r: Reader, aisc: bool, roTab: real, hTab: real): (real, real, real) {
    var computed := ChannelShearCentre(m, r(X), r(Eo), r(Ix), r(Iy), r(Area));
    if aisc && roTab > 0.0 && hTab > 0.0 then (m.sqrt((1.0 - hTab) * (roTab * roTab)), roTab, hTab)
    else computed
  }

  /** bf/2tf, computed from bf and tf when the table gives 0 (AISC channels). */
  function ChannelFlangeRatio(r: Reader): real {
    var tabulated := r(Bf2tf);
    if tabulated == 0.0 && r(Bf) > 0.0 && r(Tf) > 0.0 then r(Bf) / (2.0 * r(Tf)) else tabulated
  }

  /** The DOBLE_T branch. For AISC hw = (h/tw)·tw. */
  function ExtractDobleT(m: Analytic, r: Reader, aisc: bool, tipo: string): Props
  {
    Props(
      tipo, DobleT,
      map[D := r(D), Bf := r(Bf), Ag := r(Area), Peso := r(Peso)],
      FullFlexure(r),
      map[J := r(J), Cw := r(Cw)],
      map[Tf := r(Tf), Tw := r(Tw), Hw := if aisc then r(HwTw) * r(Tw) else r(Hw),
          Bf2tf := r(Bf2tf), HwTw := r(HwTw)],
      map[Xo := 0.0, Yo := 0.0, Ro := PolarRadius(m, r(Ix), r(Iy), r(Area)), H := 1.0],
      AvailableNames(DobleT))
  }

  /** The CANAL branch; `roTab` and `hTab` are the row's "ro" and "H" cells. */
  function ExtractCanal(m: Analytic, r: Reader, aisc: bool, roTab: real, hTab: real, tipo: string): Props
  {
    var sc := ChannelShear(m, r, aisc, roTab, hTab);
    Props(
      tipo, Canal,
      map[D := r(D), Bf := r(Bf), Ag := r(Area), Peso := r(Peso)],
      FullFlexure(r),
      map[J := r(J), Cw := r(Cw)],
      map[Tf := r(Tf), Tw := r(Tw), Hw := if aisc then r(HwTw) * r(Tw) else r(Hw),
          Bf2tf := ChannelFlangeRatio(r), HwTw := r(HwTw)],
      map[Xo := sc.0, Yo := 0.0, Ro := sc.1, H := sc.2, X := r(X), Eo := r(Eo)],
      AvailableNames(Canal))
  }

  /** The ANGULAR branch: `l` reads the angle map, `r` the base map; equal legs give Iy = Ix. No H. */
  function ExtractAngular(m: Analytic, r: Reader, l: Reader, tipo: string): Props
  {
    var ag := r(Area);
    var ex := l(ExEy);
    Props(
      tipo, Angular,
      map[B := l(B), T := l(T), Ag := ag, Peso := r(Peso)],
      map[Ix := l(IxAng), Sx := l(SxAng), Rx := l(RxAng),
          Iy := l(IxAng), Sy := l(SxAng), Ry := l(RxAng),
          Iv := l(Iv), Sv := l(Sv), RadiusV := l(RadiusV),
          Iz := l(Iz), RadiusZ := l(RadiusZ)],
      map[J := r(J), Cw := r(Cw)],
      map[B := l(B), T := l(T), BT := l(BT)],
      map[Ex := ex, Ey := ex, Xo := ex, Yo := ex,
          Ro := if ag > 0.0 then m.sqrt(2.0 * (ex * ex) + (l(Iv) + l(Iz)) / ag) else 0.0],
      AvailableNames(Angular))
  }

  /** The PERFIL_T branch: tw only for AISC, no H. */
  function ExtractPerfilT(t: Reader, aisc: bool, tipo: string): Props
  {
    Props(
      tipo, PerfilT,
      map[D := t(D), Bf := t(Bf), Ag := t(Area), Peso := t(Peso)],
      FullFlexure(t),
      map[J := t(J), Cw := t(Cw)],
      map[Tf := t(Tf), Tw := if aisc then t(Tw) else 0.0, Bf2tf := t(Bf2tf), DTw := t(DTw)],
      map[Xo := 0.0, Yo := 0.0, Ro := 0.0],
      AvailableNames(PerfilT))
  }

  /** Wall slenderness d/t, 0 when t is not positive. */
  function WallRatio(d: real, t: real): real {
    if t > 0.0 then d / t else 0.0
  }

  /** The TUBO_CIRC and TUBO_CUAD branches: one axis read, the other set equal to it, ro = rx. */
  function ExtractSymmetricTube(tb: Reader, tipo: string, f: Family): Props
    requires f == TuboCirc || f == TuboCuad
  {
    Props(
      tipo, f,
      map[D := tb(D), T := tb(T), Ag := tb(Area), Peso := tb(Peso)],
      map[Ix := tb(Ix), Sx := tb(Sx), Rx := tb(Rx), Zx := tb(Zx),
          Iy := tb(Ix), Sy := tb(Sx), Ry := tb(Rx), Zy := tb(Zx)],
      map[J := tb(J), Cw := tb(Cw)],
      map[D := tb(D), T := tb(T), DT := WallRatio(tb(D), tb(T))],
      map[Xo := 0.0, Yo := 0.0, Ro := tb(Rx), H := 1.0],
      AvailableNames(f))
  }

  /** The TUBO_RECT branch: ro = √(rx² + ry²). */
  function ExtractTuboRect(m: Analytic, tb: Reader, tipo: string): Props
  {
    Props(
      tipo, TuboRect,
      map[D := tb(D), Bf := tb(Bf), T := tb(T), Ag := tb(Area), Peso := tb(Peso)],
      FullFlexure(tb),
      map[J := tb(J), Cw := tb(Cw)],
      map[D := tb(D), Bf := tb(Bf), T := tb(T), DT := WallRatio(tb(D), tb(T))],
      map[Xo := 0.0, Yo := 0.0, Ro := m.sqrt(tb(Rx) * tb(Rx) + tb(Ry) * tb(Ry)), H := 1.0],
      AvailableNames(TuboRect))
  }

  /** Each family branch builds exactly its family's key sets and `disponibles` list. */
  lemma ExtractDobleTWellFormed(m: Analytic, r: Reader, aisc: bool, tipo: string)
    ensures var p := ExtractDobleT(m, r, aisc, tipo);
      WellFormed(p) && p.tipo == tipo && p.family == DobleT
  {
  }

  lemma ExtractCanalWellFormed(m: Analytic, r: Reader, aisc: bool, roTab: real, hTab: real, tipo: string)
    ensures var p := ExtractCanal(m, r, aisc, roTab, hTab, tipo);
      WellFormed(p) && p.tipo == tipo && p.family == Canal
  {
  }

  lemma ExtractAngularWellFormed(m: Analytic, r: Reader, l: Reader, tipo: string)
    ensures var p := ExtractAngular(m, r, l, tipo);
      WellFormed(p) && p.tipo == tipo && p.family == Angular
  {
  }

  lemma ExtractPerfilTWellFormed(t: Reader, aisc: bool, tipo: string)
    ensures var p := ExtractPerfilT(t, aisc, tipo);
      WellFormed(p) && p.tipo == tipo && p.family == PerfilT
  {
  }

  lemma ExtractSymmetricTubeWellFormed(tb: Reader, tipo: string, f: Family)
    requires f == TuboCirc || f == TuboCuad
    ensures var p := ExtractSymmetricTube(tb, tipo, f);
      WellFormed(p) && p.tipo == tipo && p.family == f
  {
  }

  lemma ExtractTuboRectWellFormed(m: Analytic, tb: Reader, tipo: string)
    ensures var p := ExtractTuboRect(m, tb, tipo);
      WellFormed(p) && p.tipo == tipo && p.family == TuboRect
  {
  }

  /**
   * `str(perfil['Tipo'])` before stripping. A NaN cell prints as "nan"; number
   * formatting is not modelled, and a numeric cell gives "", which, like any
   * printed number, names no family.
   */
  function TipoText(c: Cell): string {
    match c
    case Text(s) => s
    case Missing => "nan"
    case Num(_) => ""
  }

  /** The stripped tipo of a row that has a "Tipo" column. */
  function RowTipo(row: Row): string
    requires "Tipo" in row
  {
    Strip(TipoText(row["Tipo"]))
  }

  /** Property extraction by family, after the tipo and database checks, with the source's readers. */
  function ExtractByFamily(m: Analytic, row: Row, db: Database, tipo: string, f: Family): (p: Props)
    requires f != Desconocida
    ensures WellFormed(p) && p.tipo == tipo && p.family == f
  {
    var r := k => Base(row, db, k);
    var aisc := db == AISC;
    match f
    case DobleT =>
      ExtractDobleTWellFormed(m, r, aisc, tipo);
      ExtractDobleT(m, r, aisc, tipo)
    case Canal =>
      var roTab := AFlotante(Get(row, "ro", Num(0.0)), 0.0);
      var hTab := AFlotante(Get(row, "H", Num(0.0)), 0.0);
      ExtractCanalWellFormed(m, r, aisc, roTab, hTab, tipo);
      ExtractCanal(m, r, aisc, roTab, hTab, tipo)
    case Angular =>
      var l := k => Ang(row, db, k);
      ExtractAngularWellFormed(m, r, l, tipo);
      ExtractAngular(m, r, l, tipo)
    case PerfilT =>
      var t := k => Tee(row, db, k);
      ExtractPerfilTWellFormed(t, aisc, tipo);
      ExtractPerfilT(t, aisc, tipo)
    case TuboCirc =>
      var tb := k => Tube(row, db, k);
      ExtractSymmetricTubeWellFormed(tb, tipo, TuboCirc);
      ExtractSymmetricTube(tb, tipo, TuboCirc)
    case TuboCuad =>
      var tb := k => Tube(row, db, k);
      ExtractSymmetricTubeWellFormed(tb, tipo, TuboCuad);
      ExtractSymmetricTube(tb, tipo, TuboCuad)
    case TuboRect =>
      var tb := k => Tube(row, db, k);
      ExtractTuboRectWellFormed(m, tb, tipo);
      ExtractTuboRect(m, tb, tipo)
  }

  /**
   * `extraer_propiedades(perfil, base_datos)`: KeyError without a "Tipo"
   * column, then ValueError for a database other than CIRSOC/AISC (after
   * upper-casing), then ValueError for a tipo with no family; otherwise a
   * well-formed dictionary whose family is the tipo's.
   */
  function ExtractProperties(m: Analytic, row: Row, database: string): (r: Result<Props, Error>)
    ensures "Tipo" !in row ==> r == Err(MissingColumn("Tipo"))
    ensures "Tipo" in row && DatabaseNamed(Upper(database)).None? ==> r == Err(UnknownDatabase(Upper(database)))
    ensures "Tipo" in row && DatabaseNamed(Upper(database)).Some? ==>
      var tipo := RowTipo(row);
      var f := DetermineFamily(tipo, Some(row));
      (f == Desconocida ==> r == Err(UnsupportedTipo(tipo))) &&
      (f != Desconocida ==> r.Ok? && r.value.tipo == tipo && r.value.family == f)
    ensures r.Ok? ==> WellFormed(r.value)
  {
    if "Tipo" !in row then Err(MissingColumn("Tipo"))
    else
      var tipo := RowTipo(row);
      var bd := Upper(database);
      match DatabaseNamed(bd)
      case None => Err(UnknownDatabase(bd))
      case Some(db) =>
        var f := DetermineFamily(tipo, Some(row));
        if f == Desconocida then Err(UnsupportedTipo(tipo))
        else Ok(ExtractByFamily(m, row, db, tipo, f))
  }

  // ---------------------------------------------------------------------------
  // Shear-centre facts
  // ---------------------------------------------------------------------------

  /** With positive area and non-negative Ix + Iy, the polar radius is the non-negative root of (Ix + Iy)/Ag. */
  lemma PolarRadiusSquare(m: Analytic, ix: real, iy: real, ag: real)
    requires Sound(m)
    requires ag > 0.0 && ix + iy >= 0.0
    ensures PolarRadius(m, ix, iy, ag) >= 0.0
    ensures PolarRadius(m, ix, iy, ag) * PolarRadius(m, ix, iy, ag) == (ix + iy) / ag
  {
    DivNonNegative(ix + iy, ag);
  }

  /** Doubly symmetric sections: xo = yo = 0, H = 1 and ro is the polar radius of Ix, Iy and Ag. */
  lemma DobleTShearCentre(m: Analytic, r: Reader, aisc: bool, tipo: string)
    ensures var p := ExtractDobleT(m, r, aisc, tipo);
      && p.shear[Xo] == 0.0 && p.shear[Yo] == 0.0 && p.shear[H] == 1.0
      && p.shear[Ro] == PolarRadius(m, p.flexure[Ix], p.flexure[Iy], p.basic[Ag])
  {
  }

  lemma FractionBelowOne(a: real, b: real)
    requires 0.0 <= a < b
    ensures 0.0 <= a / b < 1.0
  {
    DivLess(a, b, 1.0);
    DivNonNegative(a, b);
  }

  /**
   * Channel shear centre from x and eo: with positive area and Ix + Iy > 0,
   * xo = |x − eo|, ro > 0 with ro² = xo² + (Ix + Iy)/Ag, and 0 < H ≤ 1.
   */
  lemma ChannelShearCentreBounds(m: Analytic, x: real, eo: real, ix: real, iy: real, ag: real)
    requires Sound(m)
    requires ag > 0.0 && ix + iy > 0.0
    ensures var sc := ChannelShearCentre(m, x, eo, ix, iy, ag);
      && sc.0 == Abs(x - eo)
      && sc.1 > 0.0 && sc.1 * sc.1 == sc.0 * sc.0 + (ix + iy) / ag
      && 0.0 < sc.2 <= 1.0
  {
    var xo := Abs(x - eo);
    var s := (ix + iy) / ag;
    DivPositive(ix + iy, ag);
    assert xo * xo >= 0.0;
    var ro := m.sqrt(xo * xo + s);
    SqrtPositive(m, xo * xo + s);
    assert ro * ro == xo * xo + s;
    FractionBelowOne(xo * xo, ro * ro);
  }

  /**
   * Channels without usable tabulated values (always for CIRSOC): xo = |x − eo|
   * and, with positive area and inertia, ro > 0 and 0 < H ≤ 1.
   */
  lemma ComputedChannelShear(m: Analytic, r: Reader, aisc: bool, roTab: real, hTab: real, tipo: string)
    requires Sound(m)
    requires !(aisc && roTab > 0.0 && hTab > 0.0)
    ensures var p := ExtractCanal(m, r, aisc, roTab, hTab, tipo);
      var ag, ix, iy := p.basic[Ag], p.flexure[Ix], p.flexure[Iy];
      && p.shear[Xo] == Abs(p.shear[X] - p.shear[Eo])
      && (ag > 0.0 && ix + iy > 0.0 ==> 0.0 < p.shear[H] <= 1.0 && p.shear[Ro] > 0.0)
  {
    var p := ExtractCanal(m, r, aisc, roTab, hTab, tipo);
    var sc := ChannelShearCentre(m, r(X), r(Eo), r(Ix), r(Iy), r(Area));
    assert p.shear == map[Xo := sc.0, Yo := 0.0, Ro := sc.1, H := sc.2, X := r(X), Eo := r(Eo)];
    assert p.basic[Ag] == r(Area) && p.flexure[Ix] == r(Ix) && p.flexure[Iy] == r(Iy);
    if r(Area) > 0.0 && r(Ix) + r(Iy) > 0.0 {
      ChannelShearCentreBounds(m, r(X), r(Eo), r(Ix), r(Iy), r(Area));
    }
  }

  /** AISC channels with positive tabulated ro and H keep them, and xo² = (1 − H)·ro² when H ≤ 1. */
  lemma TabulatedChannelShear(m: Analytic, r: Reader, roTab: real, hTab: real, tipo: string)
    requires Sound(m)
    requires roTab > 0.0 && hTab > 0.0
    ensures var p := ExtractCanal(m, r, true, roTab, hTab, tipo);
      && p.shear[Ro] == roTab && p.shear[H] == hTab
      && (hTab <= 1.0 ==> p.shear[Xo] >= 0.0 && p.shear[Xo] * p.shear[Xo] == (1.0 - hTab) * (roTab * roTab))
  {
    var p := ExtractCanal(m, r, true, roTab, hTab, tipo);
    var xo := m.sqrt((1.0 - hTab) * (roTab * roTab));
    assert p.shear == map[Xo := xo, Yo := 0.0, Ro := roTab, H := hTab, X := r(X), Eo := r(Eo)];
    assert p.shear[Xo] == xo && p.shear[Ro] == roTab && p.shear[H] == hTab;
    if hTab <= 1.0 {
      NonNegativeProduct(1.0 - hTab, roTab * roTab);
    }
  }

  /** A zero tabulated bf/2tf is replaced by bf/(2·tf) when bf and tf are positive, so it becomes positive. */
  lemma ChannelFlangeRatioFixed(r: Reader)
    ensures var tab, bf, tf := r(Bf2tf), r(Bf), r(Tf);
      var ratio := ChannelFlangeRatio(r);
      && (tab == 0.0 && bf > 0.0 && tf > 0.0 ==> ratio > 0.0 && ratio * (2.0 * tf) == bf)
      && (tab != 0.0 ==> ratio == tab)
  {
    if r(Bf2tf) == 0.0 && r(Bf) > 0.0 && r(Tf) > 0.0 {
      DivPositive(r(Bf), 2.0 * r(Tf));
    }
  }

  // ---------------------------------------------------------------------------
  // Required property names
  // ---------------------------------------------------------------------------

  /** Property names each family must provide. */
  function Required(f: Family): seq<Key> {
    match f
    case DobleT => [D, Bf, Tf, Tw, Hw, Ag, Ix, Iy, Rx, Ry]
    case Canal => [D, Bf, Tf, Tw, Hw, Ag, Ix, Iy, Rx, Ry]
    case Angular => [B, T, Ag, Ix, Rx]
    case PerfilT => [D, Bf, Tf, Ag, Ix, Iy, Rx, Ry]
    case TuboCirc => [D, T, Ag, Ix, Rx]
    case TuboCuad => [D, T, Ag, Ix, Rx]
    case TuboRect => [D, Bf, T, Ag, Ix, Iy, Rx, Ry]
    case Desconocida => []
  }

  /** Property names whose absence only produces a warning. */
  function Optional(f: Family): seq<Key> {
    match f
    case DobleT => [J, Cw]
    case Canal => [J, Cw, X, Eo]
    case Angular => [J, Cw]
    case PerfilT => [J, Cw]
    case TuboCirc => [J]
    case TuboCuad => [J]
    case TuboRect => [J]
    case Desconocida => []
  }

  /** The names of `names` missing from `available`, in the order of `names`. */
  function Absent(names: seq<Key>, available: seq<Key>): (r: seq<Key>)
    ensures forall x :: x in r <==> x in names && x !in available
    ensures |r| <= |names|
  {
    if names == [] then []
    else (if names[0] in available then [] else [names[0]]) + Absent(names[1..], available)
  }

  /** One warning per name. */
  function MissingWarnings(names: seq<Key>): (ws: seq<Warning>)
    ensures |ws| == |names|
    ensures forall i :: 0 <= i < |names| ==> ws[i] == OptionalMissing(names[i])
  {
    if names == [] then [] else [OptionalMissing(names[0])] + MissingWarnings(names[1..])
  }

  /** The outcome of `verificar_propiedades`. */
  datatype Verification = Verification(complete: bool, missing: seq<Key>, warnings: seq<Warning>)

  /** The first loop of `verificar_propiedades`: records each required name not available. */
  method CheckRequired(required: seq<Key>, available: seq<Key>) returns (complete: bool, missing: seq<Key>)
    ensures missing == Absent(required, available)
    ensures complete <==> forall k :: k in required ==> k in available
  {
    complete := true;
    missing := [];
    var i := 0;
    while i < |required|
      invariant 0 <= i <= |required|
      invariant missing == Absent(required[..i], available)
      invariant complete <==> missing == []
    {
      AbsentSnoc(required[..i], required[i], available);
      assert required[..i + 1] == required[..i] + [required[i]];
      if required[i] !in available {
        missing := missing + [required[i]];
        complete := false;
      }
      i := i + 1;
    }
    assert required[..i] == required;
    if missing != [] {
      assert missing[0] in missing;
    }
  }

  /** The second loop of `verificar_propiedades`: one warning per optional name not available. */
  method CheckOptional(optional: seq<Key>, available: seq<Key>) returns (warnings: seq<Warning>)
    ensures warnings == MissingWarnings(Absent(optional, available))
  {
    warnings := [];
    var j := 0;
    while j < |optional|
      invariant 0 <= j <= |optional|
      invariant warnings == MissingWarnings(Absent(optional[..j], available))
    {
      AbsentSnoc(optional[..j], optional[j], available);
      assert optional[..j + 1] == optional[..j] + [optional[j]];
      if optional[j] !in available {
        MissingWarningsAppend(Absent(optional[..j], available), [optional[j]]);
        assert MissingWarnings([optional[j]]) == [OptionalMissing(optional[j])];
        warnings := warnings + [OptionalMissing(optional[j])];
      }
      j := j + 1;
    }
    assert optional[..j] == optional;
  }

  /**
   * `verificar_propiedades`: `complete` iff every required name is available,
   * `missing` the required names not available in table order, one warning per
   * optional name not available.
   */
  method VerifyProperties(p: Props) returns (v: Verification)
    ensures v.complete <==> forall k :: k in Required(p.family) ==> k in p.available
    ensures v.missing == Absent(Required(p.family), p.available)
    ensures v.warnings == MissingWarnings(Absent(Optional(p.family), p.available))
  {
    var complete, missing := CheckRequired(Required(p.family), p.available);
    var warnings := CheckOptional(Optional(p.family), p.available);
    v := Verification(complete, missing, warnings);
  }

  lemma {:induction false} AbsentSnoc(names: seq<Key>, x: Key, available: seq<Key>)
    ensures Absent(names + [x], available) == Absent(names, available) + (if x in available then [] else [x])
  {
    if names == [] {
      assert names + [x] == [x];
    } else {
      assert (names + [x])[1..] == names[1..] + [x];
      AbsentSnoc(names[1..], x, available);
    }
  }

  lemma {:induction false} MissingWarningsAppend(a: seq<Key>, b: seq<Key>)
    ensures MissingWarnings(a + b) == MissingWarnings(a) + MissingWarnings(b)
  {
    if a == [] {
      assert a + b == b;
    } else {
      assert (a + b)[1..] == a[1..] + b;
      MissingWarningsAppend(a[1..], b);
    }
  }

  /** Every family branch lists all its required and optional names. */
  lemma FamiliesListTheirNames(f: Family)
    ensures Absent(Required(f), AvailableNames(f)) == []
    ensures Absent(Optional(f), AvailableNames(f)) == []
  {
    var a := AvailableNames(f);
    AllListed(Required(f), a);
    AllListed(Optional(f), a);
  }

  lemma AllListed(names: seq<Key>, available: seq<Key>)
    requires forall k :: k in names ==> k in available
    ensures Absent(names, available) == []
  {
  }

  /** So an extracted dictionary always verifies complete and without warnings. */
  lemma ExtractedPropsVerify(m: Analytic, row: Row, database: string)
    requires ExtractProperties(m, row, database).Ok?
    ensures var p := ExtractProperties(m, row, database).value;
      && Absent(Required(p.family), p.available) == []
      && Absent(Optional(p.family), p.available) == []
  {
    FamiliesListTheirNames(ExtractProperties(m, row, database).value.family);
  }
}
