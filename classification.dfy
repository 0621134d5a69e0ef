/**
 * Classification of a cross-section for combined compression and flexure
 * (AISC 360-10 Table B4.1): each plate element is compact, noncompact or
 * slender by comparing its width-to-thickness ratio with the limits λp and λr,
 * and the section takes the worst class of its elements.
 */
module Classification {
  import opened Wrappers
  import opened RealMath
  import opened Tags
  import opened Diagnostics
  import opened Profile
  import Rows

  /** The plate elements with a limit rule, one per `_limites_*` function. */
  datatype PlateElement = IFlange | IWeb | ChannelFlange | ChannelWeb | AngleLeg

  /** (λp, λr) as multiples of √(E/Fy), Table B4.1 cases 1, 9, 1, 9 and 3. */
  function Coefficients(k: PlateElement): (real, real) {
    match k
    case IFlange => (0.38, 1.00)
    case IWeb => (3.76, 5.70)
    case ChannelFlange => (0.38, 1.00)
    case ChannelWeb => (3.76, 5.70)
    case AngleLeg => (0.38, 0.45)
  }

  datatype Limits = Limits(lp: real, lr: real)

  /** `_limites_*(E, Fy)`: λp and λr of an element; the division E/Fy needs Fy ≠ 0. */
  function ElementLimits(m: Analytic, e: real, fy: real, k: PlateElement): Limits
    requires fy != 0.0
  {
    var root := m.sqrt(e / fy);
    Limits(Coefficients(k).0 * root, Coefficients(k).1 * root)
  }

  /**
   * For a positive modulus and yield stress the limits are positive, λp < λr,
   * and each is its coefficient times the root of E/Fy.
   */
  lemma ElementLimitsSound(m: Analytic, e: real, fy: real, k: PlateElement)
    requires Sound(m) && e > 0.0 && fy > 0.0
    ensures var l := ElementLimits(m, e, fy, k);
      var (cp, cr) := Coefficients(k);
      && 0.0 < l.lp < l.lr
      && l.lp * l.lp == cp * cp * (e / fy)
      && l.lr * l.lr == cr * cr * (e / fy)
  {
    var root := m.sqrt(e / fy);
    DivPositive(e, fy);
    SqrtPositive(m, e / fy);
    assert root * root == e / fy;
    var (cp, cr) := Coefficients(k);
    assert (cp * root) * (cp * root) == cp * cp * (root * root);
    assert (cr * root) * (cr * root) == cr * cr * (root * root);
    assert cr * root - cp * root == (cr - cp) * root;
    PositiveProduct(cr - cp, root);
    PositiveProduct(cp, root);
  }

  /**
   * `_clasificar_elemento`: compact when λp is given and λ ≤ λp, otherwise
   * noncompact when λ ≤ λr, otherwise slender.
   */
  function ClassifyElement(ratio: real, lp: Option<real>, lr: real): (c: ElementClass)
    ensures c == Compacta <==> lp.Some? && ratio <= lp.value
    ensures c == Esbelta <==> !(lp.Some? && ratio <= lp.value) && ratio > lr
  {
    if lp.Some? && ratio <= lp.value then Compacta
    else if ratio <= lr then NoCompacta
    else Esbelta
  }

  /** A more slender element never gets a better class, whatever the limits. */
  lemma ClassifyElementMonotone(l1: real, l2: real, lp: Option<real>, lr: real)
    requires l1 <= l2
    ensures ClassifyElement(l1, lp, lr).Rank() <= ClassifyElement(l2, lp, lr).Rank()
  {
  }

  /** With λp < λr the three classes are the three zones λ ≤ λp, λp < λ ≤ λr and λ > λr. */
  lemma ClassifyElementZones(ratio: real, lp: real, lr: real)
    requires lp < lr
    ensures ClassifyElement(ratio, Some(lp), lr) == Compacta <==> ratio <= lp
    ensures ClassifyElement(ratio, Some(lp), lr) == NoCompacta <==> lp < ratio <= lr
    ensures ClassifyElement(ratio, Some(lp), lr) == Esbelta <==> lr < ratio
  {
  }

  /** One classified element: its label, λ, λp, λr and class. */
  datatype Element = Element(name: string, ratio: real, lp: Option<real>, lr: real, cls: ElementClass)

  function MakeElement(name: string, ratio: real, l: Limits): (el: Element)
    ensures el.cls == ClassifyElement(ratio, Some(l.lp), l.lr)
    ensures el.name == name && el.ratio == ratio && el.lp == Some(l.lp) && el.lr == l.lr
  {
    Element(name, ratio, Some(l.lp), l.lr, ClassifyElement(ratio, Some(l.lp), l.lr))
  }

  /**
   * The section class: slender if some element is slender, else noncompact
   * if some element is noncompact, else compact.
   */
  function SectionClass(elements: seq<Element>): (c: ElementClass)
    ensures forall i :: 0 <= i < |elements| ==> elements[i].cls.Rank() <= c.Rank()
    ensures elements == [] ==> c == Compacta
    ensures elements != [] ==> exists i :: 0 <= i < |elements| && elements[i].cls == c
  {
    if exists i :: 0 <= i < |elements| && elements[i].cls == Esbelta then Esbelta
    else if exists i :: 0 <= i < |elements| && elements[i].cls == NoCompacta then NoCompacta
    else
      assert elements != [] ==> elements[0].cls == Compacta;
      Compacta
  }

  /** The outcome of `clasificar_seccion`. */
  datatype SectionClassification = SectionClassification(
    elements: seq<Element>,
    sectionClass: ElementClass,
    slender: bool,
    warnings: seq<Warning>)

  /** The tipos of the three classification branches. */
  const ITipos: seq<string> := ["W", "M", "HP", "IPE", "IPN", "IPB", "IPBl", "IPBv"]
  const ChannelTipos: seq<string> := ["C", "MC", "UPN"]

  /** The tipos the classification accepts. */
  predicate ClassifiedTipo(tipo: string) {
    tipo in ITipos || tipo in ChannelTipos || tipo == "L"
  }

  /** Flange and web of an I-shape or a channel, in that order. */
  function FlangeAndWeb(m: Analytic, p: Props, e: real, fy: real, flange: PlateElement,
                        flangeName: string, web: PlateElement): (r: Result<seq<Element>, Error>)
    requires fy != 0.0
    ensures r.Ok? <==> Bf2tf in p.section && HwTw in p.section
    ensures Bf2tf !in p.section ==> r == Err(MissingKey(Bf2tf))
    ensures Bf2tf in p.section && HwTw !in p.section ==> r == Err(MissingKey(HwTw))
    ensures r.Ok? ==> r.value == [
      MakeElement(flangeName, p.section[Bf2tf], ElementLimits(m, e, fy, flange)),
      MakeElement("Alma (hw/tw)", p.section[HwTw], ElementLimits(m, e, fy, web))]
  {
    var ala :- Lookup(p.section, Bf2tf);
    var alma :- Lookup(p.section, HwTw);
    Ok([MakeElement(flangeName, ala, ElementLimits(m, e, fy, flange)),
        MakeElement("Alma (hw/tw)", alma, ElementLimits(m, e, fy, web))])
  }

  /**
   * The elements and warnings of the tipo's branch, before the section class:
   * flange bf/2tf and web hw/tw for I-shapes, flange bf/tf and web hw/tw for
   * channels, the leg b/t (with the note on its λp) for angles; a missing
   * ratio is the KeyError of the first one read.
   */
  function ElementsOf(m: Analytic, p: Props, e: real, fy: real): (r: Result<(seq<Element>, seq<Warning>), Error>)
    ensures !ClassifiedTipo(p.tipo) ==> r == Err(UnsupportedTipo(p.tipo))
    ensures ClassifiedTipo(p.tipo) && fy == 0.0 ==> r == Err(ZeroDivision)
    ensures fy != 0.0 && (p.tipo in ITipos || p.tipo in ChannelTipos) ==>
      && (r.Ok? <==> Bf2tf in p.section && HwTw in p.section)
      && (r.Err? ==> r.error == MissingKey(if Bf2tf !in p.section then Bf2tf else HwTw))
    ensures fy != 0.0 && p.tipo in ITipos && r.Ok? ==>
      r.value == ([MakeElement("Ala (bf/2tf)", p.section[Bf2tf], ElementLimits(m, e, fy, IFlange)),
                   MakeElement("Alma (hw/tw)", p.section[HwTw], ElementLimits(m, e, fy, IWeb))], [])
    ensures fy != 0.0 && p.tipo in ChannelTipos && r.Ok? ==>
      r.value == ([MakeElement("Ala (bf/tf)", p.section[Bf2tf], ElementLimits(m, e, fy, ChannelFlange)),
                   MakeElement("Alma (hw/tw)", p.section[HwTw], ElementLimits(m, e, fy, ChannelWeb))], [])
    ensures fy != 0.0 && p.tipo == "L" ==>
      r == if BT in p.section
           then Ok(([MakeElement("Pata (b/t)", p.section[BT], ElementLimits(m, e, fy, AngleLeg))], [AngleLambdaP]))
           else Err(MissingKey(BT))
  {
    if ClassifiedTipo(p.tipo) then
      if fy == 0.0 then Err(ZeroDivision)
      else if p.tipo in ITipos then
        var els :- FlangeAndWeb(m, p, e, fy, IFlange, "Ala (bf/2tf)", IWeb);
        Ok((els, []))
      else if p.tipo in ChannelTipos then
        var els :- FlangeAndWeb(m, p, e, fy, ChannelFlange, "Ala (bf/tf)", ChannelWeb);
        Ok((els, []))
      else
        var pata :- Lookup(p.section, BT);
        Ok(([MakeElement("Pata (b/t)", pata, ElementLimits(m, e, fy, AngleLeg))], [AngleLambdaP]))
    else Err(UnsupportedTipo(p.tipo))
  }

  /**
   * `clasificar_seccion(props, Fy, E)`: ValueError for a tipo outside the
   * I-shape, channel and angle lists; otherwise the elements of its branch,
   * the worst of their classes, `es_esbelta` exactly when that class is
   * slender, and the angle warning only for "L".
   */
  function ClassifySection(m: Analytic, p: Props, fy: real, e: real): (r: Result<SectionClassification, Error>)
    ensures !ClassifiedTipo(p.tipo) ==> r == Err(UnsupportedTipo(p.tipo))
    ensures ClassifiedTipo(p.tipo) && fy == 0.0 ==> r == Err(ZeroDivision)
    ensures r.Ok? ==>
      && (forall i :: 0 <= i < |r.value.elements| ==> r.value.elements[i].cls.Rank() <= r.value.sectionClass.Rank())
      && (exists i :: 0 <= i < |r.value.elements| && r.value.elements[i].cls == r.value.sectionClass)
      && (r.value.slender <==> r.value.sectionClass == Esbelta)
      && (r.value.warnings == if p.tipo == "L" then [AngleLambdaP] else [])
      && |r.value.elements| == (if p.tipo == "L" then 1 else 2)
    ensures r.Ok? <==> ElementsOf(m, p, e, fy).Ok?
    ensures r.Err? ==> r.error == ElementsOf(m, p, e, fy).error
    ensures r.Ok? ==> r.value.elements == ElementsOf(m, p, e, fy).value.0
  {
    var (elements, warnings) :- ElementsOf(m, p, e, fy);
    var c := SectionClass(elements);
    Ok(SectionClassification(elements, c, c == Esbelta, warnings))
  }

  /** The family extraction gives each classified tipo: I-shapes, channels and angles. */
  lemma FamilyOfClassifiedTipo(tipo: string, row: Rows.Row)
    requires ClassifiedTipo(tipo)
    ensures tipo in ITipos ==> DetermineFamily(tipo, Some(row)) == DobleT
    ensures tipo in ChannelTipos ==> DetermineFamily(tipo, Some(row)) == Canal
    ensures tipo == "L" ==> DetermineFamily(tipo, Some(row)) == Angular
  {
    if tipo in ITipos {
      FamilyOfListedTipo(tipo, Some(row), 0);
    } else if tipo in ChannelTipos {
      FamilyOfListedTipo(tipo, Some(row), 1);
    } else {
      FamilyOfListedTipo(tipo, Some(row), 2);
    }
  }

  /** A well-formed dictionary of the tipo's family has every ratio its branch reads. */
  lemma WellFormedPropsClassify(m: Analytic, p: Props, fy: real, e: real)
    requires WellFormed(p) && fy != 0.0
    requires p.tipo in ITipos ==> p.family == DobleT
    requires p.tipo in ChannelTipos ==> p.family == Canal
    requires p.tipo == "L" ==> p.family == Angular
    ensures ClassifiedTipo(p.tipo) <==> ClassifySection(m, p, fy, e).Ok?
  {
  }

  /**
   * So a dictionary extracted from a row of a classified tipo never stops the
   * classification on a missing key when Fy ≠ 0.
   */
  lemma ExtractedPropsClassify(m: Analytic, row: Rows.Row, database: string, fy: real, e: real)
    requires ExtractProperties(m, row, database).Ok?
    requires ClassifiedTipo(ExtractProperties(m, row, database).value.tipo)
    requires fy != 0.0
    ensures ClassifySection(m, ExtractProperties(m, row, database).value, fy, e).Ok?
  {
    var p := ExtractProperties(m, row, database).value;
    FamilyOfClassifiedTipo(p.tipo, row);
    WellFormedPropsClassify(m, p, fy, e);
  }
}
