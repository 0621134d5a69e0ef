/** The closed tag sets the source dispatches on. */
module Tags {
  import opened Wrappers

  /** The two profile databases. */
  datatype Database = CIRSOC | AISC {
    function Name(): string {
      match this
      case CIRSOC => "CIRSOC"
      case AISC => "AISC"
    }
  }

  /** Parses an already upper-cased database name. */
  function DatabaseNamed(name: string): (r: Option<Database>)
    ensures r.Some? <==> name == "CIRSOC" || name == "AISC"
    ensures r.Some? ==> r.value.Name() == name
  {
    if name == "CIRSOC" then Some(CIRSOC)
    else if name == "AISC" then Some(AISC)
    else None
  }

  /** Profile families. */
  datatype Family =
    | DobleT | Canal | Angular | PerfilT | TuboCirc | TuboCuad | TuboRect | Desconocida

  /**
   * Keys of the property dictionaries and of the column maps. `RadiusV` and
   * `RadiusZ` are the source's lower-case `iv` and `iz`; `Area` and `Peso`
   * are the column-map keys `area` and `peso`.
   */
  datatype Key =
    | Area | Peso | Ag | D | Bf | Tf | Tw | Hw | B | T
    | Ix | Sx | Rx | Zx | Iy | Sy | Ry | Zy
    | Iv | Sv | RadiusV | Iz | RadiusZ
    | J | Cw | X | Eo
    | Bf2tf | HwTw | BT | DTw | DT
    | IxAng | SxAng | RxAng | ExEy
    | Xo | Yo | Ro | H | Ex | Ey

  /** Classes of a plate element or of a whole section, from best to worst. */
  datatype ElementClass = Compacta | NoCompacta | Esbelta {
    function Rank(): nat {
      match this
      case Compacta => 0
      case NoCompacta => 1
      case Esbelta => 2
    }
  }
}

/** Errors the source raises and warnings it collects, as values instead of messages. */
module Diagnostics {
  import opened Tags

  datatype Error =
    | ProfileNotFound(name: string)          // ValueError of the profile lookup
    | MissingColumn(column: string)          // KeyError on a table column
    | MissingKey(key: Key)                // KeyError on a property dictionary
    | UnknownDatabase(database: string)      // ValueError: database other than CIRSOC/AISC
    | UnsupportedTipo(tipo: string)          // ValueError: tipo without a family or class rule
    | IncompleteProperties(missing: seq<Key>)
    | UnsupportedFamily(family: Family)      // ValueError of the strength checks
    | UnknownScheme(scheme: string)
    | NonPositiveLength(length: real)
    | InvalidInertia(ix: real, iy: real)
    | NoQIteration                           // the Q loop ran zero times: its variables are unbound
    | ZeroDivision                           // ZeroDivisionError of a float division by zero
    | DegenerateSection                      // a divisor or square-root argument out of range
    | Incomparable(column: string)           // TypeError comparing text with a number

  datatype Warning =
    | OptionalMissing(name: Key)
    | AngleLambdaP
    | QConverged(iterations: nat, q: real, qs: real, qa: real)
    | QNotConverged(maxIterations: int, q: real)
    | NoQReduction(sectionClass: ElementClass)
    | FlexTorsionalFallback
    | SlendernessOver200(slenderness: real)
    | ZxApproximated
    | FlangeNotChecked
    | ChannelLtb
    | AngleFlexure
    | InteractionNotComputed
    | AngleEqualInertia
}
