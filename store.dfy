/**
 * The profile database manager: two loaded tables (CIRSOC and AISC), the
 * name of the active one, and the queries on the active table: a profile's
 * row by name (and tipo), a short summary of it, filters by tipo or by a
 * numeric range, and the report of names that occur in more than one row.
 */
module Store {
  import opened Wrappers
  import opened Text
  import opened Tags
  import opened Diagnostics
  import opened Rows

  // ---------------------------------------------------------------------------
  // Columns and counting
  // ---------------------------------------------------------------------------

  /** The cells of a column, in row order; a row without the column gives NaN. */
  function Column(rows: seq<Row>, c: string): (r: seq<Cell>)
    ensures |r| == |rows|
    ensures forall i :: 0 <= i < |rows| ==> r[i] == Get(rows[i], c, Missing)
  {
    seq(|rows|, i requires 0 <= i < |rows| => Get(rows[i], c, Missing))
  }

  /** How many cells equal x. */
  function Count(cells: seq<Cell>, x: Cell): nat {
    if cells == [] then 0
    else Count(cells[..|cells| - 1], x) + (if cells[|cells| - 1] == x then 1 else 0)
  }

  lemma {:induction false} CountPositive(cells: seq<Cell>, x: Cell)
    ensures Count(cells, x) > 0 <==> x in cells
  {
    if cells != [] {
      var p := cells[..|cells| - 1];
      CountPositive(p, x);
      assert cells == p + [cells[|cells| - 1]];
    }
  }

  /** The distinct values in order of first appearance, as `Series.unique()`. */
  function Unique(cells: seq<Cell>): (r: seq<Cell>)
    ensures forall x :: x in r <==> x in cells
    ensures forall i, j :: 0 <= i < j < |r| ==> r[i] != r[j]
  {
    if cells == [] then []
    else
      var p := cells[..|cells| - 1];
      var x := cells[|cells| - 1];
      assert cells == p + [x];
      var u := Unique(p);
      if x in u then u else u + [x]
  }

  /** The cells that are not NaN, in order: what `value_counts` counts. */
  function NonMissing(cells: seq<Cell>): (r: seq<Cell>)
    ensures forall x :: x in r <==> x in cells && x != Missing
  {
    if cells == [] then []
    else
      var p := cells[..|cells| - 1];
      var x := cells[|cells| - 1];
      assert cells == p + [x];
      NonMissing(p) + (if x != Missing then [x] else [])
  }

  // ---------------------------------------------------------------------------
  // Stable sort by a key, in descending order
  // ---------------------------------------------------------------------------

  /** Inserts x after every element whose key is at least x's. */
  function Insert<T>(x: T, s: seq<T>, key: T -> int): (r: seq<T>)
    ensures multiset(r) == multiset(s) + multiset{x}
    ensures |r| == |s| + 1
  {
    if s == [] then [x]
    else if key(s[0]) >= key(x) then
      assert s == [s[0]] + s[1..];
      [s[0]] + Insert(x, s[1..], key)
    else [x] + s
  }

  /** Insertion sort by descending key, each element placed after the earlier ones of equal key. */
  function SortDesc<T>(s: seq<T>, key: T -> int): (r: seq<T>)
    ensures multiset(r) == multiset(s)
    ensures |r| == |s|
  {
    if s == [] then []
    else
      assert s == s[..|s| - 1] + [s[|s| - 1]];
      Insert(s[|s| - 1], SortDesc(s[..|s| - 1], key), key)
  }

  ghost predicate SortedDesc<T>(s: seq<T>, key: T -> int) {
    forall i, j :: 0 <= i < j < |s| ==> key(s[i]) >= key(s[j])
  }

  lemma {:induction false} InsertSorted<T>(x: T, s: seq<T>, key: T -> int)
    requires SortedDesc(s, key)
    ensures SortedDesc(Insert(x, s, key), key)
  {
    if s != [] && key(s[0]) >= key(x) {
      InsertSorted(x, s[1..], key);
      var t := Insert(x, s[1..], key);
      assert multiset(t) == multiset(s[1..]) + multiset{x};
      forall j | 0 < j < |t| + 1
        ensures key(s[0]) >= key(([s[0]] + t)[j])
      {
        var y := t[j - 1];
        assert y in multiset(t);
        if y == x {
        } else {
          assert y in multiset(s[1..]);
          var k :| 0 <= k < |s[1..]| && s[1..][k] == y;
          assert s[k + 1] == y;
        }
      }
    }
  }

  /** The sort returns its input in descending key order. */
  lemma {:induction false} SortDescSorted<T>(s: seq<T>, key: T -> int)
    ensures SortedDesc(SortDesc(s, key), key)
  {
    if s != [] {
      SortDescSorted(s[..|s| - 1], key);
      InsertSorted(s[|s| - 1], SortDesc(s[..|s| - 1], key), key);
    }
  }

  lemma {:induction false} InsertAtEnd<T>(x: T, s: seq<T>, key: T -> int)
    requires forall i :: 0 <= i < |s| ==> key(s[i]) >= key(x)
    ensures Insert(x, s, key) == s + [x]
  {
    if s != [] {
      InsertAtEnd(x, s[1..], key);
      assert [s[0]] + (s[1..] + [x]) == s + [x];
    }
  }

  /** A sorted sequence with one more element at its end: the front is sorted and bounds that element. */
  lemma SortedSnoc<T>(p: seq<T>, x: T, key: T -> int)
    requires SortedDesc(p + [x], key)
    ensures SortedDesc(p, key)
    ensures forall i :: 0 <= i < |p| ==> key(p[i]) >= key(x)
  {
    var s := p + [x];
    forall i, j | 0 <= i < j < |p| ensures key(p[i]) >= key(p[j]) {
      assert p[i] == s[i] && p[j] == s[j];
    }
    forall i | 0 <= i < |p| ensures key(p[i]) >= key(x) {
      assert p[i] == s[i] && x == s[|p|];
    }
  }

  /** The last step of the sort on a sorted sequence whose front the sort leaves as it is. */
  lemma SortSnocOfSorted<T>(p: seq<T>, x: T, key: T -> int)
    requires SortDesc(p, key) == p
    requires forall i :: 0 <= i < |p| ==> key(p[i]) >= key(x)
    ensures SortDesc(p + [x], key) == p + [x]
  {
    var s := p + [x];
    assert s[..|s| - 1] == p && s[|s| - 1] == x;
    InsertAtEnd(x, p, key);
  }

  /** An already sorted sequence is left as it is: the sort is stable. */
  lemma {:induction false} SortDescOfSorted<T>(s: seq<T>, key: T -> int)
    requires SortedDesc(s, key)
    ensures SortDesc(s, key) == s
  {
    if s != [] {
      var p, x := s[..|s| - 1], s[|s| - 1];
      assert s == p + [x];
      SortedSnoc(p, x, key);
      SortDescOfSorted(p, key);
      SortSnocOfSorted(p, x, key);
    }
  }

  // ---------------------------------------------------------------------------
  // value_counts
  // ---------------------------------------------------------------------------

  /** A value with its number of occurrences. */
  type Tally = (Cell, nat)

  function Occurrences(t: Tally): int {
    t.1
  }

  /** Each name with its count in `cells`. */
  function Tallies(names: seq<Cell>, cells: seq<Cell>): (r: seq<Tally>)
    ensures |r| == |names|
    ensures forall i :: 0 <= i < |names| ==> r[i] == (names[i], Count(cells, names[i]))
  {
    seq(|names|, i requires 0 <= i < |names| => (names[i], Count(cells, names[i])))
  }

  /**
   * `Series.value_counts()`: every non-NaN value with its count, by
   * descending count; values with the same count keep their order of first
   * appearance.
   */
  function ValueCounts(cells: seq<Cell>): seq<Tally> {
    SortDesc(Tallies(Unique(NonMissing(cells)), cells), Occurrences)
  }

  /** A tally is in `value_counts` exactly when it is a non-NaN value of the column with its count. */
  lemma ValueCountsMembers(cells: seq<Cell>, t: Tally)
    ensures t in ValueCounts(cells) <==> t.0 in cells && t.0 != Missing && t.1 == Count(cells, t.0)
  {
    var ts := Tallies(Unique(NonMissing(cells)), cells);
    assert multiset(ValueCounts(cells)) == multiset(ts);
    assert t in ValueCounts(cells) <==> t in multiset(ts);
    if t.0 in cells && t.0 != Missing && t.1 == Count(cells, t.0) {
      var u := Unique(NonMissing(cells));
      var i :| 0 <= i < |u| && u[i] == t.0;
      assert ts[i] == t;
    }
  }

  /** `conteo[conteo > 1]`: the tallies of more than one occurrence, in order. */
  function Duplicated(ts: seq<Tally>): (r: seq<Tally>)
    ensures forall t :: t in r <==> t in ts && t.1 > 1
  {
    if ts == [] then []
    else
      assert ts == [ts[0]] + ts[1..];
      (if ts[0].1 > 1 then [ts[0]] else []) + Duplicated(ts[1..])
  }

  lemma {:induction false} DuplicatedSorted(ts: seq<Tally>)
    requires SortedDesc(ts, Occurrences)
    ensures SortedDesc(Duplicated(ts), Occurrences)
  {
    if ts != [] {
      assert SortedDesc(ts[1..], Occurrences);
      DuplicatedSorted(ts[1..]);
      var d := Duplicated(ts[1..]);
      forall t | t in d
        ensures ts[0].1 >= t.1
      {
        var k :| 0 <= k < |ts[1..]| && ts[1..][k] == t;
        assert ts[k + 1] == t;
      }
    }
  }

  // ---------------------------------------------------------------------------
  // verificar_nombres_ambiguos
  // ---------------------------------------------------------------------------

  /** One entry of `lista`: a name, its occurrences and the tipos it appears with. */
  datatype Ambiguity = Ambiguity(name: Cell, occurrences: nat, tipos: seq<Cell>)

  datatype AmbiguityReport = AmbiguityReport(ambiguous: nat, entries: seq<Ambiguity>, totalDuplicates: nat)

  function AmbiguityOccurrences(a: Ambiguity): int {
    a.occurrences
  }

  /** The rows whose PERFIL cell equals the name: `db[db['PERFIL'] == nombre]`. */
  function RowsNamed(rows: seq<Row>, name: Cell): (r: seq<Row>)
    ensures forall row :: row in r <==> row in rows && Get(row, "PERFIL", Missing) == name
  {
    if rows == [] then []
    else
      assert rows == [rows[0]] + rows[1..];
      (if Get(rows[0], "PERFIL", Missing) == name then [rows[0]] else []) + RowsNamed(rows[1..], name)
  }

  /** The entries the loop appends for the tallies `ds`, in order. */
  function Entries(rows: seq<Row>, ds: seq<Tally>): (r: seq<Ambiguity>)
    ensures |r| == |ds|
    ensures forall i :: 0 <= i < |ds| ==> r[i].name == ds[i].0 && r[i].occurrences == ds[i].1
  {
    if ds == [] then []
    else
      var t := ds[|ds| - 1];
      Entries(rows, ds[..|ds| - 1]) + [Ambiguity(t.0, t.1, Unique(Column(RowsNamed(rows, t.0), "Tipo")))]
  }

  function TotalOccurrences(ds: seq<Tally>): nat {
    if ds == [] then 0 else TotalOccurrences(ds[..|ds| - 1]) + ds[|ds| - 1].1
  }

  /** The loop of `verificar_nombres_ambiguos`: one entry per repeated name, and the running total. */
  method CollectEntries(rows: seq<Row>, ds: seq<Tally>) returns (entries: seq<Ambiguity>, total: nat)
    ensures entries == Entries(rows, ds)
    ensures total == TotalOccurrences(ds)
  {
    entries, total := [], 0;
    var i := 0;
    while i < |ds|
      invariant 0 <= i <= |ds|
      invariant entries == Entries(rows, ds[..i])
      invariant total == TotalOccurrences(ds[..i])
    {
      var (name, count) := ds[i];
      assert ds[..i + 1][..i] == ds[..i];
      entries := entries + [Ambiguity(name, count, Unique(Column(RowsNamed(rows, name), "Tipo")))];
      total := total + count;
      i := i + 1;
    }
    assert ds[..i] == ds;
  }

  /**
   * What `verificar_nombres_ambiguos` reports for a table with a PERFIL
   * column, or the KeyError of a missing Tipo column once a name repeats.
   */
  function AmbiguitySpec(t: Table): Result<AmbiguityReport, Error>
    requires "PERFIL" in t.columns
  {
    var ds := Duplicated(ValueCounts(Column(t.rows, "PERFIL")));
    if ds != [] && "Tipo" !in t.columns then Err(MissingColumn("Tipo"))
    else
      var es := Entries(t.rows, ds);
      Ok(AmbiguityReport(|es|, es, TotalOccurrences(ds)))
  }

  /** The report lists exactly the names that occur more than once, each with its count. */
  lemma AmbiguityListsRepeatedNames(t: Table, name: Cell)
    requires "PERFIL" in t.columns && AmbiguitySpec(t).Ok?
    ensures (exists a :: a in AmbiguitySpec(t).value.entries && a.name == name)
        <==> name != Missing && Count(Column(t.rows, "PERFIL"), name) > 1
    ensures forall a :: a in AmbiguitySpec(t).value.entries ==> a.occurrences == Count(Column(t.rows, "PERFIL"), a.name) > 1
  {
    var cells := Column(t.rows, "PERFIL");
    var ds := Duplicated(ValueCounts(cells));
    var es := AmbiguitySpec(t).value.entries;
    assert es == Entries(t.rows, ds);
    forall a | a in es
      ensures a.occurrences == Count(cells, a.name) > 1 && a.name != Missing
    {
      var i :| 0 <= i < |es| && es[i] == a;
      ValueCountsMembers(cells, ds[i]);
    }
    if name != Missing && Count(cells, name) > 1 {
      CountPositive(cells, name);
      ValueCountsMembers(cells, (name, Count(cells, name)));
      var i :| 0 <= i < |ds| && ds[i] == (name, Count(cells, name));
      assert es[i].name == name;
    }
  }

  /** The report's list is already in descending order of occurrences, so the final `sorted` keeps it. */
  lemma AmbiguityEntriesSorted(rows: seq<Row>)
    ensures SortedDesc(Entries(rows, Duplicated(ValueCounts(Column(rows, "PERFIL")))), AmbiguityOccurrences)
  {
    var cells := Column(rows, "PERFIL");
    SortDescSorted(Tallies(Unique(NonMissing(cells)), cells), Occurrences);
    DuplicatedSorted(ValueCounts(cells));
  }

  // ---------------------------------------------------------------------------
  // Profile lookup
  // ---------------------------------------------------------------------------

  /** The filter of `obtener_datos_perfil`: PERFIL equal to the name, and Tipo equal to the tipo when one is given. */
  predicate Matches(row: Row, name: string, tipo: Option<string>) {
    && CellIsText(Get(row, "PERFIL", Missing), name)
    && (tipo.Some? ==> CellIsText(Get(row, "Tipo", Missing), tipo.value))
  }

  /** `matches`: the matching rows, in table order. */
  function Matching(rows: seq<Row>, name: string, tipo: Option<string>): (r: seq<Row>)
    ensures forall row :: row in r <==> row in rows && Matches(row, name, tipo)
    ensures r == [] <==> forall row :: row in rows ==> !Matches(row, name, tipo)
  {
    if rows == [] then []
    else
      assert rows == [rows[0]] + rows[1..];
      (if Matches(rows[0], name, tipo) then [rows[0]] else []) + Matching(rows[1..], name, tipo)
  }

  /** The first matching row, `matches.iloc[0]`, is the matching row of least index. */
  lemma {:induction false} MatchingFirst(rows: seq<Row>, name: string, tipo: Option<string>)
    requires Matching(rows, name, tipo) != []
    ensures exists i :: 0 <= i < |rows| && rows[i] == Matching(rows, name, tipo)[0]
                        && Matches(rows[i], name, tipo) && (forall j :: 0 <= j < i ==> !Matches(rows[j], name, tipo))
  {
    if !Matches(rows[0], name, tipo) {
      assert Matching(rows, name, tipo) == Matching(rows[1..], name, tipo);
      MatchingFirst(rows[1..], name, tipo);
      var i :| 0 <= i < |rows[1..]| && rows[1..][i] == Matching(rows[1..], name, tipo)[0]
        && Matches(rows[1..][i], name, tipo) && forall j :: 0 <= j < i ==> !Matches(rows[1..][j], name, tipo);
      assert rows[i + 1] == rows[1..][i];
      forall j | 0 <= j < i + 1
        ensures !Matches(rows[j], name, tipo)
      {
        if j > 0 {
          assert rows[j] == rows[1..][j - 1];
        }
      }
    } else {
      assert Matching(rows, name, tipo)[0] == rows[0];
    }
  }

  // ---------------------------------------------------------------------------
  // buscar_perfiles
  // ---------------------------------------------------------------------------

  /** Python's order on strings: code point by code point, a proper prefix first. */
  predicate LexAtMost(a: string, b: string) {
    a == [] || (b != [] && (a[0] < b[0] || (a[0] == b[0] && LexAtMost(a[1..], b[1..]))))
  }

  /**
   * One comparison `cell >= bound` (or `cell <= bound`) of a pandas column:
   * NaN on either side is false, two numbers or two texts compare, and a
   * number against a text raises TypeError.
   */
  function Compare(column: string, c: Cell, bound: Cell, atLeast: bool): (r: Result<bool, Error>)
    ensures r.Err? <==> (c.Num? && bound.Text?) || (c.Text? && bound.Num?)
    ensures c.Num? && bound.Num? ==> r == Ok(if atLeast then c.v >= bound.v else c.v <= bound.v)
    ensures c.Missing? || bound.Missing? ==> r == Ok(false)
  {
    match (c, bound)
    case (Num(x), Num(b)) => Ok(if atLeast then x >= b else x <= b)
    case (Text(x), Text(b)) => Ok(if atLeast then LexAtMost(b, x) else LexAtMost(x, b))
    case (Missing, _) => Ok(false)
    case (_, Missing) => Ok(false)
    case _ => Err(Incomparable(column))
  }

  /** `res[res[column] >= bound]` (or `<=`): the rows that compare true, in order, or the TypeError. */
  function Keep(rows: seq<Row>, column: string, bound: Cell, atLeast: bool): (r: Result<seq<Row>, Error>)
    ensures r.Ok? ==> forall row :: row in r.value <==>
      row in rows && Compare(column, Get(row, column, Missing), bound, atLeast) == Ok(true)
    ensures r.Ok? <==> forall row :: row in rows ==> Compare(column, Get(row, column, Missing), bound, atLeast).Ok?
  {
    if rows == [] then Ok([])
    else
      assert rows == [rows[0]] + rows[1..];
      var c := Compare(column, Get(rows[0], column, Missing), bound, atLeast);
      if c.Err? then Err(c.error)
      else
        match Keep(rows[1..], column, bound, atLeast)
        case Err(e) => Err(e)
        case Ok(rest) => Ok((if c.value then [rows[0]] else []) + rest)
  }

  /** A bound that is not given keeps every row. */
  function KeepIf(rows: seq<Row>, column: string, bound: Option<Cell>, atLeast: bool): (r: Result<seq<Row>, Error>) {
    if bound.None? then Ok(rows) else Keep(rows, column, bound.value, atLeast)
  }

  /** The empty `pd.DataFrame()`. */
  const EmptyTable := Table([], [])

  /**
   * `buscar_perfiles` on a table: 'Tipo' keeps the rows whose Tipo equals
   * the value given as minimum (and gives the empty frame without one); a
   * column of the table keeps the rows within [min, max], each side only
   * when given; any other criterion gives the empty frame.
   */
  function SearchIn(t: Table, criterion: string, lo: Option<Cell>, hi: Option<Cell>): (r: Result<Table, Error>)
    ensures criterion == "Tipo" && lo.None? ==> r == Ok(EmptyTable)
    ensures criterion == "Tipo" && lo.Some? && "Tipo" !in t.columns ==> r == Err(MissingColumn("Tipo"))
    ensures criterion == "Tipo" && lo.Some? && "Tipo" in t.columns ==>
      r.Ok? && r.value.columns == t.columns
      && forall row :: row in r.value.rows <==> row in t.rows && lo.value != Missing && Get(row, "Tipo", Missing) == lo.value
    ensures criterion != "Tipo" && criterion !in t.columns ==> r == Ok(EmptyTable)
    ensures r.Ok? && r.value != EmptyTable ==> r.value.columns == t.columns
    ensures r.Ok? ==> forall row :: row in r.value.rows ==> row in t.rows
  {
    if criterion == "Tipo" then
      if lo.None? then Ok(EmptyTable)
      else if "Tipo" !in t.columns then Err(MissingColumn("Tipo"))
      else Ok(Table(t.columns, TipoEquals(t.rows, lo.value)))
    else if criterion in t.columns then
      match KeepIf(t.rows, criterion, lo, true)
      case Err(e) => Err(e)
      case Ok(above) =>
        match KeepIf(above, criterion, hi, false)
        case Err(e) => Err(e)
        case Ok(within) => Ok(Table(t.columns, within))
    else Ok(EmptyTable)
  }

  /** `db[db['Tipo'] == value]`: NaN equals nothing. */
  function TipoEquals(rows: seq<Row>, value: Cell): (r: seq<Row>)
    ensures forall row :: row in r <==> row in rows && value != Missing && Get(row, "Tipo", Missing) == value
  {
    if rows == [] then []
    else
      assert rows == [rows[0]] + rows[1..];
      var keep := value != Missing && Get(rows[0], "Tipo", Missing) == value;
      (if keep then [rows[0]] else []) + TipoEquals(rows[1..], value)
  }

  /** A numeric range search keeps exactly the rows whose value lies in [lo, hi], both ends included. */
  lemma RangeSearchExact(t: Table, column: string, lo: real, hi: real, row: Row)
    requires column != "Tipo" && column in t.columns
    requires SearchIn(t, column, Some(Num(lo)), Some(Num(hi))).Ok?
    ensures row in SearchIn(t, column, Some(Num(lo)), Some(Num(hi))).value.rows <==>
      row in t.rows && Get(row, column, Missing).Num? && lo <= Get(row, column, Missing).v <= hi
  {
    var above := Keep(t.rows, column, Num(lo), true);
    assert above.Ok?;
    var within := Keep(above.value, column, Num(hi), false);
    assert within.Ok?;
  }

  // ---------------------------------------------------------------------------
  // obtener_resumen_perfil
  // ---------------------------------------------------------------------------

  /** The summary for the UI: name, tipo, weight, area in cm², height and width. */
  datatype Summary = Summary(name: string, tipo: Cell, weight: Cell, area: Cell, height: Cell, width: Cell)

  /** `area_raw / 100` for AISC (mm² to cm²); a text cell raises TypeError. */
  function AreaCm2(db: Database, raw: Cell): Option<Cell> {
    if db == CIRSOC then Some(raw)
    else match raw
      case Num(v) => Some(Num(v / 100.0))
      case Missing => Some(Missing)
      case Text(_) => None
  }

  /**
   * The height and width columns by tipo; for a tipo that is not text the
   * test `'TUBO' in tipo` raises TypeError, which is `None`.
   */
  function Dimensions(tipo: Cell, p: Row): Option<(Cell, Cell)> {
    var d := Get(p, "d", Missing);
    var bf := Get(p, "bf", Missing);
    if tipo.Text? && tipo.s in ["W", "M", "HP", "IPN", "IPE", "IPB", "IPBv", "IPBl"] then Some((d, bf))
    else if tipo.Text? && tipo.s in ["C", "MC", "UPN"] then Some((d, if "bf" in p then bf else Get(p, "b", Missing)))
    else if tipo == Text("L") then Some((Get(p, "b", Missing), Get(p, "t", Missing)))
    else if !tipo.Text? then None
    else if Contains(tipo.s, "TUBO") then Some((d, if "bf" in p then bf else Missing))
    else Some((d, bf))
  }

  /** The summary of a found row, or `None` where the source's `except` catches a TypeError. */
  function SummaryOf(db: Database, name: string, p: Row): Option<Summary> {
    var tipo := Get(p, "Tipo", Text("N/A"));
    var weight := Get(p, if db == AISC then "W" else "Peso", Missing);
    var area := AreaCm2(db, Get(p, if db == AISC then "A" else "Ag", Missing));
    var dims := Dimensions(tipo, p);
    if area.None? || dims.None? then None
    else Some(Summary(name, tipo, weight, area.value, dims.value.0, dims.value.1))
  }

  // ---------------------------------------------------------------------------
  // GestorBaseDatos
  // ---------------------------------------------------------------------------

  class ProfileStore {
    var aisc: Table
    var cirsoc: Table
    var active: Database

    /** The tables as loaded (loading is not modelled); CIRSOC is active at first. */
    constructor(aisc: Table, cirsoc: Table)
      ensures this.aisc == aisc && this.cirsoc == cirsoc && active == CIRSOC
    {
      this.aisc := aisc;
      this.cirsoc := cirsoc;
      active := CIRSOC;
    }

    /** `cambiar_base`: the upper-cased name must be AISC or CIRSOC; otherwise nothing changes. */
    method ChangeDatabase(name: string) returns (r: Result<Database, Error>)
      modifies this
      ensures DatabaseNamed(Upper(name)).Some? ==> r == Ok(active) && active.Name() == Upper(name)
      ensures DatabaseNamed(Upper(name)).None? ==> r == Err(UnknownDatabase(Upper(name))) && active == old(active)
      ensures aisc == old(aisc) && cirsoc == old(cirsoc)
    {
      var upper := Upper(name);
      var db := DatabaseNamed(upper);
      if db.None? {
        return Err(UnknownDatabase(upper));
      }
      active := db.value;
      r := Ok(active);
    }

    /** `nombre_base_activa`: the name of the active database, which names it back. */
    function ActiveName(): (n: string)
      reads this
      ensures DatabaseNamed(n) == Some(active)
    {
      active.Name()
    }

    /** `obtener_base_activa`: the active table. */
    function ActiveTable(): (t: Table)
      reads this
      ensures active == AISC ==> t == aisc
      ensures active == CIRSOC ==> t == cirsoc
    {
      if active == AISC then aisc else cirsoc
    }

    /**
     * `obtener_datos_perfil`: the first row of the active table matching the
     * name (and tipo); with no tipo and several matches the source reads the
     * Tipo column for its warning.
     */
    function FindProfile(name: string, tipo: Option<string>): (r: Result<Row, Error>)
      reads this
      ensures tipo.Some? && "Tipo" !in ActiveTable().columns ==> r == Err(MissingColumn("Tipo"))
      ensures (tipo.None? || "Tipo" in ActiveTable().columns) && "PERFIL" !in ActiveTable().columns ==> r == Err(MissingColumn("PERFIL"))
      ensures "PERFIL" in ActiveTable().columns && (tipo.Some? ==> "Tipo" in ActiveTable().columns) ==>
        (r == Err(ProfileNotFound(name)) <==> forall row :: row in ActiveTable().rows ==> !Matches(row, name, tipo))
      ensures r.Ok? ==> r.value in ActiveTable().rows && Matches(r.value, name, tipo)
      ensures r.Ok? ==> Matching(ActiveTable().rows, name, tipo) != [] && r.value == Matching(ActiveTable().rows, name, tipo)[0]
      ensures ("PERFIL" in ActiveTable().columns && tipo.None? && |Matching(ActiveTable().rows, name, tipo)| > 1
               && "Tipo" !in ActiveTable().columns) ==> r == Err(MissingColumn("Tipo"))
      ensures ("PERFIL" in ActiveTable().columns && (tipo.Some? ==> "Tipo" in ActiveTable().columns)
               && Matching(ActiveTable().rows, name, tipo) != []
               && (tipo.Some? || |Matching(ActiveTable().rows, name, tipo)| == 1 || "Tipo" in ActiveTable().columns)) ==> r.Ok?
    {
      var t := ActiveTable();
      if tipo.Some? && "Tipo" !in t.columns then Err(MissingColumn("Tipo"))
      else if "PERFIL" !in t.columns then Err(MissingColumn("PERFIL"))
      else
        var ms := Matching(t.rows, name, tipo);
        if ms == [] then Err(ProfileNotFound(name))
        else if tipo.None? && |ms| > 1 && "Tipo" !in t.columns then Err(MissingColumn("Tipo"))
        else Ok(ms[0])
    }

    /** `obtener_resumen_perfil`: the summary, with every failure turned into `None`. */
    function ProfileSummary(name: string, tipo: Option<string>): (s: Option<Summary>)
      reads this
      ensures FindProfile(name, tipo).Err? ==> s.None?
      ensures s.Some? ==> s.value.name == name
    {
      match FindProfile(name, tipo)
      case Err(_) => None
      case Ok(p) => SummaryOf(active, name, p)
    }

    /** `buscar_perfiles` on the active table. */
    function Search(criterion: string, lo: Option<Cell>, hi: Option<Cell>): (r: Result<Table, Error>)
      reads this
      ensures r.Ok? ==> forall row :: row in r.value.rows ==> row in ActiveTable().rows
    {
      SearchIn(ActiveTable(), criterion, lo, hi)
    }

    /**
     * `verificar_nombres_ambiguos`: the loop over the repeated names of
     * `value_counts`, then the list sorted by occurrences.
     */
    method AmbiguousNames() returns (r: Result<AmbiguityReport, Error>)
      ensures "PERFIL" !in ActiveTable().columns ==> r == Err(MissingColumn("PERFIL"))
      ensures "PERFIL" in ActiveTable().columns ==> r == AmbiguitySpec(ActiveTable())
    {
      var t := ActiveTable();
      if "PERFIL" !in t.columns {
        return Err(MissingColumn("PERFIL"));
      }
      var ds := Duplicated(ValueCounts(Column(t.rows, "PERFIL")));
      if ds != [] && "Tipo" !in t.columns {
        return Err(MissingColumn("Tipo"));
      }
      var entries, total := CollectEntries(t.rows, ds);
      AmbiguityEntriesSorted(t.rows);
      SortDescOfSorted(entries, AmbiguityOccurrences);
      r := Ok(AmbiguityReport(|entries|, SortDesc(entries, AmbiguityOccurrences), total));
    }
  }

  /** Changing to a valid name and reading it back gives that name, upper-cased. */
  method ChangeThenRead(s: ProfileStore, name: string) returns (n: string)
    modifies s
    requires DatabaseNamed(Upper(name)).Some?
    ensures n == Upper(name)
  {
    var _ := s.ChangeDatabase(name);
    n := s.ActiveName();
  }
}
