/**
  The tables of the WARM draft script and the lookups it makes in them: the
  material-specific gas-collection efficiencies (one column per moisture
  condition), the yearly collection efficiencies by scenario, and the
  key/value tables built from the method file's dictionaries. The CSV files
  the script reads are parameters here.
*/
module WarmTables {
  import opened Wrappers
  import opened YearRanges

  /** The moisture conditions, each a column of the material-efficiency table. */
  datatype Condition = Dry | Moderate | Wet | Bioreactor | NationalAverage

  function ConditionName(c: Condition): string {
    match c
    case Dry => "Dry"
    case Moderate => "Moderate"
    case Wet => "Wet"
    case Bioreactor => "Bioreactor"
    case NationalAverage => "National Average"
  }

  /** `conditions_list`, in its order. */
  const ConditionNames: seq<string> := ["Dry", "Moderate", "Wet", "Bioreactor", "National Average"]

  /** The condition a method-file value names; anything else (None included) is a ValueError. */
  function ParseCondition(text: Option<string>): (r: Result<Condition>)
    ensures r.Ok? <==> text.Some? && text.value in ConditionNames
    ensures r.Ok? ==> ConditionName(r.value) == text.value
    ensures r.Err? ==> r.error == ValueError
  {
    if text == Some("Dry") then Ok(Dry)
    else if text == Some("Moderate") then Ok(Moderate)
    else if text == Some("Wet") then Ok(Wet)
    else if text == Some("Bioreactor") then Ok(Bioreactor)
    else if text == Some("National Average") then Ok(NationalAverage)
    else Err(ValueError)
  }

  lemma ParseConditionName(c: Condition)
    ensures ParseCondition(Some(ConditionName(c))) == Ok(c)
  {
  }

  /** The four condition columns `drop` removes: every condition but the chosen one. */
  function OtherConditions(c: Condition): (r: seq<string>)
    ensures forall n :: n in r <==> n in ConditionNames && n != ConditionName(c)
  {
    Without(ConditionNames, ConditionName(c))
  }

  /** `[x for x in xs if x != y]` */
  function Without(xs: seq<string>, y: string): (r: seq<string>)
    ensures forall n :: n in r <==> n in xs && n != y
  {
    if xs == [] then []
    else
      assert xs == [xs[0]] + xs[1..];
      (if xs[0] == y then [] else [xs[0]]) + Without(xs[1..], y)
  }

  /**
    `df.drop(columns = names)`: the header without every listed name; a name
    that is not a column is a KeyError.
  */
  function DropColumns(header: seq<string>, names: seq<string>): (r: Result<seq<string>>)
    ensures r.Ok? <==> forall n :: n in names ==> n in header
    ensures r.Ok? ==> forall c :: c in r.value <==> c in header && c !in names
    ensures r.Err? ==> r.error == KeyError
  {
    if forall n :: n in names ==> n in header then Ok(DropAll(header, names)) else Err(KeyError)
  }

  function DropAll(header: seq<string>, names: seq<string>): (r: seq<string>)
    ensures forall c :: c in r <==> c in header && c !in names
  {
    if header == [] then []
    else
      assert header == [header[0]] + header[1..];
      (if header[0] in names then [] else [header[0]]) + DropAll(header[1..], names)
  }

  /** One row of the material-specific efficiency table. */
  datatype MaterialEfficiencyRow = MaterialEfficiencyRow(
    material: string,
    scenario: string,
    dry: real,
    moderate: real,
    wet: real,
    bioreactor: real,
    nationalAverage: real)

  function Cell(row: MaterialEfficiencyRow, c: Condition): real {
    match c
    case Dry => row.dry
    case Moderate => row.moderate
    case Wet => row.wet
    case Bioreactor => row.bioreactor
    case NationalAverage => row.nationalAverage
  }

  /** One row of the yearly collection-efficiency table. */
  datatype YearlyEfficiencyRow = YearlyEfficiencyRow(scenario: string, year: int, efficiency: real)

  /** `scenario_list`: the collection scenarios the script knows. */
  const Scenarios: seq<string> := ["Typical operation", "Worst-case", "Aggressive", "California"]

  /**
    Whether a row survives the scenario filter: for a known chosen scenario the
    rows of the three other known scenarios go; otherwise every row stays.
  */
  predicate KeepScenario(chosen: Option<string>, rowScenario: string) {
    chosen.Some? && chosen.value in Scenarios ==> !(rowScenario in Scenarios && rowScenario != chosen.value)
  }

  function FilterMaterialRows(rows: seq<MaterialEfficiencyRow>, chosen: Option<string>): (r: seq<MaterialEfficiencyRow>)
    ensures forall row :: row in r <==> row in rows && KeepScenario(chosen, row.scenario)
  {
    if rows == [] then []
    else
      assert rows == [rows[0]] + rows[1..];
      (if KeepScenario(chosen, rows[0].scenario) then [rows[0]] else []) + FilterMaterialRows(rows[1..], chosen)
  }

  function FilterYearlyRows(rows: seq<YearlyEfficiencyRow>, chosen: Option<string>): (r: seq<YearlyEfficiencyRow>)
    ensures forall row :: row in r <==> row in rows && KeepScenario(chosen, row.scenario)
  {
    if rows == [] then []
    else
      assert rows == [rows[0]] + rows[1..];
      (if KeepScenario(chosen, rows[0].scenario) then [rows[0]] else []) + FilterYearlyRows(rows[1..], chosen)
  }

  /** A chosen scenario keeps its own rows. */
  lemma KeepsChosenScenario(chosen: string, rows: seq<YearlyEfficiencyRow>, row: YearlyEfficiencyRow)
    requires row in rows && row.scenario == chosen
    ensures row in FilterYearlyRows(rows, Some(chosen))
  {
  }

  /** A column label: `read_csv` makes every header a string, while `.loc[..., 3]` asks for the integer 3. */
  datatype Label = IntLabel(n: int) | StrLabel(name: string)

  /** The condition whose column a header name is, if any. */
  function ConditionColumn(name: string): (r: Option<Condition>)
    ensures r.Some? ==> ConditionName(r.value) == name
    ensures r.None? ==> name !in ConditionNames
  {
    match ParseCondition(Some(name))
    case Ok(c) => Some(c)
    case Err(_) => None
  }

  /**
    `float(table.loc[table['Material'] == material, label].values[0])`, with an
    IndexError (no row for the material) caught as 0. A label that is not a
    column is a KeyError; a column other than a condition's holds text, whose
    `float` is a ValueError.
  */
  function GasCollectionEfficiencyAt(header: seq<string>, rows: seq<MaterialEfficiencyRow>, column: Label, material: string): (r: Result<real>)
    ensures r.Ok? <==> column.StrLabel? && column.name in header && ConditionColumn(column.name).Some?
  {
    if !(column.StrLabel? && column.name in header) then Err(KeyError)
    else match ConditionColumn(column.name)
      case None => Err(ValueError)
      case Some(c) => Ok(FirstEfficiency(rows, material, c))
  }

  /** The first row for `material`, if any. */
  function FirstRow(rows: seq<MaterialEfficiencyRow>, material: string): (r: Option<MaterialEfficiencyRow>)
    ensures r.None? <==> forall i :: 0 <= i < |rows| ==> rows[i].material != material
    ensures r.Some? ==> exists i :: 0 <= i < |rows| && rows[i] == r.value && rows[i].material == material
                                   && forall j :: 0 <= j < i ==> rows[j].material != material
  {
    if rows == [] then None
    else if rows[0].material == material then Some(rows[0])
    else
      var r := FirstRow(rows[1..], material);
      assert forall j :: 1 <= j < |rows| ==> rows[j] == rows[1..][j - 1];
      r
  }

  /** The condition-`c` efficiency of the first row for `material`, 0 when there is none. */
  function FirstEfficiency(rows: seq<MaterialEfficiencyRow>, material: string, c: Condition): real {
    match FirstRow(rows, material)
    case None => 0.0
    case Some(row) => Cell(row, c)
  }

  /**
    `return_annual_lfg_collection_efficiency(x)`: the first efficiency listed
    for year x, 0 when none is.
  */
  function YearlyEfficiency(rows: seq<YearlyEfficiencyRow>, x: int): (r: real)
    ensures (forall i :: 0 <= i < |rows| ==> rows[i].year != x) ==> r == 0.0
    ensures forall i :: (0 <= i < |rows| && rows[i].year == x
                         && (forall j :: 0 <= j < i ==> rows[j].year != x)) ==> r == rows[i].efficiency
  {
    if rows == [] then 0.0
    else if rows[0].year == x then rows[0].efficiency
    else YearlyEfficiency(rows[1..], x)
  }
}
