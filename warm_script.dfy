/**
  The package's WARM-style draft script: material-specific decay rates, the
  waste series and the material ratios expanded by year, the efficiency
  tables narrowed to one moisture condition and one collection scenario, and
  then one output row per year x in [0, T) holding, for every material, the
  methane of that year and its running total. The method file and the CSV
  tables the script reads are the `Settings` and `Tables` values; the
  symbolic `exp` it imports is a parameter.
*/
module WarmScript {
  import opened Wrappers
  import opened YearRanges
  import opened WasteRates
  import opened WarmTables

  /** The keys of the method file the script reads. */
  datatype Settings = Settings(
    wasteAcceptanceRate: seq<(Key, real)>,
    landfillLife: Option<int>,
    degradableOrganicCarbon: real,
    degradableOrganicCarbonFraction: real,
    materialRatios: Dict<real>,
    materialDecayRates: Option<Dict<real>>,
    methaneCorrectionFactor: real,
    methaneContent: real,
    moistureConditions: Option<string>,
    lfgCollectionScenario: Option<string>,
    defaultKValues: Option<string>,
    calcYear: Option<int>,
    landfillClose: Option<int>)

  /** The two CSV tables of collection efficiencies, each with its header. */
  datatype Tables = Tables(
    materialHeader: seq<string>,
    materialRows: seq<MaterialEfficiencyRow>,
    yearlyHeader: seq<string>,
    yearlyRows: seq<YearlyEfficiencyRow>)

  /** Everything the emissions loop reads, as the script has it just before the loop. */
  datatype Prepared = Prepared(
    calcYear: int,
    t: int,
    subset: Rows,
    materials: seq<string>,
    ratios: Dict<real>,
    decayRates: Dict<real>,
    condition: Condition,
    materialHeader: seq<string>,
    materialRows: seq<MaterialEfficiencyRow>,
    yearlyRows: seq<YearlyEfficiencyRow>)

  /** `calc_year` when the method file has it, else `landfill_close`, else 2024. */
  function CalcYear(calcYear: Option<int>, landfillClose: Option<int>): (r: int)
    ensures calcYear.Some? ==> r == calcYear.value
    ensures calcYear.None? && landfillClose.Some? ==> r == landfillClose.value
    ensures calcYear.None? && landfillClose.None? ==> r == 2024
  {
    if calcYear.Some? then calcYear.value
    else if landfillClose.Some? then landfillClose.value
    else 2024
  }

  /**
    `load_default_decay_rates()`: only "IPCC" and "Barlaz" name a file; for any
    other source the local `path` is never bound and reading it is an
    UnboundLocalError. The table read is not used.
  */
  function LoadDefaultDecayRates(source: Option<string>): (r: Result<()>)
    ensures r.Ok? <==> source == Some("IPCC") || source == Some("Barlaz")
    ensures r.Err? ==> r.error == UnboundLocalError
  {
    if source == Some("IPCC") || source == Some("Barlaz") then Ok(()) else Err(UnboundLocalError)
  }

  /**
    The waste table as the loop sees it: the series expanded by year (the
    material ratios are expanded too, for their errors only), the years made
    integers, and only the years before `calc_year` kept.
  */
  function WasteSubset(s: Settings): (r: Result<Rows>)
    ensures r.Ok? ==> forall row :: row in r.value ==> row.0 <= CalcYear(s.calcYear, s.landfillClose) - 1
    ensures r.Ok? ==> forall year :: year >= CalcYear(s.calcYear, s.landfillClose) ==> Acceptance(r.value, year) == 0.0
  {
    var calcYear := CalcYear(s.calcYear, s.landfillClose);
    var _ :- LoadDefaultDecayRates(s.defaultKValues);
    var wasteSplit :- Expand(s.wasteAcceptanceRate, DashInStrOfKey);
    var ratioSplit :- Expand(MaterialItems(s.materialRatios), DashInKey);
    var rows :- YearRows(wasteSplit);
    SubsetBefore(rows, calcYear - 1);
    Ok(Subset(rows, calcYear - 1))
  }

  lemma SubsetBefore(rows: Rows, bound: int)
    ensures forall row :: row in Subset(rows, bound) ==> row.0 <= bound
    ensures forall year :: year > bound ==> Acceptance(Subset(rows, bound), year) == 0.0
  {
    forall row | row in Subset(rows, bound)
      ensures row.0 <= bound
    {
      SubsetRows(rows, bound, row);
    }
    forall year | year > bound
      ensures Acceptance(Subset(rows, bound), year) == 0.0
    {
      SubsetAcceptance(rows, bound, year);
    }
  }

  /**
    The script from the method file to the state before the loop, or the
    exception that stops it, in the order the script meets them.
  */
  function Prepare(s: Settings, tables: Tables): Result<Prepared> {
    var subset :- WasteSubset(s);
    var sel :- SelectTables(s, tables);
    Ok(Prepared(
      CalcYear(s.calcYear, s.landfillClose), sel.t, subset, Keys(s.materialRatios), s.materialRatios,
      sel.decayRates, sel.condition, sel.materialHeader, sel.materialRows, sel.yearlyRows))
  }

  /** What the steps after the waste subset settle: the decay rates, the condition, the tables and T. */
  datatype Selection = Selection(
    decayRates: Dict<real>,
    condition: Condition,
    materialHeader: seq<string>,
    materialRows: seq<MaterialEfficiencyRow>,
    yearlyRows: seq<YearlyEfficiencyRow>,
    t: int)

  /**
    The steps after the waste subset: the decay-rate dictionary (None is an
    AttributeError), the moisture condition and the columns of the other
    conditions dropped, the "Scenario" column dropped from both tables when the
    scenario is not a known one, T (None is a TypeError), and the rows filtered
    by scenario.
  */
  function SelectTables(s: Settings, tables: Tables): (r: Result<Selection>)
    ensures r.Ok? ==> s.materialDecayRates == Some(r.value.decayRates)
    ensures r.Ok? ==> s.landfillLife == Some(r.value.t)
    ensures r.Ok? ==> s.moistureConditions == Some(ConditionName(r.value.condition))
    ensures r.Ok? ==> forall c :: c in r.value.materialHeader ==> c in tables.materialHeader && c !in OtherConditions(r.value.condition)
    ensures r.Ok? ==> forall row :: row in r.value.materialRows <==> row in tables.materialRows && KeepScenario(s.lfgCollectionScenario, row.scenario)
    ensures r.Ok? ==> forall row :: row in r.value.yearlyRows <==> row in tables.yearlyRows && KeepScenario(s.lfgCollectionScenario, row.scenario)
  {
    var decayRates :- if s.materialDecayRates.None? then Err(AttributeError) else Ok(s.materialDecayRates.value);
    var condition :- ParseCondition(s.moistureConditions);
    var materialHeader :- DropColumns(tables.materialHeader, OtherConditions(condition));
    var scenario := s.lfgCollectionScenario;
    var known := scenario.Some? && scenario.value in Scenarios;
    var materialHeader' :- if known then Ok(materialHeader) else DropColumns(materialHeader, ["Scenario"]);
    var yearlyHeader :- if known then Ok(tables.yearlyHeader) else DropColumns(tables.yearlyHeader, ["Scenario"]);
    var t :- if s.landfillLife.None? then Err(TypeError) else Ok(s.landfillLife.value);
    Ok(Selection(decayRates, condition, materialHeader', FilterMaterialRows(tables.materialRows, scenario),
      FilterYearlyRows(tables.yearlyRows, scenario), t))
  }

  /** The column `return_gas_collection_efficiency` reads as written: the integer label 3. */
  const ColumnAsWritten: Label := IntLabel(3)

  /** The column it evidently means: the one moisture condition the script kept. */
  function ConditionLabel(p: Prepared): Label {
    StrLabel(ConditionName(p.condition))
  }

  /** What one material needs from the tables: its ratio and its decay rate. */
  datatype MaterialParameters = MaterialParameters(ratio: real, k: real)

  /**
    The lookups the loop body makes for a material, in their order: its
    ratio, its decay rate, its gas-collection efficiency in `column`. None
    depends on the year, so the first year meets every error there is.
  */
  function MaterialCheck(p: Prepared, column: Label, material: string): Result<MaterialParameters> {
    var ratio :- LocFirst(p.ratios, material);
    var k :- LocFirst(p.decayRates, material);
    var _ :- GasCollectionEfficiencyAt(p.materialHeader, p.materialRows, column, material);
    Ok(MaterialParameters(ratio, k))
  }

  /** The checks of the materials in order, stopping at the first error. */
  function Checks(p: Prepared, column: Label, materials: seq<string>): (r: Result<seq<MaterialParameters>>)
    ensures r.Ok? ==> |r.value| == |materials|
  {
    if materials == [] then Ok([])
    else
      var before :- Checks(p, column, materials[..|materials| - 1]);
      var last :- MaterialCheck(p, column, materials[|materials| - 1]);
      Ok(before + [last])
  }

  /** Every factor of the annual methane but the ratio and the accepted waste. */
  function GenerationFactor(s: Settings, exp: real -> real, k: real, t: int, x: int): real {
    s.methaneCorrectionFactor
    * s.degradableOrganicCarbon
    * s.degradableOrganicCarbonFraction
    * s.methaneContent
    * 16.0 / 12.0
    * (exp(-k * (t - x - 1) as real) - exp(-k * (t - x) as real))
  }

  /** The methane of a material in year x: its ratio times the generation of the waste accepted in `calc_year + x`. */
  function Annual(s: Settings, p: Prepared, exp: real -> real, m: MaterialParameters, x: int): real {
    m.ratio * (Acceptance(p.subset, p.calcYear + x) * GenerationFactor(s, exp, m.k, p.t, x))
  }

  /** The sum of a material's annual methane over the years 0..x. */
  function Cumulative(s: Settings, p: Prepared, exp: real -> real, m: MaterialParameters, x: int): real
    decreases x
  {
    if x < 0 then 0.0 else Cumulative(s, p, exp, m, x - 1) + Annual(s, p, exp, m, x)
  }

  /** The two columns a material contributes to a row: `<material> Methane Annual` and `<material> Methane Total`. */
  datatype MaterialColumns = MaterialColumns(material: string, annual: real, total: real)

  /** One output row: its year and its material columns in material order. */
  datatype EmissionRow = EmissionRow(year: int, columns: seq<MaterialColumns>)

  function Row(s: Settings, p: Prepared, exp: real -> real, params: seq<MaterialParameters>, x: int): (r: EmissionRow)
    requires |params| == |p.materials|
  {
    EmissionRow(p.calcYear + x, seq(|p.materials|, j requires 0 <= j < |p.materials| =>
      MaterialColumns(p.materials[j], Annual(s, p, exp, params[j], x), Cumulative(s, p, exp, params[j], x))))
  }

  /**
    The rows of the loop: none when T <= 0; otherwise the first material
    whose lookups fail stops it, or one row per year x in [0, T).
  */
  function Emissions(s: Settings, p: Prepared, exp: real -> real, column: Label): Result<seq<EmissionRow>> {
    if p.t <= 0 then Ok([])
    else
      var params :- Checks(p, column, p.materials);
      Ok(seq(p.t, x requires 0 <= x < p.t => Row(s, p, exp, params, x)))
  }

  /** The frame the script writes: the rows and the unit column. */
  datatype Output = Output(rows: seq<EmissionRow>, unit: string)

  /** The script with the gas-collection lookup reading `column`. */
  function RunWith(s: Settings, tables: Tables, exp: real -> real, column: Prepared -> Label): Result<Output> {
    var p :- Prepare(s, tables);
    var rows :- Emissions(s, p, exp, column(p));
    Ok(Output(rows, "Metric Tons"))
  }

  /** The script as written: the lookup asks for column 3. */
  function RunAsWritten(s: Settings, tables: Tables, exp: real -> real): Result<Output> {
    RunWith(s, tables, exp, _ => ColumnAsWritten)
  }

  /** The script with the lookup reading the kept moisture-condition column. */
  function Run(s: Settings, tables: Tables, exp: real -> real): Result<Output> {
    RunWith(s, tables, exp, ConditionLabel)
  }

  /** The checks of a list that passes pass for each of its prefixes, with the prefix of the parameters. */
  lemma {:induction false} ChecksPrefix(p: Prepared, column: Label, ms: seq<string>, n: nat)
    requires Checks(p, column, ms).Ok? && n <= |ms|
    ensures Checks(p, column, ms[..n]) == Ok(Checks(p, column, ms).value[..n])
    decreases |ms|
  {
    if n < |ms| {
      var before := ms[..|ms| - 1];
      assert Checks(p, column, before).Ok?;
      ChecksPrefix(p, column, before, n);
      assert before[..n] == ms[..n];
      assert Checks(p, column, ms).value == Checks(p, column, before).value + [Checks(p, column, ms).value[|ms| - 1]];
      assert Checks(p, column, ms).value[..n] == Checks(p, column, before).value[..n];
    } else {
      assert ms[..n] == ms;
      assert Checks(p, column, ms).value[..n] == Checks(p, column, ms).value;
    }
  }

  /** Once a prefix of the materials fails, the whole list fails with the same error. */
  lemma {:induction false} ChecksStopAtError(p: Prepared, column: Label, ms: seq<string>, n: nat)
    requires n <= |ms| && Checks(p, column, ms[..n]).Err?
    ensures Checks(p, column, ms) == Checks(p, column, ms[..n])
    decreases |ms| - n
  {
    if n < |ms| {
      assert ms[..n + 1][..n] == ms[..n];
      assert Checks(p, column, ms[..n + 1]).Err?;
      ChecksStopAtError(p, column, ms, n + 1);
    } else {
      assert ms[..n] == ms;
    }
  }

  /** The script's steps up to the waste subset, with its two expansion loops. */
  method WasteSubsetScript(s: Settings) returns (r: Result<Rows>)
    ensures r == WasteSubset(s)
  {
    var calcYear := CalcYear(s.calcYear, s.landfillClose);
    var loaded := LoadDefaultDecayRates(s.defaultKValues);
    if loaded.Err? {
      return Err(loaded.error);
    }
    var wasteSplit := ExpandRanges(s.wasteAcceptanceRate, DashInStrOfKey);
    if wasteSplit.Err? {
      return Err(wasteSplit.error);
    }
    var ratioSplit := ExpandRanges(MaterialItems(s.materialRatios), DashInKey);
    if ratioSplit.Err? {
      return Err(ratioSplit.error);
    }
    var rows := YearRows(wasteSplit.value);
    if rows.Err? {
      return Err(rows.error);
    }
    return Ok(Subset(rows.value, calcYear - 1));
  }

  /** The script's steps before the loop. */
  method PrepareScript(s: Settings, tables: Tables) returns (r: Result<Prepared>)
    ensures r == Prepare(s, tables)
  {
    var subset := WasteSubsetScript(s);
    if subset.Err? {
      return Err(subset.error);
    }
    if s.materialDecayRates.None? {
      return Err(AttributeError);
    }
    var condition := ParseCondition(s.moistureConditions);
    if condition.Err? {
      return Err(condition.error);
    }
    var materialHeader := DropColumns(tables.materialHeader, OtherConditions(condition.value));
    if materialHeader.Err? {
      return Err(materialHeader.error);
    }
    var scenario := s.lfgCollectionScenario;
    var header := materialHeader.value;
    if !(scenario.Some? && scenario.value in Scenarios) {
      var dropped := DropColumns(header, ["Scenario"]);
      if dropped.Err? {
        return Err(dropped.error);
      }
      var yearlyDropped := DropColumns(tables.yearlyHeader, ["Scenario"]);
      if yearlyDropped.Err? {
        return Err(yearlyDropped.error);
      }
      header := dropped.value;
    }
    if s.landfillLife.None? {
      return Err(TypeError);
    }
    return Ok(Prepared(
      CalcYear(s.calcYear, s.landfillClose), s.landfillLife.value, subset.value, Keys(s.materialRatios),
      s.materialRatios, s.materialDecayRates.value, condition.value, header,
      FilterMaterialRows(tables.materialRows, scenario), FilterYearlyRows(tables.yearlyRows, scenario)));
  }

  /** The whole script, with the gas-collection lookup reading the kept moisture-condition column. */
  method RunScript(s: Settings, tables: Tables, exp: real -> real) returns (r: Result<Output>)
    ensures r == Run(s, tables, exp)
  {
    var p := PrepareScript(s, tables);
    if p.Err? {
      return Err(p.error);
    }
    var rows := CalculateEmissions(s, p.value, exp, ConditionLabel(p.value));
    if rows.Err? {
      return Err(rows.error);
    }
    return Ok(Output(rows.value, "Metric Tons"));
  }

  /**
    The emissions loop: for each year x in [0, T) a row with the year
    `calc_year + x` and, per material, its annual methane and running total.
  */
  method CalculateEmissions(s: Settings, p: Prepared, exp: real -> real, column: Label) returns (r: Result<seq<EmissionRow>>)
    ensures r == Emissions(s, p, exp, column)
  {
    var totals := seq(|p.materials|, _ => 0.0);
    var data: seq<EmissionRow> := [];
    ghost var params: seq<MaterialParameters> := [];
    var x := 0;
    while x < p.t
      invariant 0 <= x <= (if p.t < 0 then 0 else p.t)
      invariant x > 0 ==> Checks(p, column, p.materials) == Ok(params)
      invariant RowsSoFar(s, p, exp, params, x, totals, data)
    {
      var year := MaterialColumnsOfYear(s, p, exp, column, x, totals);
      if year.Err? {
        return Err(year.error);
      }
      ghost var params' := Checks(p, column, p.materials).value;
      var (columns, totals') := year.value;
      var row := EmissionRow(p.calcYear + x, columns);
      NextYear(s, p, exp, params, params', x, totals, data, columns, totals');
      data := data + [row];
      totals := totals';
      params := params';
      x := x + 1;
    }
    if p.t > 0 {
      assert data == seq(p.t, y requires 0 <= y < p.t => Row(s, p, exp, params, y));
    }
    return Ok(data);
  }

  /**
    The state of the year loop before year x: the running totals through
    year x - 1 (all 0 before the first year) and the rows of the years before x.
  */
  ghost predicate RowsSoFar(s: Settings, p: Prepared, exp: real -> real, params: seq<MaterialParameters>, x: nat,
                            totals: seq<real>, data: seq<EmissionRow>)
  {
    && |totals| == |p.materials| && |data| == x
    && (x == 0 ==> forall j :: 0 <= j < |totals| ==> totals[j] == 0.0)
    && (x > 0 ==>
          && |params| == |p.materials|
          && (forall j :: 0 <= j < |totals| ==> totals[j] == Cumulative(s, p, exp, params[j], x - 1))
          && (forall y :: 0 <= y < x ==> data[y] == Row(s, p, exp, params, y)))
  }

  /** One pass of the year loop turns the totals through year x - 1 into the row of year x. */
  lemma NextYear(s: Settings, p: Prepared, exp: real -> real, params: seq<MaterialParameters>,
                 params': seq<MaterialParameters>, x: nat, totals: seq<real>, data: seq<EmissionRow>,
                 columns: seq<MaterialColumns>, totals': seq<real>)
    requires RowsSoFar(s, p, exp, params, x, totals, data)
    requires x > 0 ==> params' == params
    requires |params'| == |p.materials| == |totals'| == |columns|
    requires forall j :: 0 <= j < |totals| ==>
               && totals'[j] == totals[j] + Annual(s, p, exp, params'[j], x)
               && columns[j] == MaterialColumns(p.materials[j], Annual(s, p, exp, params'[j], x), totals'[j])
    ensures RowsSoFar(s, p, exp, params', x + 1, totals', data + [EmissionRow(p.calcYear + x, columns)])
  {
    forall j | 0 <= j < |totals'|
      ensures totals'[j] == Cumulative(s, p, exp, params'[j], x)
    {
      assert Cumulative(s, p, exp, params'[j], x) == Cumulative(s, p, exp, params'[j], x - 1) + Annual(s, p, exp, params'[j], x);
    }
    assert EmissionRow(p.calcYear + x, columns) == Row(s, p, exp, params', x);
  }

  /**
    The inner loop for year x: the lookups of each material in turn, its
    annual methane added to its running total, and its two columns. The
    dictionary `methane_totals`, keyed by the materials, is the sequence of
    totals in material order.
  */
  method MaterialColumnsOfYear(s: Settings, p: Prepared, exp: real -> real, column: Label, x: int, totals: seq<real>)
    returns (r: Result<(seq<MaterialColumns>, seq<real>)>)
    requires |totals| == |p.materials|
    ensures r.Err? ==> Checks(p, column, p.materials) == Err(r.error)
    ensures r.Ok? ==> Checks(p, column, p.materials).Ok?
    ensures r.Ok? ==>
      var params := Checks(p, column, p.materials).value;
      && |r.value.0| == |p.materials| && |r.value.1| == |p.materials|
      && forall j :: 0 <= j < |p.materials| ==>
           && r.value.1[j] == totals[j] + Annual(s, p, exp, params[j], x)
           && r.value.0[j] == MaterialColumns(p.materials[j], Annual(s, p, exp, params[j], x), r.value.1[j])
  {
    var materials := p.materials;
    var current := totals;
    var columns: seq<MaterialColumns> := [];
    ghost var params: seq<MaterialParameters> := [];
    var j := 0;
    while j < |materials|
      invariant 0 <= j <= |materials|
      invariant Checks(p, column, materials[..j]) == Ok(params)
      invariant YearSoFar(s, p, exp, x, totals, params, columns, current, j)
    {
      var material := materials[j];
      var step := MaterialStep(s, p, exp, column, x, material);
      if step.Err? {
        ChecksExtend(p, column, materials, j, params);
        ChecksStopAtError(p, column, materials, j + 1);
        return Err(step.error);
      }
      var (annual, parameters) := step.value;
      ChecksExtend(p, column, materials, j, params);
      ColumnStep(s, p, exp, x, totals, params, columns, current, j, annual, parameters);
      current := current[j := current[j] + annual];
      columns := columns + [MaterialColumns(material, annual, current[j])];
      params := params + [parameters];
      j := j + 1;
    }
    assert materials[..j] == materials;
    return Ok((columns, current));
  }

  /** The state of the inner loop after the first j materials of year x. */
  ghost predicate YearSoFar(s: Settings, p: Prepared, exp: real -> real, x: int, totals: seq<real>,
                            params: seq<MaterialParameters>, columns: seq<MaterialColumns>, current: seq<real>, j: nat)
  {
    && j <= |p.materials| == |totals| == |current|
    && |params| == j && |columns| == j
    && (forall i :: 0 <= i < j ==>
          && current[i] == totals[i] + Annual(s, p, exp, params[i], x)
          && columns[i] == MaterialColumns(p.materials[i], Annual(s, p, exp, params[i], x), current[i]))
    && (forall i :: j <= i < |p.materials| ==> current[i] == totals[i])
  }

  /** One more material passed: its check joins the checks of the ones before. */
  lemma ChecksExtend(p: Prepared, column: Label, materials: seq<string>, j: nat, params: seq<MaterialParameters>)
    requires j < |materials| && Checks(p, column, materials[..j]) == Ok(params)
    ensures MaterialCheck(p, column, materials[j]).Ok? ==>
      Checks(p, column, materials[..j + 1]) == Ok(params + [MaterialCheck(p, column, materials[j]).value])
    ensures MaterialCheck(p, column, materials[j]).Err? ==>
      Checks(p, column, materials[..j + 1]) == Err(MaterialCheck(p, column, materials[j]).error)
  {
    assert materials[..j + 1][..j] == materials[..j];
  }

  /** One pass of the inner loop keeps its invariant. */
  lemma ColumnStep(s: Settings, p: Prepared, exp: real -> real, x: int, totals: seq<real>,
                   params: seq<MaterialParameters>, columns: seq<MaterialColumns>, current: seq<real>, j: nat,
                   annual: real, parameters: MaterialParameters)
    requires YearSoFar(s, p, exp, x, totals, params, columns, current, j) && j < |p.materials|
    requires annual == Annual(s, p, exp, parameters, x)
    ensures var current' := current[j := current[j] + annual];
      YearSoFar(s, p, exp, x, totals, params + [parameters],
                columns + [MaterialColumns(p.materials[j], annual, current'[j])], current', j + 1)
  {
  }

  /**
    The loop body for one material: its lookups in the script's order, its
    annual methane, and the captured share, which the script computes and
    does not use.
  */
  method MaterialStep(s: Settings, p: Prepared, exp: real -> real, column: Label, x: int, material: string)
    returns (r: Result<(real, MaterialParameters)>)
    ensures r.Err? ==> MaterialCheck(p, column, material) == Err(r.error)
    ensures r.Ok? ==> MaterialCheck(p, column, material) == Ok(r.value.1)
    ensures r.Ok? ==> r.value.0 == Annual(s, p, exp, r.value.1, x)
  {
    var ratio := LocFirst(p.ratios, material);
    if ratio.Err? {
      return Err(ratio.error);
    }
    var waste := Acceptance(p.subset, p.calcYear + x);
    var k := LocFirst(p.decayRates, material);
    if k.Err? {
      return Err(k.error);
    }
    var annual := ratio.value * (waste * GenerationFactor(s, exp, k.value, p.t, x));
    var gas := GasCollectionEfficiencyAt(p.materialHeader, p.materialRows, column, material);
    if gas.Err? {
      return Err(gas.error);
    }
    var yearly := YearlyEfficiency(p.yearlyRows, x);
    var captured := annual * gas.value * yearly;
    return Ok((annual, MaterialParameters(ratio.value, k.value)));
  }

  /** The checks of a list pass exactly when the check of each material passes. */
  lemma {:induction false} ChecksOk(p: Prepared, column: Label, ms: seq<string>)
    ensures Checks(p, column, ms).Ok? <==> forall i :: 0 <= i < |ms| ==> MaterialCheck(p, column, ms[i]).Ok?
    decreases |ms|
  {
    if ms != [] {
      var before := ms[..|ms| - 1];
      ChecksOk(p, column, before);
      assert forall i :: 0 <= i < |before| ==> before[i] == ms[i];
    }
  }

  /** What a completed preparation has established about the method file and the tables. */
  lemma PrepareOk(s: Settings, tables: Tables)
    requires Prepare(s, tables).Ok?
    ensures var p := Prepare(s, tables).value;
      && (s.defaultKValues == Some("IPCC") || s.defaultKValues == Some("Barlaz"))
      && s.materialDecayRates == Some(p.decayRates)
      && s.landfillLife == Some(p.t)
      && s.moistureConditions == Some(ConditionName(p.condition))
      && p.calcYear == CalcYear(s.calcYear, s.landfillClose)
      && p.materials == Keys(s.materialRatios) && p.ratios == s.materialRatios
      && (forall row :: row in p.subset ==> row.0 <= p.calcYear - 1)
      && (forall c :: c in p.materialHeader ==> c in tables.materialHeader && c !in OtherConditions(p.condition))
      && (forall row :: row in p.materialRows <==> row in tables.materialRows && KeepScenario(s.lfgCollectionScenario, row.scenario))
      && (forall row :: row in p.yearlyRows <==> row in tables.yearlyRows && KeepScenario(s.lfgCollectionScenario, row.scenario))
  {
  }

  /** A decay-rate source other than IPCC or Barlaz stops the script before anything else is read. */
  lemma UnknownSourceStopsFirst(s: Settings, tables: Tables, exp: real -> real)
    requires s.defaultKValues != Some("IPCC") && s.defaultKValues != Some("Barlaz")
    ensures Run(s, tables, exp) == Err(UnboundLocalError)
    ensures RunAsWritten(s, tables, exp) == Err(UnboundLocalError)
  {
  }

  /** As written, the label 3 is never a column, so every call of the lookup is a KeyError. */
  lemma GasLookupAsWrittenIsKeyError(header: seq<string>, rows: seq<MaterialEfficiencyRow>, material: string)
    ensures GasCollectionEfficiencyAt(header, rows, ColumnAsWritten, material) == Err(KeyError)
  {
  }

  /** The ratio of a listed material is always found: the materials are the keys of the ratio table. */
  lemma RatioFound(s: Settings, tables: Tables, i: nat)
    requires Prepare(s, tables).Ok?
    requires i < |Prepare(s, tables).value.materials|
    ensures LocFirst(Prepare(s, tables).value.ratios, Prepare(s, tables).value.materials[i]).Ok?
  {
    PrepareOk(s, tables);
    LocFirstOfKey(s.materialRatios, i);
  }

  /**
    As written, a script that reaches the loop with at least one year and one
    material always fails, on the first material: with an IndexError when it
    has no decay rate, and otherwise with the KeyError of the column lookup.
  */
  lemma AsWrittenAlwaysFails(s: Settings, tables: Tables, exp: real -> real)
    requires Prepare(s, tables).Ok?
    requires Prepare(s, tables).value.t > 0 && s.materialRatios != []
    ensures RunAsWritten(s, tables, exp)
         == Err(if LocFirst(Prepare(s, tables).value.decayRates, s.materialRatios[0].0).Err? then IndexError else KeyError)
  {
    var p := Prepare(s, tables).value;
    PrepareOk(s, tables);
    var ms := p.materials;
    RatioFound(s, tables, 0);
    assert ms[..1][..0] == [];
    assert MaterialCheck(p, ColumnAsWritten, ms[0]).Err?;
    ChecksStopAtError(p, ColumnAsWritten, ms, 1);
  }

  /**
    With the lookup corrected, a prepared script fails only for missing data:
    it completes exactly when there is no year to compute, or every material
    has a decay rate and the efficiency table kept the moisture column.
  */
  lemma RunFailsOnlyOnMissingData(s: Settings, tables: Tables, exp: real -> real)
    requires Prepare(s, tables).Ok?
    ensures var p := Prepare(s, tables).value;
      Run(s, tables, exp).Ok?
      <==> p.t <= 0
           || forall i :: 0 <= i < |p.materials| ==>
                LocFirst(p.decayRates, p.materials[i]).Ok? && ConditionName(p.condition) in p.materialHeader
  {
    var p := Prepare(s, tables).value;
    var column := ConditionLabel(p);
    ChecksOk(p, column, p.materials);
    ParseConditionName(p.condition);
    forall i | 0 <= i < |p.materials|
      ensures MaterialCheck(p, column, p.materials[i]).Ok?
          <==> LocFirst(p.decayRates, p.materials[i]).Ok? && ConditionName(p.condition) in p.materialHeader
    {
      RatioFound(s, tables, i);
    }
  }

  /** No waste is accepted in any year from `calc_year` on, as the loop sees the table. */
  ghost predicate NoWasteFrom(p: Prepared) {
    forall year :: year >= p.calcYear ==> Acceptance(p.subset, year) == 0.0
  }

  /**
    The subset stops at `calc_year - 1` while the loop asks for the waste of
    `calc_year + x`, x >= 0: every lookup the loop makes finds none.
  */
  lemma PreparedHasNoLoopWaste(s: Settings, tables: Tables)
    requires Prepare(s, tables).Ok?
    ensures NoWasteFrom(Prepare(s, tables).value)
  {
  }

  lemma {:induction false} CumulativeZero(s: Settings, p: Prepared, exp: real -> real, m: MaterialParameters, x: int)
    requires NoWasteFrom(p)
    ensures Cumulative(s, p, exp, m, x) == 0.0
    decreases x
  {
    if x >= 0 {
      CumulativeZero(s, p, exp, m, x - 1);
      assert Acceptance(p.subset, p.calcYear + x) == 0.0;
    }
  }

  /**
    The rows of the loop: one per year x in [0, T), the year `calc_year + x`,
    the materials in order, and each total the previous row's total plus this
    row's annual value.
  */
  lemma RunningTotals(s: Settings, p: Prepared, exp: real -> real, column: Label)
    requires Emissions(s, p, exp, column).Ok?
    ensures var rows := Emissions(s, p, exp, column).value;
      && |rows| == (if p.t <= 0 then 0 else p.t)
      && forall x :: 0 <= x < |rows| ==>
           && rows[x].year == p.calcYear + x
           && |rows[x].columns| == |p.materials|
           && forall j :: 0 <= j < |p.materials| ==>
                && rows[x].columns[j].material == p.materials[j]
                && rows[x].columns[j].total == (if x == 0 then 0.0 else rows[x - 1].columns[j].total) + rows[x].columns[j].annual
  {
    var rows := Emissions(s, p, exp, column).value;
    if p.t > 0 {
      var params := Checks(p, column, p.materials).value;
      assert rows == seq(p.t, x requires 0 <= x < p.t => Row(s, p, exp, params, x));
      forall x | 0 <= x < |rows|
        ensures rows[x].year == p.calcYear + x
        ensures |rows[x].columns| == |p.materials|
        ensures forall j :: 0 <= j < |p.materials| ==>
                && rows[x].columns[j].material == p.materials[j]
                && rows[x].columns[j].total == (if x == 0 then 0.0 else rows[x - 1].columns[j].total) + rows[x].columns[j].annual
      {
        RowTotals(s, p, exp, params, x);
      }
    }
  }

  /** The totals of a row are those of the previous row plus its annual values. */
  lemma RowTotals(s: Settings, p: Prepared, exp: real -> real, params: seq<MaterialParameters>, x: int)
    requires |params| == |p.materials| && x >= 0
    ensures var row := Row(s, p, exp, params, x);
      && row.year == p.calcYear + x
      && |row.columns| == |p.materials|
      && forall j :: 0 <= j < |p.materials| ==>
           && row.columns[j].material == p.materials[j]
           && row.columns[j].total
              == (if x == 0 then 0.0 else Row(s, p, exp, params, x - 1).columns[j].total) + row.columns[j].annual
  {
  }

  /**
    Whatever the method file says, every annual and every cumulative methane
    value the script can produce is 0.
  */
  lemma AllMethaneZero(s: Settings, tables: Tables, exp: real -> real)
    requires Run(s, tables, exp).Ok?
    ensures var rows := Run(s, tables, exp).value.rows;
      forall x, j :: 0 <= x < |rows| && 0 <= j < |rows[x].columns| ==>
        rows[x].columns[j].annual == 0.0 && rows[x].columns[j].total == 0.0
  {
    var p := Prepare(s, tables).value;
    PreparedHasNoLoopWaste(s, tables);
    if p.t > 0 {
      var params := Checks(p, ConditionLabel(p), p.materials).value;
      forall j | 0 <= j < |params|, x | 0 <= x < p.t
        ensures Annual(s, p, exp, params[j], x) == 0.0 && Cumulative(s, p, exp, params[j], x) == 0.0
      {
        assert Acceptance(p.subset, p.calcYear + x) == 0.0;
        CumulativeZero(s, p, exp, params[j], x);
      }
    }
  }
}
