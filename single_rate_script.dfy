/**
  The package's single-rate draft script: one decay constant `k`, the
  waste-acceptance series expanded by year, a capacity check on the waste
  accepted before the calculation year, and a running methane total over the
  years from `landfill_open` up to the calculation year. The YAML file it
  reads becomes the `Settings` value; `exp` is a parameter.
*/
module SingleRateScript {
  import opened Wrappers
  import opened YearRanges
  import opened WasteRates
  import opened Validation

  /** The keys of the method file the script reads. */
  datatype Settings = Settings(
    wasteAcceptanceRate: seq<(Key, real)>,
    landfillOpen: int,
    landfillCapacity: real,
    degradableOrganicCarbon: real,
    degradableOrganicCarbonFraction: real,
    k: real,
    methaneCorrectionFactor: real,
    methaneContent: real,
    calcYear: Option<int>,
    landfillClose: Option<int>)

  /**
    `calc_year` when present, else `landfill_close`; with neither the script
    only prints an error and the name stays unbound, so its first use raises NameError.
  */
  function CalcYear(calcYear: Option<int>, landfillClose: Option<int>): Result<int> {
    if calcYear.Some? then Ok(calcYear.value)
    else if landfillClose.Some? then Ok(landfillClose.value)
    else Err(NameError)
  }

  /** Everything the annual term multiplies the accepted waste by. */
  function GenerationFactor(s: Settings, exp: real -> real, t: int, x: int): real {
    s.methaneCorrectionFactor
    * s.degradableOrganicCarbon
    * s.degradableOrganicCarbonFraction
    * s.methaneContent
    * 16.0 / 12.0
    * (exp(-s.k * (t - x - 1) as real) - exp(-s.k * (t - x) as real))
  }

  /** The methane generated by the waste of year `landfill_open + x`, with horizon `t`. */
  function AnnualTerm(s: Settings, exp: real -> real, rows: Rows, t: int, x: int): real {
    Acceptance(rows, s.landfillOpen + x) * GenerationFactor(s, exp, t, x)
  }

  /** The sum of the annual terms for x in [0, n). */
  function MethaneTotal(s: Settings, exp: real -> real, rows: Rows, t: int, n: int): real
    decreases n
  {
    if n <= 0 then 0.0 else MethaneTotal(s, exp, rows, t, n - 1) + AnnualTerm(s, exp, rows, t, n - 1)
  }

  /** What the script computes, or the exception that stops it. */
  function Run(s: Settings, exp: real -> real): Result<real> {
    var calcYear :- CalcYear(s.calcYear, s.landfillClose);
    var split :- Expand(s.wasteAcceptanceRate, DashInKey);
    var rows :- YearRows(split);
    RunFrom(s, exp, calcYear, rows)
  }

  /** The script after the waste table is built: the capacity and rate checks, then the total. */
  function RunFrom(s: Settings, exp: real -> real, calcYear: int, rows: Rows): Result<real> {
    var t := calcYear - s.landfillOpen;
    var subset := Subset(rows, calcYear - 1);
    var capacity :- CheckIfLandfillIsFull(TotalRate(subset), s.landfillCapacity);
    var k :- CheckK(s.k);
    Ok(MethaneTotal(s, exp, subset, t, t))
  }

  /** The script from the horizon to the final total, with its accumulation loop. */
  method RunScript(s: Settings, exp: real -> real) returns (r: Result<real>)
    ensures r == Run(s, exp)
  {
    var calcYear: int;
    if s.calcYear.Some? {
      calcYear := s.calcYear.value;
    } else if s.landfillClose.Some? {
      calcYear := s.landfillClose.value;
    } else {
      return Err(NameError);
    }
    var split := ExpandRanges(s.wasteAcceptanceRate, DashInKey);
    if split.Err? {
      return Err(split.error);
    }
    var rows := YearRows(split.value);
    if rows.Err? {
      return Err(rows.error);
    }
    r := RunFromScript(s, exp, calcYear, rows.value);
  }

  /** The checks and the accumulation loop over the expanded table. */
  method RunFromScript(s: Settings, exp: real -> real, calcYear: int, rows: Rows) returns (r: Result<real>)
    ensures r == RunFrom(s, exp, calcYear, rows)
  {
    var t := calcYear - s.landfillOpen;
    var subset := Subset(rows, calcYear - 1);
    var currentCapacity := TotalRate(subset);
    var full := CheckIfLandfillIsFull(currentCapacity, s.landfillCapacity);
    if full.Err? {
      return Err(full.error);
    }
    var k := CheckK(s.k);
    if k.Err? {
      return Err(k.error);
    }
    var methaneTotal := Accumulate(s, exp, subset, t);
    return Ok(methaneTotal);
  }

  /** `for x in range(0, T): methane_total += methane_annual` */
  method Accumulate(s: Settings, exp: real -> real, subset: Rows, t: int) returns (methaneTotal: real)
    ensures methaneTotal == MethaneTotal(s, exp, subset, t, t)
  {
    methaneTotal := 0.0;
    var x := 0;
    while x < t
      invariant 0 <= x <= if t < 0 then 0 else t
      invariant methaneTotal == MethaneTotal(s, exp, subset, t, x)
    {
      var methaneAnnual := AnnualTerm(s, exp, subset, t, x);
      methaneTotal := methaneTotal + methaneAnnual;
      x := x + 1;
    }
  }

  /** A run that completes has passed both checks. */
  lemma RunPassedChecks(s: Settings, exp: real -> real)
    requires Run(s, exp).Ok?
    ensures 0.0 < s.k < 0.5
    ensures s.calcYear.Some? || s.landfillClose.Some?
    ensures var c := CalcYear(s.calcYear, s.landfillClose).value;
            var rows := YearRows(Expand(s.wasteAcceptanceRate, DashInKey).value).value;
            0.0 < TotalRate(Subset(rows, c - 1)) < s.landfillCapacity
  {
  }

  /** A year that accepted no waste contributes nothing to the total. */
  lemma NoWasteNoTerm(s: Settings, exp: real -> real, rows: Rows, t: int, x: int)
    requires Acceptance(rows, s.landfillOpen + x) == 0.0
    ensures AnnualTerm(s, exp, rows, t, x) == 0.0
  {
  }

  /**
    The subset never hides a year the loop asks for: every lookup year
    `landfill_open + x` with x < t is before the calculation year, so the total
    over the subset equals the total over the whole expanded table.
  */
  lemma {:induction false} SubsetKeepsLoopYears(s: Settings, exp: real -> real, rows: Rows, calcYear: int, n: int)
    requires n <= calcYear - s.landfillOpen
    ensures MethaneTotal(s, exp, Subset(rows, calcYear - 1), calcYear - s.landfillOpen, n)
         == MethaneTotal(s, exp, rows, calcYear - s.landfillOpen, n)
  {
    var t := calcYear - s.landfillOpen;
    var subset := Subset(rows, calcYear - 1);
    if n > 0 {
      SubsetKeepsLoopYears(s, exp, rows, calcYear, n - 1);
      SubsetKeepsTerm(s, exp, rows, calcYear, n - 1);
      assert MethaneTotal(s, exp, subset, t, n) == MethaneTotal(s, exp, subset, t, n - 1) + AnnualTerm(s, exp, subset, t, n - 1);
      assert MethaneTotal(s, exp, rows, t, n) == MethaneTotal(s, exp, rows, t, n - 1) + AnnualTerm(s, exp, rows, t, n - 1);
    } else {
      assert MethaneTotal(s, exp, subset, t, n) == 0.0 == MethaneTotal(s, exp, rows, t, n);
    }
  }

  /** The annual term of a year before the calculation year is the same over the subset. */
  lemma SubsetKeepsTerm(s: Settings, exp: real -> real, rows: Rows, calcYear: int, x: int)
    requires x < calcYear - s.landfillOpen
    ensures AnnualTerm(s, exp, Subset(rows, calcYear - 1), calcYear - s.landfillOpen, x)
         == AnnualTerm(s, exp, rows, calcYear - s.landfillOpen, x)
  {
    SubsetAcceptance(rows, calcYear - 1, s.landfillOpen + x);
  }

  /** When no year in [landfill_open, landfill_open + n) accepted waste, the total is 0. */
  lemma {:induction false} NoWasteNoMethane(s: Settings, exp: real -> real, rows: Rows, t: int, n: int)
    requires forall year :: s.landfillOpen <= year < s.landfillOpen + n ==> Acceptance(rows, year) == 0.0
    ensures MethaneTotal(s, exp, rows, t, n) == 0.0
  {
    if n > 0 {
      NoWasteNoMethane(s, exp, rows, t, n - 1);
      assert Acceptance(rows, s.landfillOpen + (n - 1)) == 0.0;
      NoWasteNoTerm(s, exp, rows, t, n - 1);
    }
  }
}
