# lfg-calc-py in Dafny

A Dafny model of the landfill-gas (LFG) calculator `lfg_calc_py`. The calculator estimates the methane a landfill generates, captures and emits. It works year by year and material by material, from a method file that gives:

- the waste accepted per year, or per year range such as `"2000-2002"`;
- the share of each material in the waste;
- decay rates;
- collection-efficiency schedules;
- the IPCC first-order-decay parameters.

The model covers these parts of the calculator:

- **`LfgEngine`**: the `LFG` class.
  - Its constructor cleans a data frame against a field list and puts the listed columns first.
  - `CalculateLfgEmissions` builds the emissions table:
    - every (operation year, waste-input year) pair of the landfill's life;
    - the first-order-decay generation of each material;
    - an inner merge with the collection-efficiency schedule, which is flat after year 15;
    - sums of generated and captured methane per year;
    - the emitted methane net of oxidation;
    - an outer merge of the per-material tables.
  - The class's lookups are modelled as well: decay rate, material ratio and yearly efficiency.
- **`ColumnLabels`**: the column labels of that outer merge. Shared columns other than the keys get pandas' `_x` and `_y` suffixes, and a duplicate label made by a suffix raises. This is where the merge as written fails (see Findings).
- **`Orchestrator`**: the two `get_lfg_df` class methods. Each tries "import local", then "download" (WARM copy only), then "generate". It stops at the first attempt that loads a frame or raises. An exception propagates; otherwise what it found is wrapped in a new `LFG`.
- **`YamlLoader`** and **`Common`**: the method-file loader and `load_yaml_dict`.
  - The loader's `!include:<file>:<key>...` tag is searched for in an ordered list of folders, narrowed by its key path, and merged with the tagged node: a mapping updates, a sequence extends.
  - `load_yaml_dict` strips a `_v<digit>...` version marker from the file name and maps a missing file to `KeyError`.
- **`YearRanges`**, **`Text`**, **`WasteRates`**: the shared pieces. They cover the expansion of year-range keys into one entry per year, the year-keyed waste table, its subset up to a year, and the capacity total.
- **`WarmScript`** and **`WarmTables`**: the WARM-style draft script and its efficiency tables. This script computes one row per year with the annual and cumulative methane of every material.
- **`SingleRateScript`**: the single-rate IPCC script, `lfg_calc_py/landfill_script.py`.
- **`LandGemScript`**: the LandGEM script at the repository root, `landfill_script.py`, with its ten 0.1-year sub-steps per year.
- **`Validation`**: the capacity check and the decay-constant check.

Python exceptions are values of `Wrappers.Result`, and the model names the exception each path raises. `exp` is a parameter of type `real -> real`. File and CSV contents, and the callables that download or generate data, are parameters as well. Wherever the source has a loop, there is a method with loop invariants proved equal to the function that specifies it:

- `PrepareScript`
- `MaterialLoop`
- `RunAttempts`
- `FindFolder`, `NarrowScript`, `UpdateScript`, `IncludeScript`
- `ExpandRanges`, `ExpandItem`
- `CalculateEmissions`
- `Accumulate`, `AnnualSum`

Behaviour of the code worth noting:

- The package engine multiplies by `methane_fraction`. The WARM script multiplies by `methane_correction_factor`.
- The WARM script subsets the waste table to years before `calc_year`, but looks up waste at `calc_year + x`. Every value it computes is therefore zero (`WarmScript.AllMethaneZero`).
- The single-rate and LandGEM scripts only print a message when neither `calc_year` nor `landfill_close` is given. The next statement then raises `NameError`.
- The LandGEM script's capacity check includes the waste of `calc_year` itself (`LandGemScript.CapacityIncludesCalcYear`). The other scripts stop at `calc_year - 1`.
- The package's `get_lfg_df` ignores `download_ok`. Its attempt list is always "import local" then "generate".
- `year_init` is the year of the first key in the method file, not the least year (`LfgEngine.YearInitIsFirstKeyNotLeast`).

## Model

| member | source | states |
|---|---|---|
| Validation.CheckIfLandfillIsFull | lfg_calc_py/validation.py:7-11 | passes the capacity through exactly when it is strictly between 0 and the landfill capacity, else ValueError |
| Validation.CheckK | lfg_calc_py/landfill_script.py:73-77 | passes k through exactly when 0 < k < 0.5, else ValueError |
| Text.NatToString | lfg_calc_py/lfg_calc_py.py:360 | `str(year)` is a non-empty string of decimal digits |
| Text.ParseNatOfString | lfg_calc_py/lfg_calc_py.py:358 | `int` of `str(n)` gives back n |
| Text.NatToStringInjective | lfg_calc_py/lfg_calc_py.py:360 | distinct years give distinct keys in the expanded dictionary |
| Text.NatToStringCanonical | lfg_calc_py/lfg_calc_py.py:381 | the year strings written by the expansion have no leading zero, so `astype(int)` reads each one back as the year that wrote it |
| Text.FirstIndex | lfg_calc_py/lfg_calc_py.py:358 | the position of the first separator: every earlier character differs from it |
| Text.RangeRoundTrip | lfg_calc_py/lfg_calc_py.py:357-358 | splitting `"y1-y2"` on the dash gives back the two years |
| YearRanges.GetPut | lfg_calc_py/lfg_calc_py.py:360 | after `d[k] = v` the key k reads v and every other key reads what it read before |
| YearRanges.PutKeepsDistinct | lfg_calc_py/lfg_calc_py.py:360 | assigning into a dict keeps its keys distinct, and adds no key but k |
| YearRanges.GetPutAll | lfg_calc_py/lfg_calc_py.py:359-360 | after writing one value for every year of a range, each of those keys reads that value and every other key is unchanged |
| YearRanges.PutAllKeepsDistinct | lfg_calc_py/lfg_calc_py.py:359-360 | writing a range keeps the dict's keys distinct |
| YearRanges.YearStrings | lfg_calc_py/lfg_calc_py.py:359 | `range(y1, y2 + 1)` has y2 - y1 + 1 years, or none when y2 < y1 |
| YearRanges.YearStringsCover | lfg_calc_py/lfg_calc_py.py:359-360 | a year is written by a range exactly when y1 <= year <= y2 |
| YearRanges.YearStringsCanonical | lfg_calc_py/lfg_calc_py.py:359-360 | every key a range writes is a canonical decimal |
| YearRanges.ExpandRanges | lfg_calc_py/lfg_calc_py.py:355-363 | the loop over the method file's entries computes the expanded dictionary, stopping at the first entry that raises |
| YearRanges.ExpandItem | lfg_calc_py/lfg_calc_py.py:357-363 | one entry's writes: every year of a range, or `str(key)` for a single key |
| YearRanges.ExpandStopsAtError | lfg_calc_py/lfg_calc_py.py:355-363 | an entry that raises ends the expansion with its error, whatever entries follow |
| YearRanges.ExpandLastWriteWins | lfg_calc_py/lfg_calc_py.py:355-363 | each year of the expanded dict holds the value of the last entry that wrote it |
| YearRanges.ExpandDistinct | lfg_calc_py/lfg_calc_py.py:355-363 | the expanded dict has distinct keys |
| YearRanges.RangeKeyWritesEveryYear | lfg_calc_py/lfg_calc_py.py:357-360 | a `"y1-y2"` key is accepted and writes exactly the years y1..y2 |
| YearRanges.ExpandFirstKey | lfg_calc_py/lfg_calc_py.py:385 | the expanded dict's first key is the first year written by the method file's first entry |
| YearRanges.ExpandExample | lfg_calc_py/lfg_calc_py.py:355-363 | `{"2000-2002": 10}` expands to the years 2000, 2001 and 2002, each with 10 |
| YearRanges.YearRows | lfg_calc_py/lfg_calc_py.py:376-382 | the table made from the dict has one row per key |
| YearRanges.YearRowsLookup | lfg_calc_py/lfg_calc_py.py:257-260 | when keys are canonical, looking year y up in the integer-year table gives the dict's value at `str(y)` |
| YearRanges.ExpandKeysCanonical | lfg_calc_py/lfg_calc_py.py:355-363 | when the method file's single keys are canonical, so is every key of the expanded dict |
| YearRanges.ExpandedYearLookup | lfg_calc_py/lfg_calc_py.py:257-260 | the waste looked up for a year is the value of the last method-file entry covering that year |
| YearRanges.MaterialItems | lfg_calc_py/lfg_calc_py.py:365 | every material ratio is expanded entry by entry, under its own key |
| YearRanges.Keys | lfg_calc_py/lfg_calc_py.py:403 | the material list is the ratio dict's keys, in order |
| YearRanges.LocFirst | lfg_calc_py/lfg_calc_py.py:294-295 | `.loc[...].values[0]` succeeds exactly when the key is present and gives the dict's value; otherwise IndexError |
| YearRanges.LocFirstOfKey | lfg_calc_py/lfg_calc_py.py:294-295 | every material listed in the ratio dict finds its ratio |
| WasteRates.SubsetRows | lfg_calc_py/lfg_calc_py.py:400 | a row survives the subset exactly when it is in the table and its year is at most the bound |
| WasteRates.SubsetAcceptance | lfg_calc_py/lfg_calc_py.py:257-262 | the waste of a year in the subset is the table's when the year is within the bound, and 0 otherwise |
| WasteRates.InclusiveSubsetTotal | landfill_script.py:48-51 | a subset up to and including c totals the waste up to c - 1 plus the waste of year c |
| WasteRates.TotalRateAppend | lfg_calc_py/landfill_script.py:61 | the capacity sum of two tables put together is the sum of their sums |
| LfgEngine.LoadDefaultDecayRates | lfg_calc_py/lfg_calc_py.py:233-243 | only the "Barlaz" source loads a table; any other source leaves `path` unbound and raises UnboundLocalError |
| LfgEngine.RowsForMoisture | lfg_calc_py/lfg_calc_py.py:277-281 | the query keeps exactly the rows of the configured moisture condition |
| LfgEngine.FirstDecayRate | lfg_calc_py/lfg_calc_py.py:282-283 | a decay rate exists exactly when some row is for the material; otherwise IndexError |
| LfgEngine.DecayRatePrecedence | lfg_calc_py/lfg_calc_py.py:264-283 | configured decay rates take precedence and ignore the default source; without them, a non-Barlaz source is UnboundLocalError and the Barlaz table succeeds exactly when it has a row for the material under the configured moisture |
| LfgEngine.FirstEfficiency | lfg_calc_py/lfg_calc_py.py:332-333 | an efficiency exists exactly when some row has the year, and it is that first row's; otherwise IndexError |
| LfgEngine.AnnualEfficiency | lfg_calc_py/lfg_calc_py.py:315-337 | up to year 15, the first row listed for that year; every year after 15 uses the year-15 efficiency; IndexError exactly when the year looked up has no row |
| LfgEngine.ScenarioRows | lfg_calc_py/lfg_calc_py.py:413-417 | the query keeps exactly the rows of the configured collection scenario |
| LfgEngine.ScheduleOf | lfg_calc_py/lfg_calc_py.py:428-431 | the scenario rows, one for one, with the year renamed to the operation year |
| LfgEngine.AddedYears | lfg_calc_py/lfg_calc_py.py:420-426 | one row per year 16..lifespan, each with the year-15 efficiency |
| LfgEngine.EfficienciesForAppend | lfg_calc_py/lfg_calc_py.py:428-429 | the efficiencies a year matches in the concatenated schedule are those of each part, in order |
| LfgEngine.AddedYearsEfficiencies | lfg_calc_py/lfg_calc_py.py:420-426 | an added year matches exactly one efficiency, the year-15 one, when 16 <= y <= lifespan, and none otherwise |
| LfgEngine.ScheduleFlatAfter15 | lfg_calc_py/lfg_calc_py.py:413-431 | a schedule that builds needs a lifespan; a year's efficiencies are the scenario table's for that year, plus the year-15 value for 16..lifespan |
| LfgEngine.GridShape | lfg_calc_py/lfg_calc_py.py:436-449 | every row of the exploded grid has operation year below T; its input index is below the operation year, or missing only for operation year 0 |
| LfgEngine.GridComplete | lfg_calc_py/lfg_calc_py.py:436-449 | every (operation year, earlier input year) pair is in the grid, and so is the empty row for year 0 |
| LfgEngine.FactorsOf | lfg_calc_py/lfg_calc_py.py:436-477 | on a non-empty grid (T > 0) the four configured factors are all present, or the multiplication by None raises TypeError; over the empty grid of T <= 0 a missing factor raises nothing; present factors are used as configured |
| LfgEngine.VintageGenerations | lfg_calc_py/lfg_calc_py.py:461-477 | one generation value per grid row of the operation year |
| LfgEngine.MergedSums | lfg_calc_py/lfg_calc_py.py:479-489 | after the inner merge, summed generation is the vintage sum times the number of matched efficiencies, and summed capture is that sum times the sum of the efficiencies |
| LfgEngine.KeptYears | lfg_calc_py/lfg_calc_py.py:479-489 | every year kept by the inner merge is an operation year below T |
| LfgEngine.KeptYearsMembers | lfg_calc_py/lfg_calc_py.py:479-489 | an operation year survives the inner merge exactly when it is below T and the schedule has it |
| LfgEngine.KeptYearsAscending | lfg_calc_py/lfg_calc_py.py:488-489 | the group-by lists the kept years in ascending order |
| LfgEngine.CalcYear | lfg_calc_py/lfg_calc_py.py:388-394 | `calc_year` if configured, else `landfill_close`, else `year_init + landfill_lifespan`, and TypeError when the lifespan is missing too |
| LfgEngine.WasteRows | lfg_calc_py/lfg_calc_py.py:355-382 | the waste table is built only when the method file has both the waste series and the material ratios |
| LfgEngine.MaterialFrame | lfg_calc_py/lfg_calc_py.py:455-499 | one aggregated row per year kept by the merge |
| LfgEngine.MaterialFrames | lfg_calc_py/lfg_calc_py.py:455-502 | one table per material, each with one row per kept year |
| LfgEngine.EmptyGridIgnoresFactors | lfg_calc_py/lfg_calc_py.py:436-499 | with T <= 0 a material succeeds exactly when its ratio, its decay rate and the oxidation fraction are found, whatever factors are missing, and its table is empty |
| LfgEngine.SummaryFrame | lfg_calc_py/lfg_calc_py.py:495-506 | Year, operation year and Unit, plus three columns per material |
| LfgEngine.MaterialColumnsFrame | lfg_calc_py/lfg_calc_py.py:495-499 | three renamed columns per material |
| LfgEngine.PrepareScript | lfg_calc_py/lfg_calc_py.py:355-431 | the statements before the material loop compute the prepared inputs, or the first exception they raise |
| LfgEngine.MaterialLoop | lfg_calc_py/lfg_calc_py.py:455-502 | the loop over materials appends each material's table, and stops at the first exception |
| LfgEngine.MaterialFramesStopAtError | lfg_calc_py/lfg_calc_py.py:455-502 | a material that raises ends the loop with its error, whatever materials follow |
| LfgEngine.LFG.constructor | lfg_calc_py/lfg_calc_py.py:35-83 | the name and config come from the arguments; the data is the frame cleaned and reordered |
| LfgEngine.LFG.CalculateLfgEmissions | lfg_calc_py/lfg_calc_py.py:340-539 | on success the data becomes the summary table of the computed emissions, merged as the code evidently intends (see Findings); an exception leaves the data as it was; name and config are unchanged |
| LfgEngine.EmissionsAsWrittenFailsFromFour | lfg_calc_py/lfg_calc_py.py:488-505 | with the merges as written, the computation raises ValueError exactly when it would otherwise succeed with four or more materials, and agrees with the intended merge everywhere else |
| ColumnLabels.ReduceFailsFromFourMaterials | lfg_calc_py/lfg_calc_py.py:488-505 | for distinct materials the reduce of merges raises ValueError exactly when there are four or more; with two or three the Scenario columns come out as Scenario_x, Scenario_y and then Scenario |
| ColumnLabels.DropMergeKeys | lfg_calc_py/lfg_calc_py.py:505 | the right frame of a merge contributes its Scenario and three material columns, not the key columns |
| ColumnLabels.FirstMerge | lfg_calc_py/lfg_calc_py.py:505 | the first merge shares only Scenario, labelled Scenario_x on the left and Scenario_y on the right, and does not raise |
| ColumnLabels.SecondMerge | lfg_calc_py/lfg_calc_py.py:505 | the second merge shares no column, so the third material's Scenario keeps its name |
| ColumnLabels.ThirdMerge | lfg_calc_py/lfg_calc_py.py:505 | the third merge renames that Scenario to a second Scenario_x and raises ValueError |
| ColumnLabels.LabelsInjective | lfg_calc_py/lfg_calc_py.py:495-499 | the renamed columns of two different materials have different labels |
| LfgEngine.EmissionsRows | lfg_calc_py/lfg_calc_py.py:488-507 | one row per kept operation year; its Year is `year_init` plus that year; every material in order; Years strictly ascending |
| LfgEngine.FramesShareKeys | lfg_calc_py/lfg_calc_py.py:505 | all material tables have the same (Year, operation year) keys row by row, so the outer merge adds no row |
| LfgEngine.OperationYearZero | lfg_calc_py/lfg_calc_py.py:442-449 | operation year 0 generates, captures and emits nothing |
| LfgEngine.NoWasteNoGeneration | lfg_calc_py/lfg_calc_py.py:461-477 | an input year with no waste generates no methane |
| LfgEngine.NoWasteNoEmissions | lfg_calc_py/lfg_calc_py.py:461-492 | with no waste in the input years before y, year y generates, captures and emits nothing |
| LfgEngine.SubsetKeepsGridYears | lfg_calc_py/lfg_calc_py.py:400 | the subset before `calc_year` loses no waste the grid asks for |
| LfgEngine.CaptureIdentity | lfg_calc_py/lfg_calc_py.py:479-492 | for a year with one efficiency e: generated is the vintage sum, captured is e times generated, and emitted is (generated - captured) times (1 - oxidation) |
| LfgEngine.EmittedScalesBack | lfg_calc_py/lfg_calc_py.py:491-492 | emitted divided by (1 - oxidation), plus captured, gives generated |
| LfgEngine.MassBalance | lfg_calc_py/lfg_calc_py.py:482-492 | for every year, generated = captured + emitted / (1 - oxidation) |
| LfgEngine.GenerationNonNegative | lfg_calc_py/lfg_calc_py.py:466-477 | non-negative inputs and a decaying exponential give non-negative generation |
| LfgEngine.Horizon | lfg_calc_py/lfg_calc_py.py:385-400 | `year_init` is the first waste year; T = calc_year - year_init; the precedence among calc_year, landfill_close and lifespan; the subset stops before calc_year |
| LfgEngine.YearInitIsFirstKeyNotLeast | lfg_calc_py/lfg_calc_py.py:385 | when the method file lists a later year first, `year_init` is that later year |
| Orchestrator.WarmAttempts | lfg_calc_py/WARM_script.py:67-68 | "import local", "download", "generate" when downloading is allowed; without the download otherwise |
| Orchestrator.AttemptResult | lfg_calc_py/lfg_calc_py.py:114-123 | an exception of the download or the generator ends the attempt; otherwise the load's frame, None or exception is its result; "import local" only loads |
| Orchestrator.CallsMade | lfg_calc_py/lfg_calc_py.py:114-123 | a download or generation that raises is the attempt's last call; otherwise the load follows it |
| Orchestrator.AttemptsMade | lfg_calc_py/lfg_calc_py.py:111-134 | every attempt before the last one made missed (None, no exception); when not all were made, the last one made raised or loaded a frame |
| Orchestrator.Found | lfg_calc_py/lfg_calc_py.py:111-134 | the loop ends with neither a frame nor an exception exactly when every attempt misses |
| Orchestrator.RunAttempts | lfg_calc_py/lfg_calc_py.py:111-134 | the loop ends with the first exception or frame, or None when every attempt misses, and its calls are exactly those of the attempts up to that one |
| Orchestrator.StopsHere | lfg_calc_py/lfg_calc_py.py:111-131 | after misses only, an attempt that raises or loads ends the loop with its own result after exactly that many attempts |
| Orchestrator.FoundIsFirst | lfg_calc_py/lfg_calc_py.py:111-131 | the result is that of the first attempt that raises or loads a frame |
| Orchestrator.AttemptsMadeIsFirst | lfg_calc_py/lfg_calc_py.py:111-131 | the loop ends after the first attempt that raises or loads |
| Orchestrator.AttemptsMadeAllMiss | lfg_calc_py/lfg_calc_py.py:111-134 | when every attempt misses, all of them are made |
| Orchestrator.GetLfgDf | lfg_calc_py/lfg_calc_py.py:92-136 | an exception of the loop propagates and no object is made; otherwise a new LFG holding the first frame loaded (or None), `full_name or ''` and `config or {}` |
| Orchestrator.PackageGeneratesOnlyAfterLocalMiss | lfg_calc_py/lfg_calc_py.py:109-124 | the generator runs exactly when the local import returns None without raising |
| Orchestrator.WarmGeneratesOnlyAfterMisses | lfg_calc_py/WARM_script.py:67-83 | the generator runs exactly when every earlier attempt misses without raising; the download runs exactly when it is allowed and the local import misses |
| Orchestrator.AllAttemptsFail | lfg_calc_py/lfg_calc_py.py:132-135 | when every attempt misses, nothing is raised, every attempt is made and the LFG holds None |
| Frames.Keep | lfg_calc_py/lfg_calc_py.py:80 | the listed columns present in the frame, in list order |
| Frames.Drop | lfg_calc_py/lfg_calc_py.py:81 | the frame's columns that are not listed |
| Frames.NullColumns | lfg_calc_py/lfg_calc_py.py:57-59 | one all-None column per field that is missing from the frame |
| Frames.NamesAppend | lfg_calc_py/lfg_calc_py.py:57-59 | the assigned columns follow the existing ones |
| Frames.AddMissingColumns | lfg_calc_py/lfg_calc_py.py:56-59 | the old columns unchanged, then every missing field as an all-None column; every field becomes a column |
| Frames.PresentFields | lfg_calc_py/lfg_calc_py.py:60-61 | exactly the fields whose column is present |
| Frames.CleanCell | lfg_calc_py/lfg_calc_py.py:63-77 | a null numeric cell becomes 0; a null spelling in an object column becomes null; anything else is unchanged |
| Frames.CleanColumn | lfg_calc_py/lfg_calc_py.py:74-77 | each cell of a listed field is cleaned by its dtype; an unlisted column is unchanged |
| Frames.CleanColumns | lfg_calc_py/lfg_calc_py.py:74-77 | every column keeps its name and position and has its cells cleaned |
| Frames.Select | lfg_calc_py/lfg_calc_py.py:80-81 | the frame's columns in the requested order |
| Frames.OrderedNames | lfg_calc_py/lfg_calc_py.py:80-81 | the same set of names as the frame |
| Frames.ReorderColumns | lfg_calc_py/lfg_calc_py.py:79-81 | the reordered frame has the same names, and only columns of the frame |
| Frames.CleanKeepsNames | lfg_calc_py/lfg_calc_py.py:74-77 | cleaning renames and drops no column |
| Frames.AddedNumericFieldIsZero | lfg_calc_py/lfg_calc_py.py:56-66 | an added int or float field is 0 in every row |
| Frames.CleanKeepsValues | lfg_calc_py/lfg_calc_py.py:63-77 | a cell that is not a null spelling is unchanged |
| Frames.KeepDistinct | lfg_calc_py/lfg_calc_py.py:80 | the listed-first part repeats no column |
| Frames.DropDistinct | lfg_calc_py/lfg_calc_py.py:81 | the rest repeats no column |
| Frames.ReorderIsPermutation | lfg_calc_py/lfg_calc_py.py:79-81 | with distinct columns, reordering is a permutation of the column names |
| Frames.ReorderPutsListedFirst | lfg_calc_py/lfg_calc_py.py:80-81 | the `column_order` names present come first, in that order |
| YamlLoader.PathJoin | lfg_calc_py/lfg_calc_py_yaml.py:30-31 | an absolute file name replaces the folder |
| YamlLoader.Split | lfg_calc_py/lfg_calc_py_yaml.py:23 | at least one piece, and no piece contains the separator |
| YamlLoader.SplitJoin | lfg_calc_py/lfg_calc_py_yaml.py:23 | joining the pieces with ':' gives back the suffix |
| YamlLoader.SuffixParts | lfg_calc_py/lfg_calc_py_yaml.py:23 | a suffix `file:k1:...:kn` splits into the file and exactly those keys |
| YamlLoader.FirstFolder | lfg_calc_py/lfg_calc_py_yaml.py:25-34 | None exactly when no folder holds the file; otherwise the first folder that holds it |
| YamlLoader.FindFolder | lfg_calc_py/lfg_calc_py_yaml.py:25-34 | the `for`-`else` search returns the first folder holding the file |
| YamlLoader.SearchOrder | lfg_calc_py/lfg_calc_py_yaml.py:25-29 | the method folder is used when no external path has the file, before the data folder |
| YamlLoader.MissingFileIsFileNotFound | lfg_calc_py/lfg_calc_py_yaml.py:33-34 | no folder holds the file: FileNotFoundError, before anything is loaded |
| YamlLoader.Narrow | lfg_calc_py/lfg_calc_py_yaml.py:39-40 | no keys leave the branch; a missing key is KeyError; indexing a non-mapping is TypeError |
| YamlLoader.NarrowScript | lfg_calc_py/lfg_calc_py_yaml.py:39-40 | the `while keys` loop computes the narrowed branch |
| YamlLoader.UpdateGet | lfg_calc_py/lfg_calc_py_yaml.py:45 | after `update`, a key of the context has the context's value, and every other key keeps its included value |
| YamlLoader.UpdateScript | lfg_calc_py/lfg_calc_py_yaml.py:45 | the key-by-key `update` gives the merged dict |
| YamlLoader.IncludeScript | lfg_calc_py/lfg_calc_py_yaml.py:22-56 | the include as run: search loop, load, key loop, then update, extend or the branch as it is |
| YamlLoader.ResolveEntriesDistinct | lfg_calc_py/lfg_calc_py_yaml.py:44 | a constructed mapping has distinct keys |
| YamlLoader.MappingHostWins | lfg_calc_py/lfg_calc_py_yaml.py:42-45 | a mapping node merged into a dict: the node's keys win, and the rest keep the included values |
| YamlLoader.SequenceHostAppends | lfg_calc_py/lfg_calc_py_yaml.py:49-52 | a sequence node merged into a list: the included items, then the node's own items, one for one |
| YamlLoader.MergeMismatch | lfg_calc_py/lfg_calc_py_yaml.py:42-56 | a mapping node on a non-dict, or a sequence node on a non-list, is TypeError; a scalar node returns the branch |
| YamlLoader.SelfIncludeNeverResolves | lfg_calc_py/lfg_calc_py_yaml.py:36-37 | a file that includes itself never resolves, however deep the recursion is allowed to go |
| YamlLoader.NewLoader | lfg_calc_py/lfg_calc_py_yaml.py:14-19 | creating a loader succeeds exactly when every constructor it registers names an attribute the class has; otherwise AttributeError |
| YamlLoader.LoadAsWrittenAlwaysFails | lfg_calc_py/lfg_calc_py_yaml.py:17 | as written, every load raises AttributeError, whatever the document |
| YamlLoader.LoadResolves | lfg_calc_py/lfg_calc_py_yaml.py:75-80 | without the dangling registration, a load is the resolved document, and a scalar loads as itself |
| Common.NoMarkerUnchanged | lfg_calc_py/common.py:19-25 | a name without a `_v<digit>` marker is unchanged |
| Common.TruncatedAtFirstMarker | lfg_calc_py/common.py:19-25 | the name is cut at its first marker, up to the end of the line |
| Common.StripVersionRoundTrip | lfg_calc_py/common.py:19-25 | `name_v<digit>...` loses exactly the version suffix |
| Common.ConfigFolder | lfg_calc_py/common.py:27-38 | without a filepath, the method folder; with one, that folder when it holds the file, else KeyError |
| Common.NotFoundAsKeyError | lfg_calc_py/common.py:42-46 | FileNotFoundError becomes KeyError; every other outcome passes through |
| Common.LoadYamlDictReads | lfg_calc_py/common.py:9-48 | the outcome is a KeyError when the folder or file is missing, else the loaded document; never a FileNotFoundError |
| Common.VersionedNameLoadsBareFile | lfg_calc_py/common.py:19-48 | a versioned name loads the same file as the bare name |
| WarmTables.ParseCondition | lfg_calc_py/WARM_script.py:284-291 | accepted exactly when it is one of the five moisture conditions; otherwise ValueError |
| WarmTables.ParseConditionName | lfg_calc_py/WARM_script.py:284-286 | each condition's name parses back to the same condition |
| WarmTables.OtherConditions | lfg_calc_py/WARM_script.py:284-287 | the four conditions other than the chosen one |
| WarmTables.DropColumns | lfg_calc_py/WARM_script.py:288-289 | succeeds exactly when every dropped name is a column, leaving the other columns; otherwise KeyError |
| WarmTables.FilterMaterialRows | lfg_calc_py/WARM_script.py:293-298 | keeps exactly the rows not of another known scenario |
| WarmTables.FilterYearlyRows | lfg_calc_py/WARM_script.py:293-300 | keeps exactly the rows not of another known scenario |
| WarmTables.KeepsChosenScenario | lfg_calc_py/WARM_script.py:295-300 | the chosen scenario's own rows are kept |
| WarmTables.ConditionColumn | lfg_calc_py/WARM_script.py:284 | a header names a condition exactly when it is one of the five |
| WarmTables.GasCollectionEfficiencyAt | lfg_calc_py/WARM_script.py:344-353 | the lookup succeeds exactly when its label is a present condition column |
| WarmTables.FirstRow | lfg_calc_py/WARM_script.py:350-351 | the first row for the material, or None exactly when there is none |
| WarmTables.YearlyEfficiency | lfg_calc_py/WARM_script.py:356-366 | the first efficiency listed for year x, and 0 when none is |
| WarmScript.CalcYear | lfg_calc_py/WARM_script.py:226-231 | `calc_year`, else `landfill_close`, else 2024 |
| WarmScript.LoadDefaultDecayRates | lfg_calc_py/WARM_script.py:205-213 | only the IPCC and Barlaz sources load; any other source raises UnboundLocalError |
| WarmScript.WasteSubset | lfg_calc_py/WARM_script.py:245-275 | every kept row is before `calc_year`, and no year from `calc_year` on has waste |
| WarmScript.WasteSubsetScript | lfg_calc_py/WARM_script.py:245-275 | the expansion loop and the subset compute the waste subset |
| WarmScript.SubsetBefore | lfg_calc_py/WARM_script.py:275 | the subset has no row, and no waste, after the bound |
| WarmScript.SelectTables | lfg_calc_py/WARM_script.py:281-303 | the decay rates and T are the method file's; the condition is the configured one; the header loses the other conditions; both tables keep exactly the scenario-filtered rows |
| WarmScript.PrepareScript | lfg_calc_py/WARM_script.py:191-303 | the statements before the loop compute the prepared inputs, or the first exception they raise |
| WarmScript.PrepareOk | lfg_calc_py/WARM_script.py:191-303 | a script that reaches the loop has a known source, the configured decay rates, T, condition and calc year; materials are the ratio keys; the subset and both tables are as selected |
| WarmScript.Checks | lfg_calc_py/WARM_script.py:385-402 | one parameter set per material |
| WarmScript.ChecksPrefix | lfg_calc_py/WARM_script.py:385 | the parameters of the first n materials are the first n parameter sets |
| WarmScript.ChecksStopAtError | lfg_calc_py/WARM_script.py:385-402 | a material that raises stops the script with its error |
| WarmScript.ChecksOk | lfg_calc_py/WARM_script.py:385-402 | the lookups pass exactly when each material's lookups pass |
| WarmScript.MaterialStep | lfg_calc_py/WARM_script.py:387-402 | one material's lookups, and its annual methane when they pass |
| WarmScript.MaterialColumnsOfYear | lfg_calc_py/WARM_script.py:384-405 | the inner loop adds each material's annual methane to its running total and writes both columns |
| WarmScript.CalculateEmissions | lfg_calc_py/WARM_script.py:377-410 | the year loop computes the specified rows, or the first exception raised |
| WarmScript.RunScript | lfg_calc_py/WARM_script.py:191-414 | the script computes its specified output |
| WarmScript.NextYear | lfg_calc_py/WARM_script.py:383-410 | appending a year's row keeps the invariant of the year loop |
| WarmScript.ChecksExtend | lfg_calc_py/WARM_script.py:385 | one more material extends the parameters, or stops with its error |
| WarmScript.ColumnStep | lfg_calc_py/WARM_script.py:403-405 | one more material keeps the invariant of the material loop |
| WarmScript.UnknownSourceStopsFirst | lfg_calc_py/WARM_script.py:205-213 | an unknown decay-rate source fails with UnboundLocalError before anything else |
| WarmScript.GasLookupAsWrittenIsKeyError | lfg_calc_py/WARM_script.py:350-352 | the `.loc[..., 3]` lookup raises KeyError, which `except IndexError` does not catch |
| WarmScript.RatioFound | lfg_calc_py/WARM_script.py:335-341 | every listed material finds its ratio |
| WarmScript.AsWrittenAlwaysFails | lfg_calc_py/WARM_script.py:383-402 | as written, a script with at least one year and one material fails on its first material: IndexError without a decay rate, otherwise KeyError |
| WarmScript.RunFailsOnlyOnMissingData | lfg_calc_py/WARM_script.py:383-402 | with the condition's own column, the loop succeeds exactly when T <= 0, or every material has a decay rate and the condition column is present |
| WarmScript.PreparedHasNoLoopWaste | lfg_calc_py/WARM_script.py:275 | the subset has no waste at any year the loop looks up |
| WarmScript.CumulativeZero | lfg_calc_py/WARM_script.py:403 | with no waste in the looked-up years, every running total is 0 |
| WarmScript.RunningTotals | lfg_calc_py/WARM_script.py:383-410 | T rows, year calc_year + x; for each material in order, the total is the previous row's total plus this year's annual value |
| WarmScript.RowTotals | lfg_calc_py/WARM_script.py:384-405 | a row's year and columns; its totals extend the previous row's |
| WarmScript.AllMethaneZero | lfg_calc_py/WARM_script.py:275 | every annual and cumulative methane value in the output is 0 |
| SingleRateScript.RunScript | lfg_calc_py/landfill_script.py:27-114 | the script computes its specified result |
| SingleRateScript.RunFromScript | lfg_calc_py/landfill_script.py:58-114 | from the waste table on, the script computes its specified result |
| SingleRateScript.Accumulate | lfg_calc_py/landfill_script.py:103-113 | the loop's total is the sum of the annual terms for x in [0, T) |
| SingleRateScript.RunPassedChecks | lfg_calc_py/landfill_script.py:27-81 | a script that finishes had calc_year or landfill_close, 0 < k < 0.5, and a capacity total strictly between 0 and the capacity |
| SingleRateScript.NoWasteNoTerm | lfg_calc_py/landfill_script.py:104-111 | a year with no waste adds nothing |
| SingleRateScript.SubsetKeepsTerm | lfg_calc_py/landfill_script.py:58 | the subset before calc_year leaves a loop year's term unchanged |
| SingleRateScript.SubsetKeepsLoopYears | lfg_calc_py/landfill_script.py:58 | the subset before calc_year leaves the loop's total unchanged |
| SingleRateScript.NoWasteNoMethane | lfg_calc_py/landfill_script.py:103-113 | no waste in the loop years gives a total of 0 |
| LandGemScript.RunScript | landfill_script.py:21-85 | the script computes its specified result |
| LandGemScript.RunFromScript | landfill_script.py:48-85 | from the waste table on, the script computes its specified result |
| LandGemScript.Accumulate | landfill_script.py:79-85 | the outer loop's total is the sum of the annual values for i in [0, n] |
| LandGemScript.AnnualSum | landfill_script.py:80-83 | the inner loop adds the ten 0.1-year sub-step terms of year i |
| LandGemScript.RunOk | landfill_script.py:21-85 | a script that finishes had calc_year or landfill_close, 0 < k < 0.5, and a capacity total strictly between 0 and the capacity; the result is the total over n + 1 years |
| LandGemScript.WasteOnlyChecked | landfill_script.py:48-85 | the waste series only gates the result: two method files that differ only in waste, and both pass, give the same total |
| LandGemScript.CapacityIncludesCalcYear | landfill_script.py:48-51 | the capacity total counts the waste of calc_year itself |

## Left out

- Logging, the `print` calls of the scripts, `to_csv`, and the package metadata are not modelled.
- `exp` and all arithmetic are over Dafny's unbounded reals. Floating-point rounding, `np.exp` and sympy's symbolic `exp` are not modelled.
- pandas dtypes and `astype` conversions are not modelled. A year key is converted by parsing decimal digits, with no sign, whitespace or underscores.
- Merges and group-bys are modelled row by row for the shapes the engine builds, not as general relational operations.
- LfgEngine.SummaryFrame: leaves out the Scenario columns that the merges carry along (Scenario_x and Scenario_y from two materials on, and Scenario with three), because each only repeats the configured scenario name; `ColumnLabels` models their labels and the merge error they cause.
- Method-file values of the wrong type are not modelled, apart from the missing keys the model names; these include None-valued keys and integer material keys.
- CSV files, the default decay-rate table, and the efficiency tables are parameters.
- The material efficiency CSV that `calculate_lfg_emissions` loads but never uses is not read.
- The metadata fallback `getattr(data, attribute, None)` of `__init__` is not modelled. The name and config come from the arguments.
- Parsing YAML text is not modelled. A document is a `Yaml` tree, and mapping keys are strings.
- Path normalisation is left out, and paths are compared as strings. So `load_yaml_dict` with a folder ending in `/` reads the key `a//x.yaml`, which the model does not identify with `a/x.yaml` as a file system would.
- Common.LoadYamlDict loads with the corrected loader of `YamlLoader.Load`. As written, every call would end in the AttributeError of the first finding below.
- Python's recursion limit is not modelled. `YamlLoader.Resolve` takes a `fuel` bound instead, so an include cycle ends in `RecursionError` when the fuel runs out, not at the interpreter's depth.
- The download, the generator and `load_preprocessed_output` are one `Outcome` per attempt: how the download or the generator ended, and what the load returned or raised. Their side effects on the file system are not modelled.
- A geometric-series closed form of the LandGEM sub-steps is not stated.
- `!external_config` is commented out in the source, so `external_paths_to_search` is always empty when the loader runs. The model keeps it as a parameter.
- `Common.StripVersion` models `re.sub('_v[0-9].*', '', name)` for single-line names: the match runs to the end of the line.
- `return_LFG_calculations` and `generateLFG` are not part of this model.
- LfgEngine.LFG.CalculateLfgEmissions: takes the two collection-efficiency tables as `Inputs`. As written, lfg_calc_py/lfg_calc_py.py:346 and 349 call `common.load_data_csv`, which lfg_calc_py/common.py does not define, so every call raises AttributeError before any computation.
- Orchestrator.GetLfgDf: assumes that `settings.paths` exists. lfg_calc_py/settings.py defines only `MODULEPATH`, `methodpath` and `datapath`, so as written lfg_calc_py/lfg_calc_py.py:103 (and lfg_calc_py/WARM_script.py:64) raise AttributeError before the first attempt.
- Orchestrator.GetLfgDf: the WARM copy ends in `cls(df, ...)` at lfg_calc_py/WARM_script.py:94. That class's `__init__` reads `flowby_config` (line 40), a name the file never defines, so as written it raises NameError. The model wraps the frame as the package's `LFG` does.
- The imports of `DEFAULT_DOWNLOAD_IF_MISSING` (lfg_calc_py/lfg_calc_py.py:20, lfg_calc_py/WARM_script.py:17) and `lfgoutputpath` (lfg_calc_py/WARM_script.py:22) name values that lfg_calc_py/settings.py does not define, so importing either module raises ImportError. The model assumes the modules load. `lfg_calc_py.lfg_yaml` (lfg_calc_py/lfg_calc_py.py:22) is not part of this model; the loader modelled is lfg_calc_py/lfg_calc_py_yaml.py.

## Findings

| source | as written | input that shows it | evidently intended | confidence | as-written member | corrected member |
|---|---|---|---|---|---|---|
| lfg_calc_py/lfg_calc_py_yaml.py:17 | the loader registers `self.external_config`, whose definition is commented out, so creating a loader raises AttributeError | any method file: `load(stream)` fails before reading it | register only `!include:`, and return the resolved document | not executed | YamlLoader.LoadAsWrittenAlwaysFails | YamlLoader.LoadResolves |
| lfg_calc_py/lfg_calc_py.py:488-505 | every material's `df_agg` keeps the Scenario group key, but the reduce merges on Year and landfillOperationYear only; the shared Scenario columns get the suffixes `_x` and `_y`, and the third merge makes a second `Scenario_x`, which pandas 2 (required by setup.py) refuses with MergeError, a ValueError | a method file with four materials that pass every lookup | one outer merge on the year keys with the scenario kept once, giving one row per kept year with every material's columns | not executed | LfgEngine.EmissionsAsWrittenFailsFromFour | LfgEngine.EmissionsRows |
| lfg_calc_py/WARM_script.py:350-353 | `.loc[..., 3]` asks for a column labelled 3; the CSV has string headers, so it raises KeyError, which `except IndexError` does not catch | landfill_life 1 and one material with a decay rate: the first lookup raises KeyError | look up the column of the configured moisture condition | not executed | WarmScript.AsWrittenAlwaysFails | WarmScript.RunFailsOnlyOnMissingData |
