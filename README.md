# ERW calculators in Dafny

This project models the calculators of an Enhanced Rock Weathering (ERW)
study for Sao Miguel island in the Azores, and proves properties of them.
ERW spreads crushed basalt on farmland, and the rock's weathering binds
atmospheric CO2. Five source files are modelled, one Dafny module each.

- `MassBalance` (`mass_balance.dfy`): the CO2 mass balance of one
  application scenario. It covers:
  - gross weathering removal, using the stoichiometric factors 44/40 for
    MgO and 44/56 for CaO and the rainfall correction relative to 1750 mm;
  - grinding and transport emissions;
  - net removal;
  - totals over the horizon and the plot;
  - the guarded upstream share.

  It also holds the 5 x 5 x 5 sensitivity sweep, the 5 x 4 publication
  matrix, and the 95 % uncertainty interval, whose component uncertainties
  are combined in quadrature.
- `Viability` (`viability.dfy`): the soil viability rubric of the full
  analysis script. It covers:
  - the pH, organic matter, Mg deficit, CEC and climate sub-scores;
  - the total score and the star rating;
  - the soil plot's derived ratios;
  - CO2 removal for the lime-replacement scenario (2.7 t basalt per
    hectare every year) and the full-ERW scenario (50 t/ha once, over ten
    years);
  - farm economics, and the per-plot table.
- `ViabilitySimple` (`viability_simple.dfy`): the dependency-free variant
  of that script. It reuses the plot, the ratios and the four soil tables
  from `Viability`, because the two scripts define them identically. Its own
  parts are:
  - its coarser climate score;
  - plain-text rating labels;
  - its CO2 records;
  - the lime-replacement economics and the plot table.

  Lemmas relate it to the full script.
- `SaoMiguel` (`sao_miguel.dfy`): the island resource chain, from area to
  volume, mass, accessible mass and CDR potential (CDR: carbon dioxide
  removal). It also covers the three extraction scenarios with their annual
  CDR and depletion times, the island's emissions, and the agricultural
  demand for basalt.
- `Azores` (`azores.dfy`): the basalt-mass prototype.

All quantities are exact reals, so the Python floats are idealised as
rationals. Some values have no closed form in Dafny, so they are inputs:
- The weathering-rate multiplier uses real powers of ten, so it is an input.
  `AnalyzeAllPlots` receives it as a function from plot to real.
- The combined uncertainty is a square root. `UncertaintyAnalysis` receives
  it as a number `total` with `total >= 0` and `total * total == 0.1925`.
- Rounding matters only where a rounded figure feeds later arithmetic. These
  places receive the rounding function `round` as a parameter:
  - the CO2 figure that the economics price;
  - the net removal that the uncertainty analysis centres on.

Where a division by zero in the source raises an exception, the model
makes the divisor's being non-zero a precondition: the horizon length
`years` of the mass balance and the plot area of the full-ERW figures. The
uncertainty analysis is different: its central estimate may be zero, and
then its percent changes divide a floating-point zero by zero, which gives
NaN and not an exception. The model represents them as `Option` values that
are `None` in that case. This is the case of the program's own report: the
base case nets about 0.004 t/ha/yr, which rounds to a central estimate of
0.0, so the report prints a zero interval with NaN percent changes
(`MassBalance.BaseCaseCentralIsZero`).

Several behaviours of the source are stated as proved properties rather
than smoothed over:
- `MassBalance.LowestMatrixCellIsNegative`: the matrix cell at 20 %
  efficiency, 1500 mm and 2.7 t/ha is negative, about -0.0085 t/ha/yr. Line
  439 of extended_analysis.py prints it as "still positive".
- `MassBalance.CombinedUncertaintyValue`: the combined uncertainty lies
  between 0.438 and 0.439. The documentation at extended_analysis.py:219
  gives it as about 0.42.
- `Viability.FullErwReportingQuirks`, for the full-ERW economics. The
  reported cost saving is +65 EUR/ha/yr although lime cost minus amortised
  basalt cost is -65. The return on investment is computed from the
  unamortised benefit, revenue - 650, not from the reported benefit,
  revenue - 65.
- `SaoMiguel.SaoMiguelBasaltResource`: the annual-CDR figures are in
  thousands of tonnes (extraction x 0.30 / 1000), although their key says
  MtCO2.

## Model

| member | source | states |
|---|---|---|
| MassBalance.WithDefaults | extended_analysis.py:15-25 | the scenario keeps the given name, rate, efficiency and rainfall, and takes the dataclass defaults: 8 % MgO, 10 % CaO, 50 kg CO2/t for grinding and 10 kg CO2/t for transport |
| MassBalance.MgoToCo2 | extended_analysis.py:65-70 | weathering 1 kg of MgO binds exactly 1.1 kg of CO2 (44/40) |
| MassBalance.CaoToCo2 | extended_analysis.py:66-73 | weathering 1 kg of CaO binds exactly 11/14 kg of CO2 (44/56), between 0.7857 and 0.7858 kg |
| MassBalance.RainfallFactor | extended_analysis.py:75-78 | the factor times 1750 mm is the rainfall; it is exactly 1 if and only if the rainfall is 1750 mm; it is positive for positive rainfall |
| MassBalance.CalculateCo2MassBalance | extended_analysis.py:28-140 | gross removal in kg/ha/yr is the helper `GrossCo2KgHaYr` (lines 63-80); the record copies the scenario's name, rate, efficiency and rainfall; tonnes are kg / 1000; horizon totals are the annual figure times years, and the plot total is that times the area; grinding emissions times years are the rate times the grinding intensity, and likewise for transport; upstream is grinding plus transport; there is no secondary loss; net is gross minus upstream minus secondary, with no clamping |
| MassBalance.GrossClosedForm | extended_analysis.py:63-80 | annual gross removal (`GrossCo2KgHaYr`, the formula of these lines) times years equals rate x 1000 x efficiency x (MgO%/100 x 1.1 + CaO%/100 x 11/14) x rainfall/1750 |
| MassBalance.UpstreamClosedForm | extended_analysis.py:86-95 | annual upstream emissions times years equal the rate times the grinding plus transport intensities |
| MassBalance.PercentOf | extended_analysis.py:139 | the percentage times the whole is 100 times the part |
| MassBalance.UpstreamShareIsGuarded | extended_analysis.py:139 | when gross removal is positive, the upstream share times gross is 100 x upstream; otherwise the share is 0, so nothing is divided by zero |
| MassBalance.HorizonTotalIsClosedForm | extended_analysis.py:107-110 | net removal per hectare over the horizon equals rate x (gross yield per tonne - (grinding + transport)) / 1000 |
| MassBalance.HorizonTotalIndependentOfYears | extended_analysis.py:63-110 | two horizon lengths give the same unrounded per-hectare total |
| MassBalance.NetTimesYears | extended_analysis.py:63-110 | annual net removal times years equals the application rate times the net yield per tonne |
| MassBalance.NetTPerTonneIgnoresRate | extended_analysis.py:63-107 | the net yield per tonne does not depend on the application rate |
| MassBalance.NetLinearInRate | extended_analysis.py:63-107 | scaling the application rate by k scales annual net removal by k |
| MassBalance.NetSignFollowsUpstream | extended_analysis.py:102-107 | net removal is negative if and only if upstream emissions exceed gross weathering |
| MassBalance.BaseCaseValues | extended_analysis.py:350-357 | at 2.7 t/ha, 45 %, 1750 mm and the default rock over 10 years on 2 ha: gross is 283.338/14 kg/ha/yr (about 20.238); grinding is 13.5 and transport 2.7, for 16.2 upstream; net is between 0.0040 and 0.0041 t/ha/yr; upstream is between 80 % and 80.1 % of gross |
| MassBalance.SweepPosition | extended_analysis.py:158-162 | the row at index 25i + 5j + k is the balance of efficiency i, rainfall j and rate k |
| MassBalance.SensitivityAnalysis | extended_analysis.py:143-180 | exactly 125 rows; row n is `SweepRowFor` (lines 163-178) of efficiency n/25, rainfall (n/5) mod 5 and rate n mod 5, i.e. that tuple's ten-year balance, so efficiency is outermost and rate innermost |
| MassBalance.SweepKeysUnique | extended_analysis.py:154-178 | rows at different grid positions carry different (efficiency, rainfall, rate) tuples |
| MassBalance.GenerateSensitivityMatrix | extended_analysis.py:183-206 | five rows, one per rainfall in order, each carrying that rainfall and four cells; cell c is `MatrixCell` (lines 196-203), the net annual removal of the "Test" scenario at the c-th efficiency of 20/35/45/60 % |
| MassBalance.LowestMatrixCellIsNegative | extended_analysis.py:189-204 | the cell at 20 % efficiency and 1500 mm (at 2.7 t/ha) lies between -0.0085 and -0.0084 t/ha/yr, so it is not positive |
| MassBalance.SumOfSquaredUncertainties | extended_analysis.py:225-235 | 0.30^2 + 0.15^2 + 0.20^2 + 0.20^2 = 0.1925 |
| MassBalance.UncertaintyAnalysis | extended_analysis.py:209-248 | the centre is the rounded net removal; margin = centre x total x 1.96; the bounds are centre minus and plus the margin, symmetric around it; a zero centre gives a zero margin and zero bounds, and the percent changes are missing (NaN) exactly when the centre is zero; otherwise they are exactly -196 x total and +196 x total; for a positive centre, lower < centre < upper |
| MassBalance.BaseCaseCentralIsZero | extended_analysis.py:350-398 | for any rounding that sends (-0.005, 0.005) to 0 at two places, the base case's uncertainty record has centre 0, both bounds 0 and no percent changes |
| MassBalance.CombinedUncertaintyValue | extended_analysis.py:219-235 | the combined uncertainty lies between 0.438 and 0.439 |
| Viability.MgCaRatio | scripts/viability_analysis.py:30-33 | with positive Ca, ratio x Ca = Mg; otherwise the ratio is 0; the simple script defines it identically at scripts/viability_analysis_simple.py:30-33 |
| Viability.MgDeficit | scripts/viability_analysis.py:35-39 | the deficit is max(0, 1.5 - Mg): it is never negative; it is 0 if and only if Mg >= 1.5; it is at most 1.5 when Mg >= 0; the simple script defines it identically at scripts/viability_analysis_simple.py:35-39 |
| Viability.PhScore | scripts/viability_analysis.py:64-84 | values in {30, 29, 27, 25, 20, 15, 5}; 30 if and only if pH <= 5.2; 5 if and only if pH > 7.0; the simple script defines it identically at scripts/viability_analysis_simple.py:62-77 |
| Viability.OmScore | scripts/viability_analysis.py:86-106 | values in {20, 18, 15, 12, 8, 3}; 20 if and only if OM >= 12; 3 if and only if OM < 4; the simple script defines it identically at scripts/viability_analysis_simple.py:79-92 |
| Viability.MgDeficitScore | scripts/viability_analysis.py:108-125 | values in {15, 13, 11, 9, 6, 2}; 15 if and only if the deficit is >= 1.5; 2 if and only if it is < 0.5; the simple script defines it identically at scripts/viability_analysis_simple.py:94-107 |
| Viability.CecScore | scripts/viability_analysis.py:127-142 | values in {10, 9, 8, 6, 3}; 10 if and only if CEC >= 20; 3 if and only if CEC < 8; the simple script defines it identically at scripts/viability_analysis_simple.py:109-120 |
| Viability.PhScoreNonIncreasing | scripts/viability_analysis.py:64-84 | a higher pH never scores more |
| Viability.OmScoreNonDecreasing | scripts/viability_analysis.py:86-106 | more organic matter never scores less |
| Viability.MgDeficitScoreNonDecreasing | scripts/viability_analysis.py:108-125 | a larger deficit never scores less |
| Viability.CecScoreNonDecreasing | scripts/viability_analysis.py:127-142 | a larger CEC never scores less |
| Viability.ClimateScoreFor | scripts/viability_analysis.py:144-168 | between 10 and 25; 25 if and only if rainfall >= 1500 and 15 <= temperature <= 20; 10 if and only if rainfall < 750 and the temperature is outside 12..23 |
| Viability.ClimateScoreNonDecreasingInRain | scripts/viability_analysis.py:150-157 | more rain never lowers the climate score |
| Viability.ClimateScore | scripts/viability_analysis.py:144-168 | the analyser's climate (1750 mm, 18 C) scores exactly 25 |
| Viability.Rating | scripts/viability_analysis.py:191-205 | a tier of rank k >= 1 means score >= 40 + 10k; a tier below the top means score < 50 + 10k (thresholds 50/60/70/80/90) |
| Viability.RatingMonotone | scripts/viability_analysis.py:191-205 | a higher score never gets a lower tier |
| Viability.StarRow | scripts/viability_analysis.py:194-205 | a row of n stars has length n and every character is the star |
| Viability.Tier.Label | scripts/viability_analysis.py:194-205 | the label is the tier's star count of stars, then a space, then the tier's name |
| Viability.StarRows | scripts/viability_analysis.py:194-205 | the rows of one to five stars are the star strings of the labels |
| Viability.RatingLabels | scripts/viability_analysis.py:191-205 | each score band gets the label the source returns: five stars EXCEPTIONAL from 90, five stars EXCELLENT from 80, four stars VERY GOOD from 70, three stars GOOD from 60, two stars MODERATE from 50, and one star MARGINAL below |
| Viability.NamesDistinct | scripts/viability_analysis.py:191-205 | different tiers have different names and different star labels |
| Viability.TotalViabilityScore | scripts/viability_analysis.py:170-189 | each field is its sub-score; the total is their sum, between 38 and 100 under the fixed climate; the rating is the tier of the total |
| Viability.TotalScoreBoundsAnyClimate | scripts/viability_analysis.py:170-181 | under any climate the sub-scores sum to between 23 and 100 |
| Viability.Co2RemovalLimeReplacement | scripts/viability_analysis.py:224-256 | the record is labelled "Lime Replacement"; annual removal is (2833.38/14000) x multiplier, between 0.20238 and 0.20239 per unit of multiplier; the ten-year total is the annual figure x 10 x area; the record carries the 2700 kg rate, the multiplier and the area; the per-hectare formula at lines 234-246 is the helper `WeatheredCo2THa` |
| Viability.Co2RemovalFullErw | scripts/viability_analysis.py:258-290 | the record is labelled "Full ERW"; removal per hectare over ten years is 50000/2700 times the lime scenario's annual figure; the yearly average is a tenth of it; the plot total is the per-hectare figure x area |
| Viability.Co2MonotoneInMultiplier | scripts/viability_analysis.py:224-290 | a larger multiplier never lowers either scenario's annual removal |
| Viability.CalculateEconomics | scripts/viability_analysis.py:292-325 | lime replacement: lime 120, basalt 35.1, savings 84.9, revenue 80 x CO2 rounded to 2 places, benefit = savings + revenue, ROI x 35.1 = benefit x 100. Any other scenario: lime 0, basalt and savings both reported as 65, revenue 80 x yearly average rounded to 1 place, benefit revenue - 65, ROI x 650 = (revenue - 650) x 100 |
| Viability.FullErwReportingQuirks | scripts/viability_analysis.py:313-325 | in the full-ERW record the saving equals the amortised basalt cost, although lime minus basalt is -65; the ROI is (benefit - 585)/650 x 100 and not benefit/650 x 100 |
| Viability.AnalyzeAllPlots | scripts/viability_analysis.py:327-357 | one row per plot, in input order; row i is the analysis of plot i at its own multiplier, which the helper `AnalyzePlot` builds as at lines 332-354 |
| ViabilitySimple.ClimateScoreFor | scripts/viability_analysis_simple.py:122-136 | between 17 and 25; 25 if and only if rainfall >= 1500 and 15 <= temperature <= 20; 17 if and only if rainfall < 1000 and the temperature is outside 15..20 |
| ViabilitySimple.ClimateScore | scripts/viability_analysis_simple.py:122-136 | the fixed climate scores exactly 25 |
| ViabilitySimple.ClimateScoresAgree | scripts/viability_analysis_simple.py:122-136 | the simple climate score is never below the full script's; they are equal if and only if rainfall >= 750 and 12 <= temperature <= 23 |
| ViabilitySimple.Rating | scripts/viability_analysis_simple.py:159-173 | "EXCEPTIONAL" if and only if score >= 90; "EXCELLENT" if and only if 80 <= score < 90; "VERY GOOD" if and only if 70 <= score < 80; "GOOD" if and only if 60 <= score < 70; "MODERATE" if and only if 50 <= score < 60; "MARGINAL" if and only if score < 50 |
| ViabilitySimple.TotalViabilityScore | scripts/viability_analysis_simple.py:138-157 | each field is its sub-score; the total is their sum, between 38 and 100 under the fixed climate; the rating is the plain label of the total |
| ViabilitySimple.TotalScoreBoundsAnyClimate | scripts/viability_analysis_simple.py:138-146 | under any climate the sub-scores sum to between 30 and 100 |
| ViabilitySimple.TotalsAgreeWithFullScript | scripts/viability_analysis_simple.py:138-157 | both scripts give a plot the same total; the simple rating is the name of the full script's tier |
| ViabilitySimple.Co2RemovalLimeReplacement | scripts/viability_analysis_simple.py:191-210 | annual removal is (2833.38/14000) x multiplier, between 0.20238 and 0.20239 per unit; the ten-year total is the annual figure x 10 x area |
| ViabilitySimple.Co2RemovalFullErw | scripts/viability_analysis_simple.py:212-229 | the yearly average per hectare is 50/27 times the lime scenario's annual figure; the ten-year plot total is the average x 10 x area |
| ViabilitySimple.Co2AgreesWithFullScript | scripts/viability_analysis_simple.py:191-229 | both scripts compute the same lime annual, full-ERW average and full-ERW total figures |
| ViabilitySimple.CalculateEconomicsLimeReplacement | scripts/viability_analysis_simple.py:231-246 | savings 84.9; revenue 80 x CO2 rounded to 2 places; benefit = savings + revenue |
| ViabilitySimple.EconomicsAgreeWithFullScript | scripts/viability_analysis_simple.py:231-246 | the savings, revenue and benefit equal the full script's lime-replacement figures |
| ViabilitySimple.AnalyzeAllPlots | scripts/viability_analysis_simple.py:248-276 | one row per plot, in input order; row i is the analysis of plot i at its own multiplier, which the helper `AnalyzePlot` builds as at lines 253-273 |
| ViabilitySimple.TableFollowsPlots | scripts/viability_analysis_simple.py:248-276 | in any such table, row i carries plot i's identifier and a score between 38 and 100, rated by its own score |
| SaoMiguel.InSituMassMt | case_studies/sao_miguel.py:32-39 | in-situ mass in Mt times 1000 equals area x coverage x depth x density |
| SaoMiguel.SaoMiguelBasaltResource | case_studies/sao_miguel.py:7-71 | basalt area = area x coverage; accessible = in situ x recovery; CDR potential = accessible x 0.30; annual CDR is {conservative: 15, moderate: 22.5, aggressive: 30}, each times 1000 being the extraction x 0.30 in tonnes; depletion years x extraction = accessible x 10^6 for each scenario, with the same keys; for a positive resource aggressive < moderate < conservative |
| SaoMiguel.DepletionProducts | case_studies/sao_miguel.py:55-60 | the depletion map has the three scenario keys, and each entry times its extraction gives the accessible tonnes |
| SaoMiguel.DefaultResourceValues | case_studies/sao_miguel.py:7-46 | the defaults give 520.8 km2 of basalt, 7486.5 Mt in situ, 3743.25 Mt accessible and 1122.975 Mt CDR potential |
| SaoMiguel.Trunc | case_studies/sao_miguel.py:88 | truncation toward zero: for x >= 0, n <= x < n + 1; for x < 0, n - 1 < x <= n |
| SaoMiguel.SaoMiguelEmissionsContext | case_studies/sao_miguel.py:74-89 | 140000 people at 5 t each: 700000 t and 0.7 Mt, the t figure being the Mt figure x 10^6 |
| SaoMiguel.SaoMiguelAgriculturalIntegration | case_studies/sao_miguel.py:92-120 | 20000 suitable ha (100 per km2); annual demand x 5 = ha x 50 t/ha = 1000000 t, so demand is 200000 t; annual CDR = demand x 0.30 = 60000 t |
| Azores.AzoresBasaltMass | case_studies/Azores.py:4-8 | mass in Mt times 1000 equals area x depth x density |
| Azores.DefaultMass | case_studies/Azores.py:4-8 | the default arguments give exactly 21460 Mt |
| Azores.DoublingAnArgumentDoublesMass | case_studies/Azores.py:5-7 | doubling the area, the depth or the density doubles the mass |
| Azores.MassSign | case_studies/Azores.py:5-7 | non-negative inputs give a non-negative mass; a zero area, depth or density gives 0 |
| Azores.AgreesWithSaoMiguelInSitu | case_studies/Azores.py:5-7 | the prototype equals the Sao Miguel in-situ mass with full basalt cover |

## Left out

- Rounding. Every reported figure in the source passes through `round(...)`.
  The model keeps the exact values, except where a rounded figure feeds
  later arithmetic. So the next lines state contracts about unrounded values.
- MassBalance.CalculateCo2MassBalance: its fields are unrounded. The source
  rounds each reported figure to 1 or 2 decimals.
- MassBalance.SensitivityAnalysis: its rows hold the unrounded net
  removal. The source copies the balance's rounded figures. The scenario
  name built with an f-string is not modelled; the empty name stands in for
  it, and no reported column uses it. The base scenario argument is unused
  in the source too.
- MassBalance.GenerateSensitivityMatrix: its cells are unrounded net
  removals. The column headers formatted from the efficiencies are not
  modelled; cells are indexed by the efficiency's position instead.
- MassBalance.UncertaintyAnalysis: only the central estimate is passed
  through `round`. The margin, bounds and percent changes are exact, and
  the square root is the input `total`. A NaN percent change is `None`;
  its printed form "+nan%" is not modelled.
- Viability.Co2RemovalLimeReplacement, Viability.Co2RemovalFullErw,
  ViabilitySimple.Co2RemovalLimeReplacement and
  ViabilitySimple.Co2RemovalFullErw: their records are unrounded. The
  economics still price the rounded CO2 figure, as the source does.
- Viability.CalculateEconomics and
  ViabilitySimple.CalculateEconomicsLimeReplacement: the reported cost,
  benefit and ROI fields are unrounded.
- Viability.AnalyzeAllPlots and ViabilitySimple.AnalyzeAllPlots: the
  ratio, deficit and score columns are unrounded. Rows are records, not
  the string-keyed dicts of the source.
- SaoMiguel.SaoMiguelBasaltResource: the in-situ, accessible and CDR
  figures are unrounded. Insertion order of the Python dicts is not
  modelled, because Dafny maps are unordered; the scenario list keeps
  the order in which the loop visits them.
- Weathering-rate multiplier. `calculate_weathering_rate_multiplier`
  (scripts/viability_analysis.py:207-222,
  scripts/viability_analysis_simple.py:175-189) is not modelled, because it
  raises 10 to the real power 7 - pH and uses the powers 0.3 and 0.5, and
  Dafny has no real powers. The multiplier is an input of the CO2, economics
  and plot-table members.
- Square root. `np.sqrt` (extended_analysis.py:230) is replaced by the
  input `total` with `total * total == 0.1925`.
- IEEE floating point. Literals such as 2.7 x 13 are exact reals here,
  while the Python floats are rounded binary numbers.
- Analyser classes. The analyser objects of both viability scripts hold the
  plot list; the full script's object also has a `results` field that
  nothing uses. No method updates their fields, so they are not classes
  here. The plot list is a
  parameter of `AnalyzeAllPlots`.
- Presentation and I/O: every `main`, all printing, `print_table`, the
  pandas DataFrame construction and `to_string`, and the CSV export with its
  fixed output path.
- `generate_summary_statistics` and the statistics-module mean and
  standard deviation, which rely on library statistics over floats.
- `mrv_framework` (extended_analysis.py:251-331): a static dictionary of
  descriptive strings.
- `load_sao_miguel_data`: a fixed table of soil rows.
- The ERW contribution percentages printed in the Sao Miguel `main`.
