/** Island-scale resource and carbon-removal arithmetic for Sao Miguel
    (case_studies/sao_miguel.py): basalt resource, extraction scenarios,
    island emissions and agricultural demand. */
module SaoMiguel {

  // Default arguments of the resource assessment
  const DefaultAreaKm2: real := 744.0
  const DefaultBasaltCoverage: real := 0.70
  const DefaultDepthM: real := 5.0
  const DefaultDensityKgM3: real := 2875.0
  const DefaultRecoveryFactor: real := 0.50

  /** Tonnes of CO2 removed per tonne of basalt. */
  const Co2Efficiency: real := 0.30

  /** Annual extraction scenarios (tonnes of basalt per year), in the order
      the assessment visits them. */
  const Scenarios: seq<(string, real)> :=
    [("conservative", 50000.0), ("moderate", 75000.0), ("aggressive", 100000.0)]

  /** In-situ basalt mass in megatonnes: the basalt-covered area (km2 to m2)
      times depth gives the volume, times density the mass in kg. */
  function InSituMassMt(areaKm2: real, coverage: real, depthM: real, densityKgM3: real): (mt: real)
    ensures mt * 1000.0 == areaKm2 * coverage * depthM * densityKgM3
  {
    var basaltAreaKm2 := areaKm2 * coverage;
    var volumeM3 := basaltAreaKm2 * 1000000.0 * depthM;
    var inSituMassKg := volumeM3 * densityKgM3;
    assert inSituMassKg == (basaltAreaKm2 * depthM * densityKgM3) * 1000000.0;
    inSituMassKg / 1000000000.0
  }

  /** The annual-CDR entries of the scenarios in `s`, in thousands of
      tonnes of CO2 per year. */
  function AnnualCdrOf(s: seq<(string, real)>): map<string, real>
  {
    if |s| == 0 then map[]
    else AnnualCdrOf(s[..|s| - 1])[s[|s| - 1].0 := s[|s| - 1].1 * Co2Efficiency / 1000.0]
  }

  /** The depletion-year entries of the scenarios in `s` for an accessible
      resource of `accessibleMt` megatonnes. */
  function DepletionYearsOf(s: seq<(string, real)>, accessibleMt: real): map<string, real>
    requires forall i :: 0 <= i < |s| ==> s[i].1 != 0.0
  {
    if |s| == 0 then map[]
    else DepletionYearsOf(s[..|s| - 1], accessibleMt)[s[|s| - 1].0 := accessibleMt * 1000000.0 / s[|s| - 1].1]
  }

  datatype ResourceAssessment = ResourceAssessment(
    islandAreaKm2: real,
    basaltAreaKm2: real,
    extractionDepthM: real,
    inSituResourceMt: real,
    accessibleResourceMt: real,
    totalCdrPotentialMtCo2: real,
    annualCdrScenarios: map<string, real>,
    resourceDepletionYears: map<string, real>)

  /** Resource assessment. Each scenario's annual CDR is its extraction
      times 0.30, divided by 1000 (so the figure is in thousands of tonnes,
      whatever its key says), and its depletion time is the accessible
      resource in tonnes divided by the extraction rate: the faster the
      extraction, the sooner the resource is exhausted. */
  method SaoMiguelBasaltResource(areaKm2: real, basaltCoverage: real, depthM: real,
                                 densityKgM3: real, recoveryFactor: real)
    returns (r: ResourceAssessment)
    ensures r.islandAreaKm2 == areaKm2 && r.extractionDepthM == depthM
    ensures r.basaltAreaKm2 == areaKm2 * basaltCoverage
    ensures r.inSituResourceMt == InSituMassMt(areaKm2, basaltCoverage, depthM, densityKgM3)
    ensures r.accessibleResourceMt == r.inSituResourceMt * recoveryFactor
    ensures r.totalCdrPotentialMtCo2 == r.accessibleResourceMt * Co2Efficiency
    ensures r.annualCdrScenarios == map["conservative" := 15.0, "moderate" := 22.5, "aggressive" := 30.0]
    ensures forall i :: 0 <= i < |Scenarios| ==>
              r.annualCdrScenarios[Scenarios[i].0] * 1000.0 == Scenarios[i].1 * Co2Efficiency
    ensures r.resourceDepletionYears.Keys == r.annualCdrScenarios.Keys
    ensures forall i :: 0 <= i < |Scenarios| ==>
              r.resourceDepletionYears[Scenarios[i].0] * Scenarios[i].1 == r.accessibleResourceMt * 1000000.0
    ensures r.accessibleResourceMt > 0.0 ==>
              0.0 < r.resourceDepletionYears["aggressive"] < r.resourceDepletionYears["moderate"]
                  < r.resourceDepletionYears["conservative"]
  {
    var basaltAreaKm2 := areaKm2 * basaltCoverage;
    var inSituMassMt := InSituMassMt(areaKm2, basaltCoverage, depthM, densityKgM3);
    var accessibleMassMt := inSituMassMt * recoveryFactor;
    var totalCdrMtCo2 := accessibleMassMt * Co2Efficiency;

    var annualCdr: map<string, real> := map[];
    var depletionYears: map<string, real> := map[];
    for i := 0 to |Scenarios|
      invariant annualCdr == AnnualCdrOf(Scenarios[..i])
      invariant depletionYears == DepletionYearsOf(Scenarios[..i], accessibleMassMt)
    {
      var (scenario, extractionTYr) := Scenarios[i];
      assert Scenarios[..i + 1][..i] == Scenarios[..i];
      annualCdr := annualCdr[scenario := extractionTYr * Co2Efficiency / 1000.0];
      depletionYears := depletionYears[scenario := accessibleMassMt * 1000000.0 / extractionTYr];
    }
    assert Scenarios[..|Scenarios|] == Scenarios;
    DepletionProducts(accessibleMassMt);
    r := ResourceAssessment(areaKm2, basaltAreaKm2, depthM, inSituMassMt, accessibleMassMt,
                            totalCdrMtCo2, annualCdr, depletionYears);
  }

  /** The depletion entries of all three scenarios, each times its
      extraction rate, give back the accessible resource in tonnes. */
  lemma DepletionProducts(accessibleMt: real)
    ensures var d := DepletionYearsOf(Scenarios, accessibleMt);
            && d.Keys == {"conservative", "moderate", "aggressive"}
            && d["conservative"] * 50000.0 == accessibleMt * 1000000.0
            && d["moderate"] * 75000.0 == accessibleMt * 1000000.0
            && d["aggressive"] * 100000.0 == accessibleMt * 1000000.0
  {
    assert Scenarios[..1] == [("conservative", 50000.0)];
    assert Scenarios[..1][..0] == [];
    assert Scenarios[..2][..1] == Scenarios[..1];
    assert Scenarios[..3][..2] == Scenarios[..2];
    assert Scenarios[..3] == Scenarios;
    var d0 := DepletionYearsOf(Scenarios[..1][..0], accessibleMt);
    assert d0 == map[];
    var d1 := DepletionYearsOf(Scenarios[..1], accessibleMt);
    assert d1 == d0["conservative" := accessibleMt * 1000000.0 / 50000.0];
    assert d1 == map["conservative" := accessibleMt * 1000000.0 / 50000.0];
    var d2 := DepletionYearsOf(Scenarios[..2], accessibleMt);
    assert d2 == d1["moderate" := accessibleMt * 1000000.0 / 75000.0];
    assert DepletionYearsOf(Scenarios, accessibleMt) == d2["aggressive" := accessibleMt * 1000000.0 / 100000.0];
  }

  /** The default island: 520.8 km2 of basalt, 7486.5 Mt in situ, 3743.25 Mt
      accessible and 1122.975 Mt of CO2 removal potential before rounding. */
  lemma DefaultResourceValues()
    ensures DefaultAreaKm2 * DefaultBasaltCoverage == 520.8
    ensures InSituMassMt(DefaultAreaKm2, DefaultBasaltCoverage, DefaultDepthM, DefaultDensityKgM3) == 7486.5
    ensures InSituMassMt(DefaultAreaKm2, DefaultBasaltCoverage, DefaultDepthM, DefaultDensityKgM3)
              * DefaultRecoveryFactor == 3743.25
    ensures InSituMassMt(DefaultAreaKm2, DefaultBasaltCoverage, DefaultDepthM, DefaultDensityKgM3)
              * DefaultRecoveryFactor * Co2Efficiency == 1122.975
  {
    var mt := InSituMassMt(DefaultAreaKm2, DefaultBasaltCoverage, DefaultDepthM, DefaultDensityKgM3);
    assert mt * 1000.0 == 7486500.0;
  }

  // ---------------------------------------------------------------------
  // Emissions context

  /** Python's int() on a float: truncation toward zero. */
  function Trunc(x: real): (n: int)
    ensures x >= 0.0 ==> n as real <= x < n as real + 1.0
    ensures x < 0.0 ==> n as real - 1.0 < x <= n as real
  {
    if x >= 0.0 then x.Floor else -((-x).Floor)
  }

  datatype EmissionsContext = EmissionsContext(
    population: int,
    perCapitaEmissionsTCo2: real,
    totalIslandEmissionsMtCo2Yr: real,
    totalIslandEmissionsTCo2Yr: int)

  const Population: int := 140000
  const PerCapitaEmissionsTCo2: real := 5.0

  /** Island emissions: 140000 people at 5 t each, 700000 t or 0.7 Mt a year. */
  function SaoMiguelEmissionsContext(): (e: EmissionsContext)
    ensures e.population == Population && e.perCapitaEmissionsTCo2 == PerCapitaEmissionsTCo2
    ensures e.totalIslandEmissionsTCo2Yr == 700000
    ensures e.totalIslandEmissionsMtCo2Yr == 0.7
    ensures e.totalIslandEmissionsTCo2Yr as real == e.totalIslandEmissionsMtCo2Yr * 1000000.0
  {
    var islandEmissionsMtCo2Yr := (Population as real * PerCapitaEmissionsTCo2) / 1000000.0;
    EmissionsContext(Population, PerCapitaEmissionsTCo2, islandEmissionsMtCo2Yr,
                     Trunc(Population as real * PerCapitaEmissionsTCo2))
  }

  // ---------------------------------------------------------------------
  // Agricultural integration

  datatype AgriculturalIntegration = AgriculturalIntegration(
    totalAgriculturalLandKm2: int,
    erwSuitableLandKm2: int,
    erwSuitableLandHa: int,
    basaltApplicationRateTHa: int,
    annualBasaltDemandT: int,
    annualAgriculturalCdrTCo2: int)

  /** 200 km2 of suitable pasture (20000 ha) at 50 t/ha on a five-year
      cycle: 200000 t of basalt a year, removing 0.30 t CO2 per tonne, i.e.
      60000 t of CO2 a year. */
  function SaoMiguelAgriculturalIntegration(): (a: AgriculturalIntegration)
    ensures a.totalAgriculturalLandKm2 == 250 && a.erwSuitableLandKm2 == 200
    ensures a.erwSuitableLandHa == 100 * a.erwSuitableLandKm2
    ensures a.basaltApplicationRateTHa == 50
    ensures a.annualBasaltDemandT * 5 == a.erwSuitableLandHa * a.basaltApplicationRateTHa
    ensures a.annualBasaltDemandT == 200000
    ensures a.annualAgriculturalCdrTCo2 as real == a.annualBasaltDemandT as real * Co2Efficiency
    ensures a.annualAgriculturalCdrTCo2 == 60000
  {
    var totalAgriculturalKm2 := 250;
    var suitableForErwKm2 := 200;
    var basaltApplicationTHa := 50;
    var suitableAreaHa := suitableForErwKm2 * 100;
    var totalBasaltNeededT := suitableAreaHa * basaltApplicationTHa;
    var annualBasaltDemandT := totalBasaltNeededT as real / 5.0;
    var co2UptakeTCo2Ha := basaltApplicationTHa as real * Co2Efficiency;
    var annualAgriculturalCdrTCo2 := (suitableAreaHa as real / 5.0) * co2UptakeTCo2Ha;
    AgriculturalIntegration(totalAgriculturalKm2, suitableForErwKm2, suitableAreaHa, basaltApplicationTHa,
                            Trunc(annualBasaltDemandT), Trunc(annualAgriculturalCdrTCo2))
  }
}
