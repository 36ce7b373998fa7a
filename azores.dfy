/** The Azores basalt-mass prototype (case_studies/Azores.py). */
module Azores {
  import SaoMiguel

  // Default arguments
  const DefaultAreaKm2: real := 740.0
  const DefaultDepthM: real := 10.0
  const DefaultDensityKgM3: real := 2900.0

  /** Basalt mass in megatonnes of a layer `depthM` deep under `areaKm2`
      (km2 to m2, times depth for the volume, times density for kg, then
      kg to Mt): area, depth and density multiplied, over 1000. */
  function AzoresBasaltMass(areaKm2: real, depthM: real, densityKgM3: real): (massMt: real)
    ensures massMt * 1000.0 == areaKm2 * depthM * densityKgM3
  {
    var volumeM3 := areaKm2 * 1000000.0 * depthM;
    var massKg := volumeM3 * densityKgM3;
    assert massKg == (areaKm2 * depthM * densityKgM3) * 1000000.0;
    massKg / 1000000000.0
  }

  /** The default arguments give exactly 21460 Mt. */
  lemma DefaultMass()
    ensures AzoresBasaltMass(DefaultAreaKm2, DefaultDepthM, DefaultDensityKgM3) == 21460.0
  {
    assert DefaultAreaKm2 * DefaultDepthM * DefaultDensityKgM3 == 21460000.0;
  }

  /** Doubling any one argument doubles the mass. */
  lemma DoublingAnArgumentDoublesMass(areaKm2: real, depthM: real, densityKgM3: real)
    ensures AzoresBasaltMass(2.0 * areaKm2, depthM, densityKgM3) == 2.0 * AzoresBasaltMass(areaKm2, depthM, densityKgM3)
    ensures AzoresBasaltMass(areaKm2, 2.0 * depthM, densityKgM3) == 2.0 * AzoresBasaltMass(areaKm2, depthM, densityKgM3)
    ensures AzoresBasaltMass(areaKm2, depthM, 2.0 * densityKgM3) == 2.0 * AzoresBasaltMass(areaKm2, depthM, densityKgM3)
  {
    var m := AzoresBasaltMass(areaKm2, depthM, densityKgM3);
    var p := areaKm2 * depthM * densityKgM3;
    assert (2.0 * areaKm2) * depthM * densityKgM3 == 2.0 * p;
    assert areaKm2 * (2.0 * depthM) * densityKgM3 == 2.0 * p;
    assert areaKm2 * depthM * (2.0 * densityKgM3) == 2.0 * p;
  }

  /** Non-negative inputs give a non-negative mass, and no area, depth or
      density gives no mass. */
  lemma MassSign(areaKm2: real, depthM: real, densityKgM3: real)
    ensures areaKm2 >= 0.0 && depthM >= 0.0 && densityKgM3 >= 0.0 ==>
              AzoresBasaltMass(areaKm2, depthM, densityKgM3) >= 0.0
    ensures areaKm2 == 0.0 || depthM == 0.0 || densityKgM3 == 0.0 ==>
              AzoresBasaltMass(areaKm2, depthM, densityKgM3) == 0.0
  {
    if areaKm2 >= 0.0 && depthM >= 0.0 && densityKgM3 >= 0.0 {
      assert areaKm2 * depthM >= 0.0;
      assert (areaKm2 * depthM) * densityKgM3 >= 0.0;
    }
  }

  /** The prototype is the Sao Miguel in-situ mass with full basalt cover. */
  lemma AgreesWithSaoMiguelInSitu(areaKm2: real, depthM: real, densityKgM3: real)
    ensures AzoresBasaltMass(areaKm2, depthM, densityKgM3) == SaoMiguel.InSituMassMt(areaKm2, 1.0, depthM, densityKgM3)
  {
  }
}
