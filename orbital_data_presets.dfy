/** The four example orbits offered by the simulator, one per near-Earth
    asteroid class, built by overriding a common record of empty metadata. */
module OrbitalDataPresets {
  import opened Common
  import opened NeoTypes
  import Decimal

  /** Metadata shared by every preset. The orbit-specific fields are blank
      here and set by every preset. */
  const CommonOrbitData: OrbitalData := OrbitalData(
    orbitId := "0",
    orbitDeterminationDate := "",
    firstObservationDate := "",
    lastObservationDate := "",
    dataArcInDays := 0,
    observationsUsed := 0,
    orbitUncertainty := "0",
    minimumOrbitIntersection := "0",
    jupiterTisserandInvariant := "",
    epochOsculation := "",
    eccentricity := "",
    semiMajorAxis := "",
    inclination := "",
    ascendingNodeLongitude := "",
    orbitalPeriod := "",
    perihelionDistance := "",
    perihelionArgument := "",
    aphelionDistance := "",
    perihelionTime := None,
    meanAnomaly := "",
    meanMotion := "",
    equinox := "",
    orbitClass := OrbitClass("GEN", "Generic Orbit Example", ""))

  const Amor: OrbitalData := CommonOrbitData.(
    eccentricity := "0.15", semiMajorAxis := "1.2",
    perihelionDistance := "1.02", aphelionDistance := "1.38",
    inclination := "10", ascendingNodeLongitude := "180", perihelionArgument := "90",
    orbitalPeriod := "450", meanAnomaly := "0")

  const Apollo: OrbitalData := CommonOrbitData.(
    eccentricity := "0.5", semiMajorAxis := "1.5",
    perihelionDistance := "0.75", aphelionDistance := "2.25",
    inclination := "15", ascendingNodeLongitude := "120", perihelionArgument := "180",
    orbitalPeriod := "680", meanAnomaly := "0")

  const Aten: OrbitalData := CommonOrbitData.(
    eccentricity := "0.2", semiMajorAxis := "0.9",
    perihelionDistance := "0.72", aphelionDistance := "1.08",
    inclination := "5", ascendingNodeLongitude := "240", perihelionArgument := "270",
    orbitalPeriod := "310", meanAnomaly := "0")

  const Atira: OrbitalData := CommonOrbitData.(
    eccentricity := "0.1", semiMajorAxis := "0.8",
    perihelionDistance := "0.72", aphelionDistance := "0.88",
    inclination := "20", ascendingNodeLongitude := "60", perihelionArgument := "0",
    orbitalPeriod := "255", meanAnomaly := "0")

  const OrbitPresets: map<string, OrbitalData> :=
    map["Amor" := Amor, "Apollo" := Apollo, "Aten" := Aten, "Atira" := Atira]

  /** Earth's perihelion and aphelion distances in AU, the class boundaries. */
  const EarthPerihelion: real := 0.983
  const EarthAphelion: real := 1.017

  /** The value `parseFloat` gives a field, with NaN as None. */
  function Value(field: string): Option<real> {
    Decimal.Parse(field)
  }

  /** Perihelion distance q = a(1 - e) and aphelion distance Q = a(1 + e). */
  predicate ApsidesConsistent(o: OrbitalData) {
    var a, e := Value(o.semiMajorAxis), Value(o.eccentricity);
    var q, bigQ := Value(o.perihelionDistance), Value(o.aphelionDistance);
    a.Some? && e.Some? && q.Some? && bigQ.Some? &&
    q.value == a.value * (1.0 - e.value) &&
    bigQ.value == a.value * (1.0 + e.value)
  }

  /** A closed orbit with a positive period, starting at perihelion. */
  predicate ClosedFromPerihelion(o: OrbitalData) {
    var e, period := Value(o.eccentricity), Value(o.orbitalPeriod);
    e.Some? && 0.0 <= e.value < 1.0 &&
    period.Some? && period.value > 0.0 &&
    Value(o.meanAnomaly) == Some(0.0)
  }

  /** Amor: approaches Earth's orbit from outside (q > 1.017 AU). */
  predicate IsAmor(o: OrbitalData) {
    var q := Value(o.perihelionDistance);
    q.Some? && q.value > EarthAphelion
  }

  /** Apollo: crosses Earth's orbit (a > 1 AU, q < 1.017 AU). */
  predicate IsApollo(o: OrbitalData) {
    var a, q := Value(o.semiMajorAxis), Value(o.perihelionDistance);
    a.Some? && q.Some? && a.value > 1.0 && q.value < EarthAphelion
  }

  /** Aten: crosses Earth's orbit from inside (a < 1 AU, Q > 0.983 AU). */
  predicate IsAten(o: OrbitalData) {
    var a, bigQ := Value(o.semiMajorAxis), Value(o.aphelionDistance);
    a.Some? && bigQ.Some? && a.value < 1.0 && bigQ.value > EarthPerihelion
  }

  /** Atira: entirely inside Earth's orbit (Q < 0.983 AU). */
  predicate IsAtira(o: OrbitalData) {
    var bigQ := Value(o.aphelionDistance);
    bigQ.Some? && bigQ.value < EarthPerihelion
  }

  /** The decimal values `parseFloat` reads from one preset's fields. */
  predicate ReadsAs(o: OrbitalData, a: real, e: real, q: real, bigQ: real, period: real) {
    Value(o.semiMajorAxis) == Some(a) && Value(o.eccentricity) == Some(e) &&
    Value(o.perihelionDistance) == Some(q) && Value(o.aphelionDistance) == Some(bigQ) &&
    Value(o.orbitalPeriod) == Some(period) && Value(o.meanAnomaly) == Some(0.0)
  }

  lemma AmorReads() ensures ReadsAs(Amor, 1.2, 0.15, 1.02, 1.38, 450.0) {
    assert Value("1.2") == Some(1.2) && Value("0.15") == Some(0.15);
    assert Value("1.02") == Some(1.02) && Value("1.38") == Some(1.38);
    assert Value("450") == Some(450.0) && Value("0") == Some(0.0);
  }

  lemma ApolloReads() ensures ReadsAs(Apollo, 1.5, 0.5, 0.75, 2.25, 680.0) {
    assert Value("1.5") == Some(1.5) && Value("0.5") == Some(0.5);
    assert Value("0.75") == Some(0.75) && Value("2.25") == Some(2.25);
    assert Value("680") == Some(680.0) && Value("0") == Some(0.0);
  }

  lemma AtenReads() ensures ReadsAs(Aten, 0.9, 0.2, 0.72, 1.08, 310.0) {
    assert Value("0.9") == Some(0.9) && Value("0.2") == Some(0.2);
    assert Value("0.72") == Some(0.72) && Value("1.08") == Some(1.08);
    assert Value("310") == Some(310.0) && Value("0") == Some(0.0);
  }

  lemma AtiraReads() ensures ReadsAs(Atira, 0.8, 0.1, 0.72, 0.88, 255.0) {
    assert Value("0.8") == Some(0.8) && Value("0.1") == Some(0.1);
    assert Value("0.72") == Some(0.72) && Value("0.88") == Some(0.88);
    assert Value("255") == Some(255.0) && Value("0") == Some(0.0);
  }

  /** Every preset's perihelion and aphelion agree with its a and e. */
  lemma PresetApsidesConsistent()
    ensures forall name | name in OrbitPresets :: ApsidesConsistent(OrbitPresets[name])
  {
    AmorReads();
    assert ApsidesConsistent(Amor);
    ApolloReads();
    assert ApsidesConsistent(Apollo);
    AtenReads();
    assert ApsidesConsistent(Aten);
    AtiraReads();
    assert ApsidesConsistent(Atira);
  }

  /** Every preset is elliptical, has a positive period, starts at mean
      anomaly 0 and keeps the common metadata. */
  lemma PresetsAreClosedOrbits()
    ensures forall name | name in OrbitPresets ::
      ClosedFromPerihelion(OrbitPresets[name]) &&
      OrbitPresets[name].orbitClass.orbitClassType == "GEN" &&
      OrbitPresets[name].perihelionTime.None?
  {
    assert ClosedFromPerihelion(Amor) by { AmorReads(); }
    assert ClosedFromPerihelion(Apollo) by { ApolloReads(); }
    assert ClosedFromPerihelion(Aten) by { AtenReads(); }
    assert ClosedFromPerihelion(Atira) by { AtiraReads(); }
  }

  /** Each preset belongs to the class it is named after and to no other. */
  lemma PresetsMatchTheirClass()
    ensures IsAmor(Amor) && !IsApollo(Amor) && !IsAten(Amor) && !IsAtira(Amor)
    ensures IsApollo(Apollo) && !IsAmor(Apollo) && !IsAten(Apollo) && !IsAtira(Apollo)
    ensures IsAten(Aten) && !IsAmor(Aten) && !IsApollo(Aten) && !IsAtira(Aten)
    ensures IsAtira(Atira) && !IsAmor(Atira) && !IsApollo(Atira) && !IsAten(Atira)
  {
    AmorReads(); ApolloReads(); AtenReads(); AtiraReads();
  }
}
