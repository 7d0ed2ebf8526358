/** The eight planets' J2000 orbital elements, kept as the decimal strings
    the orbit renderer reads with `parseFloat`, and the adapter that turns a
    planet's elements into a full orbital-data record. */
module PlanetaryData {
  import opened Common
  import opened NeoTypes
  import Decimal

  datatype PlanetaryOrbitalData = PlanetaryOrbitalData(
    semiMajorAxis: string,
    eccentricity: string,
    inclination: string,
    ascendingNodeLongitude: string,
    perihelionArgument: string)

  datatype Visualization = Visualization(color: string, size: real)

  datatype PlanetData = PlanetData(name: string, orbitalData: PlanetaryOrbitalData, visualization: Visualization)

  const Planets: seq<PlanetData> := [
    PlanetData("Mercury",
      PlanetaryOrbitalData("0.387098", "0.205630", "7.00487", "48.33167", "29.12420"),
      Visualization("#A9A9A9", 0.025)),
    PlanetData("Venus",
      PlanetaryOrbitalData("0.723332", "0.006772", "3.39458", "76.68069", "54.85229"),
      Visualization("#FFA500", 0.04)),
    PlanetData("Earth",
      PlanetaryOrbitalData("1.000000", "0.0167086", "0.00005", "-11.26064", "114.20783"),
      Visualization("#4B92DB", 0.042)),
    PlanetData("Mars",
      PlanetaryOrbitalData("1.523679", "0.09340062", "1.849726", "49.558093", "286.502390"),
      Visualization("#FF4500", 0.03)),
    PlanetData("Jupiter",
      PlanetaryOrbitalData("5.2044", "0.0489", "1.303", "100.46", "273.87"),
      Visualization("#D2B48C", 0.1)),
    PlanetData("Saturn",
      PlanetaryOrbitalData("9.5826", "0.0565", "2.485", "113.66", "339.39"),
      Visualization("#F0E68C", 0.09)),
    PlanetData("Uranus",
      PlanetaryOrbitalData("19.2184", "0.0457", "0.772", "74.00", "96.99"),
      Visualization("#ADD8E6", 0.07)),
    PlanetData("Neptune",
      PlanetaryOrbitalData("30.11", "0.0113", "1.770", "131.78", "276.34"),
      Visualization("#4169E1", 0.065))
  ]

  const PlanetNames: seq<string> :=
    ["Mercury", "Venus", "Earth", "Mars", "Jupiter", "Saturn", "Uranus", "Neptune"]

  /** A planet's elements completed with the empty or zero metadata of a
      planet record: no period and no mean anomaly, and orbit class PLA. */
  function AdaptPlanetDataToOrbitalData(d: PlanetaryOrbitalData): (r: OrbitalData)
    ensures Decimal.Parse(r.orbitalPeriod) == Some(0.0)
    ensures Decimal.Parse(r.meanAnomaly) == Some(0.0)
    ensures r.dataArcInDays == 0 && r.observationsUsed == 0
    ensures r.orbitClass.orbitClassType == "PLA" && r.orbitClass.orbitClassDescription == "Planet"
  {
    OrbitalData(
      orbitId := "0",
      orbitDeterminationDate := "",
      firstObservationDate := "",
      lastObservationDate := "",
      dataArcInDays := 0,
      observationsUsed := 0,
      orbitUncertainty := "0",
      minimumOrbitIntersection := "0",
      jupiterTisserandInvariant := "",
      epochOsculation := "",
      eccentricity := d.eccentricity,
      semiMajorAxis := d.semiMajorAxis,
      inclination := d.inclination,
      ascendingNodeLongitude := d.ascendingNodeLongitude,
      orbitalPeriod := "0",
      perihelionDistance := "0",
      perihelionArgument := d.perihelionArgument,
      aphelionDistance := "0",
      perihelionTime := Some("0"),
      meanAnomaly := "0",
      meanMotion := "0",
      equinox := "",
      orbitClass := OrbitClass("PLA", "Planet", ""))
  }

  /** The five orbital elements of a full record. */
  function ElementsOf(o: OrbitalData): PlanetaryOrbitalData {
    PlanetaryOrbitalData(o.semiMajorAxis, o.eccentricity, o.inclination, o.ascendingNodeLongitude, o.perihelionArgument)
  }

  /** The adapter copies the five elements unchanged. */
  lemma AdaptKeepsElements(d: PlanetaryOrbitalData)
    ensures ElementsOf(AdaptPlanetDataToOrbitalData(d)) == d
  {
  }

  /** The table lists exactly the eight planets, from Mercury outwards. */
  lemma PlanetsInOrder()
    ensures |Planets| == 8
    ensures forall i | 0 <= i < 8 :: Planets[i].name == PlanetNames[i]
  {
  }

  /** Every planet's eccentricity reads as a value in [0, 1), as the
      elliptical orbit formula that consumes it needs. */
  lemma PlanetEccentricitiesElliptic()
    ensures forall i | 0 <= i < |Planets| ::
      var e := Decimal.Parse(Planets[i].orbitalData.eccentricity);
      e.Some? && 0.0 <= e.value < 1.0
  {
    forall i | 0 <= i < |Planets|
      ensures var e := Decimal.Parse(Planets[i].orbitalData.eccentricity); e.Some? && 0.0 <= e.value < 1.0
    {
      Decimal.ZeroPointBelowOne(Planets[i].orbitalData.eccentricity);
    }
  }
}
