/** Record shapes exchanged between the pages: the NASA close-approach and
    orbital-element records and the explorer's catalogue entries. Numeric
    fields that the feed delivers as decimal strings stay strings here where
    the components copy them around, and become `real` where the components
    only ever read them through `parseFloat`. */
module NeoTypes {
  import opened Common

  datatype OrbitClass = OrbitClass(orbitClassType: string, orbitClassDescription: string, orbitClassRange: string)

  /** The orbital-data record of a near-Earth object. `perihelionTime` is
      optional because the orbit presets never set it. */
  datatype OrbitalData = OrbitalData(
    orbitId: string,
    orbitDeterminationDate: string,
    firstObservationDate: string,
    lastObservationDate: string,
    dataArcInDays: int,
    observationsUsed: int,
    orbitUncertainty: string,
    minimumOrbitIntersection: string,
    jupiterTisserandInvariant: string,
    epochOsculation: string,
    eccentricity: string,
    semiMajorAxis: string,
    inclination: string,
    ascendingNodeLongitude: string,
    orbitalPeriod: string,
    perihelionDistance: string,
    perihelionArgument: string,
    aphelionDistance: string,
    perihelionTime: Option<string>,
    meanAnomaly: string,
    meanMotion: string,
    equinox: string,
    orbitClass: OrbitClass)

  /** One close approach of an asteroid to a body. `year` is the calendar year
      of `close_approach_date_full`; `lunar` and `km` are the parsed miss
      distances in lunar distances and kilometres. */
  datatype Approach = Approach(epoch: int, year: int, body: string, lunar: real, km: real)

  datatype ObjectType = Asteroid | Comet | DwarfPlanet | Meteoroid

  /** A catalogue entry of the explorer. */
  datatype SpaceObject = SpaceObject(id: string, name: string, kind: ObjectType, diameterKm: real, isPotentiallyHazardous: bool)
}
