/** The orbit animation of an object's detail view: an ellipse drawn in a
    280-pixel box with the Sun at one focus, scaled down to fit when the
    orbit is very eccentric, and one lap taking a clamped number of seconds
    divided by the chosen speed. */
module TrajectorySimulation {
  import opened Common

  function Max(x: real, y: real): real {
    if x >= y then x else y
  }

  function Min(x: real, y: real): real {
    if x <= y then x else y
  }

  function Abs(x: real): real {
    if x >= 0.0 then x else -x
  }

  /** `basePeriod`: two seconds per year of the orbital period, kept
      between 5 and 20 seconds. */
  function BasePeriod(orbitalPeriodDays: real): (p: real)
    ensures 5.0 <= p <= 20.0
    ensures 5.0 <= orbitalPeriodDays / 365.0 * 2.0 <= 20.0 ==> p == orbitalPeriodDays / 365.0 * 2.0
    ensures orbitalPeriodDays / 365.0 * 2.0 < 5.0 ==> p == 5.0
    ensures orbitalPeriodDays / 365.0 * 2.0 > 20.0 ==> p == 20.0
  {
    Max(5.0, Min(20.0, orbitalPeriodDays / 365.0 * 2.0))
  }

  /** A longer orbit never animates faster. */
  lemma BasePeriodMonotone(d1: real, d2: real)
    requires d1 <= d2
    ensures BasePeriod(d1) <= BasePeriod(d2)
  {
    assert d1 / 365.0 * 2.0 <= d2 / 365.0 * 2.0;
  }

  /** `orbitalPeriod = basePeriod / speed`. A zero speed gives JavaScript's
      `Infinity`, which is None here. */
  function OrbitalPeriod(orbitalPeriodDays: real, speed: real): (r: Option<real>)
    ensures r.Some? <==> speed != 0.0
    ensures r.Some? ==> r.value * speed == BasePeriod(orbitalPeriodDays)
  {
    if speed == 0.0 then None else Some(BasePeriod(orbitalPeriodDays) / speed)
  }

  /** A faster positive speed makes a shorter lap. */
  lemma FasterIsShorter(days: real, s1: real, s2: real)
    requires 0.0 < s1 <= s2
    ensures OrbitalPeriod(days, s2).value <= OrbitalPeriod(days, s1).value
  {
    var b := BasePeriod(days);
    var p1, p2 := b / s1, b / s2;
    assert p1 * s1 == b && p2 * s2 == b;
    assert p2 >= 0.0;
    assert p2 * s1 <= p2 * s2;
    assert (p1 - p2) * s1 >= 0.0;
  }

  const ContainerSize: real := 280.0

  /** The semi-major axis drawn: 90% of half the box. */
  const A: real := ContainerSize / 2.0 * 0.9

  /** The Sun's distance from the centre of the ellipse. */
  function FocusOffset(eccentricity: real): (f: real)
    ensures Abs(f) == A * Abs(eccentricity)
  {
    A * eccentricity
  }

  /** `scale`: 1 while the ellipse and the Sun's offset fit in half the box,
      and the factor that makes them fit otherwise. */
  function Scale(eccentricity: real): (s: real)
    ensures 0.0 < s <= 1.0
    ensures A + Abs(FocusOffset(eccentricity)) <= ContainerSize / 2.0 ==> s == 1.0
    ensures (A + Abs(FocusOffset(eccentricity))) * s <= ContainerSize / 2.0
  {
    var required := A + Abs(FocusOffset(eccentricity));
    if required > ContainerSize / 2.0 then
      FitBelowOne(ContainerSize / 2.0, required);
      (ContainerSize / 2.0) / required
    else 1.0
  }

  /** Half the box divided by a larger width is a factor below one that
      scales the width down to exactly half the box, and it is positive
      while half the box is. */
  lemma FitBelowOne(half: real, required: real)
    requires 0.0 <= half < required
    ensures 0.0 <= half / required < 1.0
    ensures required * (half / required) == half
    ensures half > 0.0 ==> half / required > 0.0
  {
  }

  /** The drawn axis is 126 pixels, and an eccentricity up to 1/9 needs no
      scaling. */
  lemma AxisAndThreshold(eccentricity: real)
    ensures A == 126.0
    ensures -1.0 / 9.0 <= eccentricity <= 1.0 / 9.0 ==> Scale(eccentricity) == 1.0
    ensures Abs(eccentricity) > 1.0 / 9.0 ==> Scale(eccentricity) < 1.0
  {
  }
}
