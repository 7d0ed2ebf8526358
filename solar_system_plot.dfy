/** The plot of close approaches around the Sun. The approaches of each of the
    eight planets are grouped, sorted by lunar distance, and given a side of
    their planet (+1 ahead, -1 behind) by shuffling an alternating list of
    sides with a generator seeded from the approaches' epochs. */
module SolarSystemPlot {
  import opened Lists
  import opened Sorting
  import opened NeoTypes

  /** How a planet is drawn: orbit radius and dot size in pixels, colour and
      orbital period in years. */
  datatype PlanetStyle = PlanetStyle(radius: int, color: string, size: int, period: real)

  const PlanetStyles: map<string, PlanetStyle> := map[
    "Mercury" := PlanetStyle(51, "#a8a29e", 10, 0.24),
    "Venus" := PlanetStyle(94, "#f59e0b", 15, 0.62),
    "Earth" := PlanetStyle(128, "#3b82f6", 15, 1.0),
    "Mars" := PlanetStyle(170, "#ef4444", 12, 1.88),
    "Jupiter" := PlanetStyle(238, "#f97316", 41, 11.86),
    "Saturn" := PlanetStyle(306, "#eab308", 36, 29.46),
    "Uranus" := PlanetStyle(357, "#60a5fa", 26, 84.01),
    "Neptune" := PlanetStyle(400, "#8b5cf6", 26, 164.8)]

  predicate OnPlot(a: Approach) {
    a.body in PlanetStyles
  }

  /** The eight planets are drawn on strictly growing orbits. */
  lemma OrbitsNested()
    ensures PlanetStyles["Mercury"].radius < PlanetStyles["Venus"].radius < PlanetStyles["Earth"].radius
    ensures PlanetStyles["Earth"].radius < PlanetStyles["Mars"].radius < PlanetStyles["Jupiter"].radius
    ensures PlanetStyles["Jupiter"].radius < PlanetStyles["Saturn"].radius < PlanetStyles["Uranus"].radius
    ensures PlanetStyles["Uranus"].radius < PlanetStyles["Neptune"].radius
  {
  }

  // ---------------------------------------------------------------------
  // The seeded shuffle

  /** The fractional part `x - Math.floor(x)`. */
  function Frac(x: real): (r: real)
    ensures 0.0 <= r < 1.0
  {
    x - x.Floor as real
  }

  /** `pseudoRandom()` at `seed`: the fractional part of `noise(seed)`, where
      `noise` stands for `Math.sin(seed) * 10000`. */
  function PseudoRandom(noise: int -> real, seed: int): (r: real)
    ensures 0.0 <= r < 1.0
  {
    Frac(noise(seed))
  }

  /** `Math.floor(r * currentIndex)` for a draw r in [0, 1): always a cell of
      the unshuffled prefix. */
  function RandomIndex(r: real, currentIndex: nat): (i: nat)
    requires 0.0 <= r < 1.0 && currentIndex > 0
    ensures i < currentIndex
  {
    var c := currentIndex as real;
    assert c - r * c == (1.0 - r) * c;
    assert (1.0 - r) * c > 0.0;
    (r * c).Floor
  }

  /** Exchange two cells. */
  function Swap<T>(s: seq<T>, i: nat, j: nat): (r: seq<T>)
    requires i < |s| && j < |s|
    ensures |r| == |s|
  {
    s[i := s[j]][j := s[i]]
  }

  /** A swap permutes the cells. */
  lemma SwapPermutes<T>(s: seq<T>, i: nat, j: nat)
    requires i < |s| && j < |s|
    ensures multiset(Swap(s, i, j)) == multiset(s)
  {
    if i == j {
      assert Swap(s, i, j) == s;
    } else {
      assert multiset(s[i := s[j]]) == multiset(s) - multiset{s[i]} + multiset{s[j]};
    }
  }

  /** The rest of the shuffle with `currentIndex` cells still unshuffled and
      the generator at `seed`. */
  function ShuffleFrom<T>(s: seq<T>, noise: int -> real, seed: int, currentIndex: nat): (r: seq<T>)
    requires currentIndex <= |s|
    ensures |r| == |s|
    decreases currentIndex
  {
    if currentIndex == 0 then s
    else
      var randomIndex := RandomIndex(PseudoRandom(noise, seed), currentIndex);
      ShuffleFrom(Swap(s, currentIndex - 1, randomIndex), noise, seed + 1, currentIndex - 1)
  }

  /** Each step swaps two cells, so the rest of the shuffle permutes. */
  lemma {:induction false} ShuffleFromPermutes<T>(s: seq<T>, noise: int -> real, seed: int, currentIndex: nat)
    requires currentIndex <= |s|
    ensures multiset(ShuffleFrom(s, noise, seed, currentIndex)) == multiset(s)
    decreases currentIndex
  {
    if currentIndex > 0 {
      var t := Swap(s, currentIndex - 1, RandomIndex(PseudoRandom(noise, seed), currentIndex));
      SwapPermutes(s, currentIndex - 1, RandomIndex(PseudoRandom(noise, seed), currentIndex));
      var rest: nat := currentIndex - 1;
      ShuffleFromPermutes(t, noise, seed + 1, rest);
      assert ShuffleFrom(s, noise, seed, currentIndex) == ShuffleFrom(t, noise, seed + 1, rest);
    }
  }

  /** The whole shuffle: a permutation of its input. */
  function Shuffle<T>(s: seq<T>, noise: int -> real, seed: int): (r: seq<T>)
    ensures multiset(r) == multiset(s) && |r| == |s|
  {
    ShuffleFromPermutes(s, noise, seed, |s|);
    ShuffleFrom(s, noise, seed, |s|)
  }

  /** The shuffle draws exactly `currentIndex` numbers, at the seeds
      seed .. seed + currentIndex - 1: generators that agree there give the
      same result. */
  lemma {:induction false} ShuffleFromUsesOnlyItsSeeds<T>(s: seq<T>, noise: int -> real, other: int -> real, seed: int, currentIndex: nat)
    requires currentIndex <= |s|
    requires forall k | seed <= k < seed + currentIndex :: noise(k) == other(k)
    ensures ShuffleFrom(s, noise, seed, currentIndex) == ShuffleFrom(s, other, seed, currentIndex)
    decreases currentIndex
  {
    if currentIndex > 0 {
      var draw := PseudoRandom(noise, seed);
      assert draw == PseudoRandom(other, seed);
      var t := Swap(s, currentIndex - 1, RandomIndex(draw, currentIndex));
      ShuffleFromUsesOnlyItsSeeds(t, noise, other, seed + 1, currentIndex - 1);
    }
  }

  /** The shuffle of an array's cells in place, returning the same array. */
  method SeededShuffle<T>(a: array<T>, noise: int -> real, seed: int) returns (r: array<T>)
    modifies a
    ensures r == a
    ensures a[..] == Shuffle(old(a[..]), noise, seed)
  {
    var currentIndex := a.Length;
    var next := seed;
    while currentIndex != 0
      invariant 0 <= currentIndex <= a.Length
      invariant next == seed + (a.Length - currentIndex)
      invariant ShuffleFrom(a[..], noise, next, currentIndex) == Shuffle(old(a[..]), noise, seed)
      decreases currentIndex
    {
      ghost var before := a[..];
      var randomIndex := RandomIndex(PseudoRandom(noise, next), currentIndex);
      assert ShuffleFrom(before, noise, next, currentIndex)
          == ShuffleFrom(Swap(before, currentIndex - 1, randomIndex), noise, next + 1, currentIndex - 1);
      next := next + 1;
      currentIndex := currentIndex - 1;
      var moved := a[currentIndex];
      a[currentIndex] := a[randomIndex];
      a[randomIndex] := moved;
      assert a[..] == Swap(before, currentIndex, randomIndex);
    }
    r := a;
  }

  // ---------------------------------------------------------------------
  // Sides

  /** `apps.map((_, i) => i % 2 === 0 ? 1 : -1)`: +1 at even positions and
      -1 at odd ones. */
  function AlternatingSides(n: nat): (r: seq<int>)
    ensures |r| == n
    ensures forall i | 0 <= i < n :: r[i] == if i % 2 == 0 then 1 else -1
  {
    if n == 0 then [] else AlternatingSides(n - 1) + [if (n - 1) % 2 == 0 then 1 else -1]
  }

  /** Of n alternating sides, ceil(n/2) are +1 and floor(n/2) are -1. */
  lemma {:induction false} AlternatingSidesCount(n: nat)
    ensures multiset(AlternatingSides(n))[1] == (n + 1) / 2
    ensures multiset(AlternatingSides(n))[-1] == n / 2
  {
    if n > 0 {
      var m := n - 1;
      AlternatingSidesCount(m);
      var init := AlternatingSides(m);
      var v := if m % 2 == 0 then 1 else -1;
      assert AlternatingSides(n) == init + [v];
      assert multiset(init + [v]) == multiset(init) + multiset{v};
      var q := m / 2;
      if m % 2 == 0 {
        assert m == 2 * q;
        assert (n + 1) / 2 == q + 1 && (m + 1) / 2 == q && n / 2 == q;
      } else {
        assert m == 2 * q + 1;
        assert (n + 1) / 2 == q + 1 && (m + 1) / 2 == q + 1 && n / 2 == q + 1;
      }
    }
  }

  /** The shuffled sides of a planet keep those counts: ceil(n/2) approaches
      on one side and floor(n/2) on the other. */
  lemma ShuffledSidesCount(n: nat, noise: int -> real, seed: int)
    ensures multiset(Shuffle(AlternatingSides(n), noise, seed))[1] == (n + 1) / 2
    ensures multiset(Shuffle(AlternatingSides(n), noise, seed))[-1] == n / 2
  {
    AlternatingSidesCount(n);
  }

  /** Every shuffled side is still +1 or -1. */
  lemma ShuffledSidesAreSides(n: nat, noise: int -> real, seed: int)
    ensures forall i | 0 <= i < n :: IsSide(Shuffle(AlternatingSides(n), noise, seed)[i])
  {
    var sides := AlternatingSides(n);
    var r := Shuffle(sides, noise, seed);
    forall i | 0 <= i < n ensures IsSide(r[i]) {
      assert r[i] in multiset(sides);
    }
  }

  /** The seed `apps.reduce((acc, app) => acc + app.epoch, 0)`. */
  function SumEpochs(s: seq<Approach>): int {
    if s == [] then 0 else SumEpochs(s[..|s| - 1]) + s[|s| - 1].epoch
  }

  // ---------------------------------------------------------------------
  // Grouping and per-planet layout

  function OfBody(p: string): Approach -> bool {
    (a: Approach) => a.body == p
  }

  function LunarKey(a: Approach): real {
    a.lunar
  }

  /** The bucket of approaches of planet p, in input order. */
  function Bucket(s: seq<Approach>, p: string): (r: seq<Approach>)
    ensures forall i | 0 <= i < |r| :: r[i].body == p && r[i] in s
    ensures forall i | 0 <= i < |s| :: s[i].body == p ==> s[i] in r
  {
    Keep(s, OfBody(p))
  }

  /** The planets with approaches, in first-appearance order. */
  function PlotBodies(s: seq<Approach>): (r: seq<string>)
    ensures NoDuplicates(r)
  {
    if s == [] then []
    else
      var init := PlotBodies(s[..|s| - 1]);
      var x := s[|s| - 1];
      if OnPlot(x) && x.body !in init then init + [x.body] else init
  }

  /** The buckets after pushing every plotted approach of s in order. */
  function Groups(s: seq<Approach>): map<string, seq<Approach>> {
    if s == [] then map[]
    else
      var g := Groups(s[..|s| - 1]);
      var x := s[|s| - 1];
      if OnPlot(x) then g[x.body := (if x.body in g then g[x.body] else []) + [x]] else g
  }

  /** Every plotted approach has a bucket, and only plotted planets do. */
  lemma {:induction false} GroupsCover(s: seq<Approach>)
    ensures forall i | 0 <= i < |s| :: OnPlot(s[i]) ==> s[i].body in Groups(s)
    ensures forall p | p in Groups(s) :: p in PlanetStyles
  {
    if s != [] {
      var init := s[..|s| - 1];
      GroupsCover(init);
      forall i | 0 <= i < |s| - 1 ensures s[i] == init[i] {}
    }
  }

  /** The buckets are created in the order the planets first appear. */
  lemma {:induction false} GroupsKeys(s: seq<Approach>)
    ensures forall p :: p in Groups(s) <==> p in PlotBodies(s)
  {
    if s != [] {
      GroupsKeys(s[..|s| - 1]);
    }
  }

  /** Each bucket holds its planet's approaches in input order. */
  lemma {:induction false} GroupsContents(s: seq<Approach>)
    ensures forall p | p in Groups(s) :: Groups(s)[p] == Bucket(s, p) && Groups(s)[p] != []
  {
    if s != [] {
      var init, x := s[..|s| - 1], s[|s| - 1];
      assert s == init + [x];
      GroupsContents(init);
      GroupsCover(init);
      forall p | p in Groups(s) ensures Groups(s)[p] == Bucket(s, p) && Groups(s)[p] != [] {
        KeepSnoc(init, x, OfBody(p));
        if p !in Groups(init) {
          forall i | 0 <= i < |init| ensures !OfBody(p)(init[i]) {
            assert OnPlot(init[i]) ==> init[i].body in Groups(init);
          }
          KeepNone(init, OfBody(p));
        }
      }
    }
  }

  /** The buckets are exactly the plotted planets with approaches, in first-
      appearance order, and each holds its planet's approaches in input
      order. */
  lemma GroupsAreBuckets(s: seq<Approach>)
    ensures forall p :: p in Groups(s) <==> p in PlotBodies(s)
    ensures forall p | p in Groups(s) :: p in PlanetStyles && Groups(s)[p] == Bucket(s, p) && Groups(s)[p] != []
    ensures forall i | 0 <= i < |s| :: OnPlot(s[i]) ==> s[i].body in Groups(s)
  {
    GroupsCover(s);
    GroupsKeys(s);
    GroupsContents(s);
  }

  /** The `forEach` that pushes each plotted approach into its planet's
      bucket, creating the bucket on the planet's first approach. */
  method GroupByPlanet(approaches: seq<Approach>) returns (buckets: map<string, seq<Approach>>, order: seq<string>)
    ensures order == PlotBodies(approaches) && buckets == Groups(approaches)
    ensures forall p :: p in buckets <==> p in order
    ensures forall p | p in buckets :: p in PlanetStyles && buckets[p] == Bucket(approaches, p) && buckets[p] != []
    ensures forall i | 0 <= i < |approaches| :: OnPlot(approaches[i]) ==> approaches[i].body in buckets
  {
    buckets, order := map[], [];
    for i := 0 to |approaches|
      invariant order == PlotBodies(approaches[..i]) && buckets == Groups(approaches[..i])
    {
      var app := approaches[i];
      assert approaches[..i + 1][..i] == approaches[..i];
      GroupsAreBuckets(approaches[..i]);
      if OnPlot(app) {
        if app.body !in buckets {
          buckets := buckets[app.body := []];
          order := order + [app.body];
        }
        buckets := buckets[app.body := buckets[app.body] + [app]];
      }
    }
    assert approaches[..|approaches|] == approaches;
    GroupsAreBuckets(approaches);
  }

  /** `apps.length > 0 ? apps[apps.length - 1].lunar : 0`. */
  function MaxDist(bucket: seq<Approach>): real {
    if |bucket| > 0 then bucket[|bucket| - 1].lunar else 0.0
  }

  /** In a bucket sorted by distance the last distance is the largest. */
  lemma MaxDistIsMaximum(bucket: seq<Approach>)
    requires SortedBy(bucket, LunarKey)
    ensures forall i | 0 <= i < |bucket| :: bucket[i].lunar <= MaxDist(bucket)
  {
    forall i | 0 <= i < |bucket| ensures bucket[i].lunar <= MaxDist(bucket) {
      if i < |bucket| - 1 {
        assert LunarKey(bucket[i]) <= LunarKey(bucket[|bucket| - 1]);
      }
    }
  }

  /** The angle of an approach from its planet, as a fraction of pi:
      0 when the bucket's maximum is not positive, lunar / maxDist otherwise. */
  function DistFraction(lunar: real, maxDist: real): (r: real)
    ensures maxDist <= 0.0 ==> r == 0.0
    ensures 0.0 <= lunar <= maxDist ==> 0.0 <= r <= 1.0
  {
    if maxDist > 0.0 then lunar / maxDist else 0.0
  }

  /** For non-negative distances every approach of a sorted bucket is drawn
      within half a turn (pi) of its planet. */
  lemma DistAngleWithinHalfTurn(bucket: seq<Approach>)
    requires SortedBy(bucket, LunarKey)
    requires forall i | 0 <= i < |bucket| :: bucket[i].lunar >= 0.0
    ensures forall i | 0 <= i < |bucket| :: 0.0 <= DistFraction(bucket[i].lunar, MaxDist(bucket)) <= 1.0
  {
    MaxDistIsMaximum(bucket);
  }

  /** `sideAssignments.get(epoch) || 1`: a missing or zero side reads as +1. */
  function SideOf(assignments: map<int, int>, epoch: int): (r: int)
    ensures epoch !in assignments ==> r == 1
    ensures (forall e | e in assignments :: IsSide(assignments[e])) ==> IsSide(r)
  {
    if epoch in assignments && assignments[epoch] != 0 then assignments[epoch] else 1
  }

  /** `maxDistances.get(planet) || 0`. */
  function MaxDistOf(maxDists: map<string, real>, planet: string): (r: real)
    ensures planet !in maxDists ==> r == 0.0
    ensures planet in maxDists ==> r == maxDists[planet]
  {
    if planet in maxDists then maxDists[planet] else 0.0
  }

  predicate DistinctEpochs(s: seq<Approach>) {
    forall i, j | 0 <= i < j < |s| :: s[i].epoch != s[j].epoch
  }

  /** `seededShuffle(sides, seed)` on a fresh array of n alternating sides. */
  method ShuffledSides(n: nat, noise: int -> real, seed: int) returns (shuffled: seq<int>)
    ensures shuffled == Shuffle(AlternatingSides(n), noise, seed)
    ensures |shuffled| == n && forall i | 0 <= i < n :: IsSide(shuffled[i])
  {
    ShuffledSidesAreSides(n, noise, seed);
    var sides := AlternatingSides(n);
    var cells := new int[n](i requires 0 <= i < n => sides[i]);
    assert cells[..] == sides;
    var same := SeededShuffle(cells, noise, seed);
    shuffled := same[..];
  }

  predicate IsSide(v: int) {
    v == 1 || v == -1
  }

  /** The side map after recording, in order, side i for approach i. */
  function Recorded(apps: seq<Approach>, shuffled: seq<int>, m: map<int, int>): map<int, int>
    requires |shuffled| == |apps|
  {
    if apps == [] then m
    else
      var n := |apps| - 1;
      Recorded(apps[..n], shuffled[..n], m)[apps[n].epoch := shuffled[n]]
  }

  /** Recording keeps the earlier entries' keys and adds every approach's
      epoch. */
  lemma {:induction false} RecordedCovers(apps: seq<Approach>, shuffled: seq<int>, m: map<int, int>)
    requires |shuffled| == |apps|
    ensures m.Keys <= Recorded(apps, shuffled, m).Keys
    ensures forall i | 0 <= i < |apps| :: apps[i].epoch in Recorded(apps, shuffled, m)
  {
    if apps != [] {
      var n := |apps| - 1;
      RecordedCovers(apps[..n], shuffled[..n], m);
      assert forall i | 0 <= i < n :: apps[..n][i] == apps[i];
    }
  }

  /** Recording sides of +1 and -1 into a map of such sides leaves only
      such sides. */
  lemma {:induction false} RecordedSides(apps: seq<Approach>, shuffled: seq<int>, m: map<int, int>)
    requires |shuffled| == |apps|
    requires forall i | 0 <= i < |shuffled| :: IsSide(shuffled[i])
    requires forall e | e in m :: IsSide(m[e])
    ensures forall e | e in Recorded(apps, shuffled, m) :: IsSide(Recorded(apps, shuffled, m)[e])
  {
    if apps != [] {
      var n := |apps| - 1;
      assert forall i | 0 <= i < n :: shuffled[..n][i] == shuffled[i];
      RecordedSides(apps[..n], shuffled[..n], m);
      var prev := Recorded(apps[..n], shuffled[..n], m);
      var r := Recorded(apps, shuffled, m);
      assert r == prev[apps[n].epoch := shuffled[n]];
      forall e | e in r ensures IsSide(r[e]) {
        if e != apps[n].epoch {
          assert e in prev && r[e] == prev[e];
        } else {
          assert r[e] == shuffled[n];
        }
      }
    }
  }

  /** With distinct epochs, approach i ends up with exactly side i. */
  lemma {:induction false} RecordedValues(apps: seq<Approach>, shuffled: seq<int>, m: map<int, int>)
    requires |shuffled| == |apps|
    requires DistinctEpochs(apps)
    ensures var r := Recorded(apps, shuffled, m);
      forall i | 0 <= i < |apps| :: apps[i].epoch in r && r[apps[i].epoch] == shuffled[i]
  {
    if apps != [] {
      var n := |apps| - 1;
      var init := apps[..n];
      assert forall i, j | 0 <= i < j < n :: init[i] == apps[i] && init[j] == apps[j];
      RecordedValues(init, shuffled[..n], m);
      RecordedCovers(apps, shuffled, m);
      forall i | 0 <= i < n ensures Recorded(apps, shuffled, m)[apps[i].epoch] == shuffled[i] {
        assert apps[i].epoch != apps[n].epoch;
        assert init[i] == apps[i] && shuffled[..n][i] == shuffled[i];
      }
    }
  }

  /** An entry whose epoch is not among the approaches is left unchanged. */
  lemma {:induction false} RecordedLeavesOthers(apps: seq<Approach>, shuffled: seq<int>, m: map<int, int>, e: int)
    requires |shuffled| == |apps|
    requires e in m
    requires forall i | 0 <= i < |apps| :: apps[i].epoch != e
    ensures e in Recorded(apps, shuffled, m) && Recorded(apps, shuffled, m)[e] == m[e]
  {
    if apps != [] {
      var n := |apps| - 1;
      assert forall i | 0 <= i < n :: apps[..n][i] == apps[i];
      RecordedLeavesOthers(apps[..n], shuffled[..n], m, e);
    }
  }

  /** One planet's sides: approach i of the bucket gets side i of the
      shuffled sides, a later approach with the same epoch overwriting an
      earlier one. */
  method AssignSides(apps: seq<Approach>, shuffled: seq<int>, assignments: map<int, int>) returns (result: map<int, int>)
    requires |shuffled| == |apps|
    ensures result == Recorded(apps, shuffled, assignments)
  {
    result := assignments;
    for i := 0 to |apps|
      invariant result == Recorded(apps[..i], shuffled[..i], assignments)
    {
      assert apps[..i + 1][..i] == apps[..i] && shuffled[..i + 1][..i] == shuffled[..i];
      result := result[apps[i].epoch := shuffled[i]];
    }
    assert apps[..|apps|] == apps && shuffled[..|shuffled|] == shuffled;
  }

  /** The sides a planet's sorted bucket receives: the alternating sides
      shuffled with the sum of the bucket's epochs as seed. */
  function PlanetSides(apps: seq<Approach>, noise: int -> real): (r: seq<int>)
    ensures |r| == |apps|
  {
    Shuffle(AlternatingSides(|apps|), noise, SumEpochs(apps))
  }

  /** The buckets after processing the given planets in order: each one's
      bucket sorted by distance. */
  function SortedBuckets(groups: map<string, seq<Approach>>, planets: seq<string>): map<string, seq<Approach>>
    requires forall i | 0 <= i < |planets| :: planets[i] in groups
  {
    if planets == [] then map[]
    else
      var n := |planets| - 1;
      SortedBuckets(groups, planets[..n])[planets[n] := SortBy(groups[planets[n]], LunarKey)]
  }

  /** The largest distance of each processed planet's sorted bucket. */
  function MaxDistances(groups: map<string, seq<Approach>>, planets: seq<string>): map<string, real>
    requires forall i | 0 <= i < |planets| :: planets[i] in groups
  {
    if planets == [] then map[]
    else
      var n := |planets| - 1;
      MaxDistances(groups, planets[..n])[planets[n] := MaxDist(SortBy(groups[planets[n]], LunarKey))]
  }

  /** The sides after processing the given planets in order. */
  function Sides(groups: map<string, seq<Approach>>, planets: seq<string>, noise: int -> real): map<int, int>
    requires forall i | 0 <= i < |planets| :: planets[i] in groups
  {
    if planets == [] then map[]
    else
      var n := |planets| - 1;
      var apps := SortBy(groups[planets[n]], LunarKey);
      Recorded(apps, PlanetSides(apps, noise), Sides(groups, planets[..n], noise))
  }

  /** Processing the next planet of the order updates the three lookups
      for it alone. */
  lemma LayOutStep(groups: map<string, seq<Approach>>, order: seq<string>, k: nat, noise: int -> real)
    requires forall i | 0 <= i < |order| :: order[i] in groups
    requires k < |order|
    ensures var apps := SortBy(groups[order[k]], LunarKey);
      SortedBuckets(groups, order[..k + 1]) == SortedBuckets(groups, order[..k])[order[k] := apps] &&
      MaxDistances(groups, order[..k + 1]) == MaxDistances(groups, order[..k])[order[k] := MaxDist(apps)] &&
      Sides(groups, order[..k + 1], noise) == Recorded(apps, PlanetSides(apps, noise), Sides(groups, order[..k], noise))
  {
    assert order[..k + 1][..k] == order[..k];
  }

  /** The laid-out planets are exactly the processed ones, each with its
      sorted bucket. */
  lemma {:induction false} SortedBucketsOf(groups: map<string, seq<Approach>>, planets: seq<string>)
    requires forall i | 0 <= i < |planets| :: planets[i] in groups
    ensures var b := SortedBuckets(groups, planets);
      (forall p :: p in b <==> p in planets) &&
      (forall p | p in b :: p in groups && b[p] == SortBy(groups[p], LunarKey))
  {
    if planets != [] {
      var n := |planets| - 1;
      SortedBucketsOf(groups, planets[..n]);
      assert planets == planets[..n] + [planets[n]];
    }
  }

  /** Each processed planet's recorded distance is the last, and so the
      largest, of its sorted bucket. */
  lemma {:induction false} MaxDistancesOf(groups: map<string, seq<Approach>>, planets: seq<string>)
    requires forall i | 0 <= i < |planets| :: planets[i] in groups
    ensures var d := MaxDistances(groups, planets);
      (forall p :: p in d <==> p in planets) &&
      (forall p | p in d :: p in groups && d[p] == MaxDist(SortBy(groups[p], LunarKey)))
  {
    if planets != [] {
      var n := |planets| - 1;
      MaxDistancesOf(groups, planets[..n]);
      assert planets == planets[..n] + [planets[n]];
    }
  }

  /** Every side of the layout is +1 or -1. */
  lemma {:induction false} SidesAreSides(groups: map<string, seq<Approach>>, planets: seq<string>, noise: int -> real)
    requires forall i | 0 <= i < |planets| :: planets[i] in groups
    ensures forall e | e in Sides(groups, planets, noise) :: IsSide(Sides(groups, planets, noise)[e])
  {
    if planets != [] {
      var n := |planets| - 1;
      SidesAreSides(groups, planets[..n], noise);
      var apps := SortBy(groups[planets[n]], LunarKey);
      ShuffledSidesAreSides(|apps|, noise, SumEpochs(apps));
      RecordedSides(apps, PlanetSides(apps, noise), Sides(groups, planets[..n], noise));
    }
  }

  /** A permutation of a group covers what the group covers. */
  lemma PermutationCovered(group: seq<Approach>, apps: seq<Approach>, r: map<int, int>)
    requires multiset(apps) == multiset(group)
    requires forall j | 0 <= j < |apps| :: apps[j].epoch in r
    ensures forall i | 0 <= i < |group| :: group[i].epoch in r
  {
    forall i | 0 <= i < |group| ensures group[i].epoch in r {
      assert group[i] in multiset(apps);
      var j :| 0 <= j < |apps| && apps[j] == group[i];
    }
  }

  /** Processing one more planet keeps every earlier side's key and gives
      each of that planet's approaches a side. */
  lemma SidesStep(groups: map<string, seq<Approach>>, planets: seq<string>, noise: int -> real)
    requires planets != []
    requires forall i | 0 <= i < |planets| :: planets[i] in groups
    ensures Sides(groups, planets[..|planets| - 1], noise).Keys <= Sides(groups, planets, noise).Keys
    ensures var group := groups[planets[|planets| - 1]];
      forall i | 0 <= i < |group| :: group[i].epoch in Sides(groups, planets, noise)
  {
    var n := |planets| - 1;
    var prev := Sides(groups, planets[..n], noise);
    var apps := SortBy(groups[planets[n]], LunarKey);
    var r := Recorded(apps, PlanetSides(apps, noise), prev);
    assert r == Sides(groups, planets, noise);
    SortByCorrect(groups[planets[n]], LunarKey);
    RecordedCovers(apps, PlanetSides(apps, noise), prev);
    PermutationCovered(groups[planets[n]], apps, r);
  }

  /** Every approach of every processed planet has a side. */
  lemma {:induction false} SidesCover(groups: map<string, seq<Approach>>, planets: seq<string>, noise: int -> real)
    requires forall i | 0 <= i < |planets| :: planets[i] in groups
    ensures forall k, i | 0 <= k < |planets| && 0 <= i < |groups[planets[k]]| ::
      groups[planets[k]][i].epoch in Sides(groups, planets, noise)
  {
    if planets != [] {
      var n := |planets| - 1;
      var init := planets[..n];
      SidesCover(groups, init, noise);
      SidesStep(groups, planets, noise);
      var prev, r := Sides(groups, init, noise), Sides(groups, planets, noise);
      forall k, i | 0 <= k < |planets| && 0 <= i < |groups[planets[k]]| ensures groups[planets[k]][i].epoch in r {
        if k < n {
          assert init[k] == planets[k];
          assert groups[init[k]][i].epoch in prev;
        }
      }
    }
  }

  /** The layout of a list of approaches: its planets in first-appearance
      order over its buckets. */
  function PlotBuckets(approaches: seq<Approach>): map<string, seq<Approach>> {
    GroupsAreBuckets(approaches);
    SortedBuckets(Groups(approaches), PlotBodies(approaches))
  }

  function PlotMaxDistances(approaches: seq<Approach>): map<string, real> {
    GroupsAreBuckets(approaches);
    MaxDistances(Groups(approaches), PlotBodies(approaches))
  }

  function PlotSides(approaches: seq<Approach>, noise: int -> real): map<int, int> {
    GroupsAreBuckets(approaches);
    Sides(Groups(approaches), PlotBodies(approaches), noise)
  }

  /** A bucket for exactly the plotted planets, each holding its planet's
      approaches sorted by distance, with the bucket's largest distance. */
  lemma PlotBucketsSound(approaches: seq<Approach>)
    ensures var b := PlotBuckets(approaches);
      (forall p :: p in b <==> p in PlotBodies(approaches)) &&
      (forall p | p in b ::
        p in PlanetStyles && SortedBy(b[p], LunarKey) && multiset(b[p]) == multiset(Bucket(approaches, p)))
  {
    GroupsAreBuckets(approaches);
    SortedBucketsOf(Groups(approaches), PlotBodies(approaches));
    forall p | p in Groups(approaches) {
      SortByCorrect(Groups(approaches)[p], LunarKey);
    }
  }

  /** Each plotted planet's distance is the largest of its sorted bucket. */
  lemma PlotMaxDistancesSound(approaches: seq<Approach>)
    ensures var b, d := PlotBuckets(approaches), PlotMaxDistances(approaches);
      forall p | p in b :: p in d && d[p] == MaxDist(b[p])
  {
    GroupsAreBuckets(approaches);
    SortedBucketsOf(Groups(approaches), PlotBodies(approaches));
    MaxDistancesOf(Groups(approaches), PlotBodies(approaches));
  }

  /** Every plotted approach has a side, and every side is +1 or -1. */
  lemma PlotSidesSound(approaches: seq<Approach>, noise: int -> real)
    ensures var r := PlotSides(approaches, noise);
      (forall e | e in r :: IsSide(r[e])) &&
      (forall i | 0 <= i < |approaches| :: OnPlot(approaches[i]) ==> approaches[i].epoch in r)
  {
    var groups, planets := Groups(approaches), PlotBodies(approaches);
    GroupsAreBuckets(approaches);
    SidesAreSides(groups, planets, noise);
    SidesCover(groups, planets, noise);
    forall i | 0 <= i < |approaches| && OnPlot(approaches[i]) ensures approaches[i].epoch in Sides(groups, planets, noise) {
      var p := approaches[i].body;
      var k :| 0 <= k < |planets| && planets[k] == p;
      assert approaches[i] in Bucket(approaches, p);
      var j :| 0 <= j < |groups[p]| && groups[p][j] == approaches[i];
    }
  }

  /** One planet's sides: shuffle the bucket's alternating sides with the
      sum of its epochs as seed, then record them approach by approach. */
  method AssignPlanetSides(apps: seq<Approach>, noise: int -> real, sides: map<int, int>) returns (r: map<int, int>)
    ensures r == Recorded(apps, PlanetSides(apps, noise), sides)
  {
    var shuffled := ShuffledSides(|apps|, noise, SumEpochs(apps));
    r := AssignSides(apps, shuffled, sides);
  }

  /** The plot's per-planet loop: for each planet in order, sort its bucket
      by distance, record its largest distance, and give its approaches their
      shuffled sides. */
  method LayOutPlanets(groups: map<string, seq<Approach>>, order: seq<string>, noise: int -> real)
    returns (buckets: map<string, seq<Approach>>, maxDistances: map<string, real>, sideAssignments: map<int, int>)
    requires forall i | 0 <= i < |order| :: order[i] in groups
    ensures buckets == SortedBuckets(groups, order)
    ensures maxDistances == MaxDistances(groups, order)
    ensures sideAssignments == Sides(groups, order, noise)
  {
    buckets, maxDistances, sideAssignments := map[], map[], map[];
    for k := 0 to |order|
      invariant buckets == SortedBuckets(groups, order[..k])
      invariant maxDistances == MaxDistances(groups, order[..k])
      invariant sideAssignments == Sides(groups, order[..k], noise)
    {
      var planet := order[k];
      LayOutStep(groups, order, k, noise);
      var apps := SortBy(groups[planet], LunarKey);
      buckets := buckets[planet := apps];
      maxDistances := maxDistances[planet := MaxDist(apps)];
      sideAssignments := AssignPlanetSides(apps, noise, sideAssignments);
    }
    assert order[..|order|] == order;
  }

  /** The plot's `useMemo`: group the approaches by planet, then lay out
      each planet in first-appearance order. */
  method PlotLayout(approaches: seq<Approach>, noise: int -> real)
    returns (buckets: map<string, seq<Approach>>, maxDistances: map<string, real>, sideAssignments: map<int, int>)
    ensures buckets == PlotBuckets(approaches)
    ensures maxDistances == PlotMaxDistances(approaches)
    ensures sideAssignments == PlotSides(approaches, noise)
  {
    var groups, order := GroupByPlanet(approaches);
    buckets, maxDistances, sideAssignments := LayOutPlanets(groups, order, noise);
  }
}
