/** The close-approach history page: it ingests an asteroid's approaches,
    derives the year bounds and the planet set offered by the filter panel,
    filters by year range and planet, sorts by date or distance, and keeps
    the selection, the range, the planet set and the sort order as state. */
module HistoricalPage {
  import opened Common
  import opened Lists
  import opened Sorting
  import opened NeoTypes
  import opened ApproachFilterMenu

  /** The feed's abbreviated body names and their full names. */
  const PlanetNameMap: map<string, string> := map[
    "Merc" := "Mercury", "Ven" := "Venus", "Ear" := "Earth", "Mar" := "Mars",
    "Jup" := "Jupiter", "Sat" := "Saturn", "Ura" := "Uranus", "Nep" := "Neptune"]

  /** The full name of an abbreviated body; any other name is kept. */
  function NormalizePlanetName(name: string): (r: string)
    ensures r == name || (name in PlanetNameMap && r == PlanetNameMap[name])
    ensures r == "Moon" <==> name == "Moon"
  {
    if name in PlanetNameMap && PlanetNameMap[name] != "" then PlanetNameMap[name] else name
  }

  /** Normalising twice is normalising once: no full name is an
      abbreviation. */
  lemma NormalizeIdempotent(name: string)
    ensures NormalizePlanetName(NormalizePlanetName(name)) == NormalizePlanetName(name)
  {
  }

  /** The eight abbreviations map to the eight planets. */
  lemma NormalizeAbbreviations()
    ensures NormalizePlanetName("Merc") == "Mercury" && NormalizePlanetName("Ven") == "Venus"
    ensures NormalizePlanetName("Ear") == "Earth" && NormalizePlanetName("Mar") == "Mars"
    ensures NormalizePlanetName("Jup") == "Jupiter" && NormalizePlanetName("Sat") == "Saturn"
    ensures NormalizePlanetName("Ura") == "Uranus" && NormalizePlanetName("Nep") == "Neptune"
  {
  }

  function NormalizeApproach(a: Approach): Approach {
    a.(body := NormalizePlanetName(a.body))
  }

  predicate NotMoon(a: Approach) {
    a.body != "Moon"
  }

  function EpochKey(a: Approach): real {
    a.epoch as real
  }

  /** The approaches that are not of the Moon, with normalised body names, in
      feed order. */
  function Normalized(data: seq<Approach>): (r: seq<Approach>)
    ensures |r| == |Keep(data, NotMoon)|
    ensures forall i | 0 <= i < |r| :: r[i].body != "Moon"
  {
    var kept := Keep(data, NotMoon);
    seq(|kept|, i requires 0 <= i < |kept| => NormalizeApproach(kept[i]))
  }

  /** What the page keeps of a feed: the approaches that are not of the Moon,
      with normalised names, sorted by epoch, earliest first. */
  function Ingest(data: seq<Approach>): (r: seq<Approach>)
    ensures |r| == |Normalized(data)|
  {
    SortBy(Normalized(data), EpochKey)
  }

  /** The ingested list is sorted by epoch and holds exactly the normalised
      approaches. */
  lemma IngestCorrect(data: seq<Approach>)
    ensures SortedBy(Ingest(data), EpochKey)
    ensures multiset(Ingest(data)) == multiset(Normalized(data))
  {
    SortByCorrect(Normalized(data), EpochKey);
  }

  /** No ingested approach is of the Moon, and every one is an input
      approach with its body name normalised. */
  lemma IngestDropsMoon(data: seq<Approach>)
    ensures forall i | 0 <= i < |Ingest(data)| ::
      Ingest(data)[i].body != "Moon" &&
      exists a | a in data :: a.body != "Moon" && Ingest(data)[i] == NormalizeApproach(a)
  {
    var r, n := Ingest(data), Normalized(data);
    var kept := Keep(data, NotMoon);
    IngestCorrect(data);
    forall i | 0 <= i < |r|
      ensures r[i].body != "Moon"
      ensures exists a | a in data :: a.body != "Moon" && r[i] == NormalizeApproach(a)
    {
      assert r[i] in multiset(r);
      assert r[i] in multiset(n);
      var j :| 0 <= j < |n| && n[j] == r[i];
      assert kept[j] in data && kept[j].body != "Moon";
    }
  }

  /** The sort keeps every approach of each epoch in feed order. */
  lemma IngestStable(data: seq<Approach>, epoch: real)
    ensures Keep(Ingest(data), KeyIs(EpochKey, epoch)) == Keep(Normalized(data), KeyIs(EpochKey, epoch))
  {
    SortByStable(Normalized(data), EpochKey, epoch);
  }

  /** The bodies of a list of approaches, in order. */
  function Bodies(s: seq<Approach>): (r: seq<string>)
    ensures |r| == |s| && forall i | 0 <= i < |s| :: r[i] == s[i].body
  {
    seq(|s|, i requires 0 <= i < |s| => s[i].body)
  }

  /** `Math.min` over the years of a non-empty list. */
  function MinYear(s: seq<Approach>): (m: int)
    requires s != []
    ensures forall i | 0 <= i < |s| :: m <= s[i].year
    ensures exists i | 0 <= i < |s| :: s[i].year == m
  {
    if |s| == 1 then s[0].year
    else
      var m := MinYear(s[1..]);
      assert forall i | 1 <= i < |s| :: s[i] == s[1..][i - 1];
      if s[0].year <= m then s[0].year else m
  }

  /** `Math.max` over the years of a non-empty list. */
  function MaxYear(s: seq<Approach>): (m: int)
    requires s != []
    ensures forall i | 0 <= i < |s| :: s[i].year <= m
    ensures exists i | 0 <= i < |s| :: s[i].year == m
  {
    if |s| == 1 then s[0].year
    else
      var m := MaxYear(s[1..]);
      assert forall i | 1 <= i < |s| :: s[i] == s[1..][i - 1];
      if s[0].year >= m then s[0].year else m
  }

  /** The slider bounds and the planet buttons offered by the filter panel. */
  datatype Bounds = Bounds(minYear: int, maxYear: int, availablePlanets: seq<string>)

  /** No approaches give the bounds 0..0 and no planets; otherwise the
      smallest and largest year and each body once, in first-appearance
      order. */
  function DeriveBounds(all: seq<Approach>): (b: Bounds)
    ensures all == [] ==> b == Bounds(0, 0, [])
    ensures all != [] ==> b.minYear <= b.maxYear
    ensures all != [] ==> forall i | 0 <= i < |all| :: b.minYear <= all[i].year <= b.maxYear
    ensures NoDuplicates(b.availablePlanets)
    ensures forall i | 0 <= i < |all| :: all[i].body in b.availablePlanets
    ensures forall i | 0 <= i < |b.availablePlanets| :: b.availablePlanets[i] in Bodies(all)
    ensures all != [] ==> b.minYear == MinYear(all) && b.maxYear == MaxYear(all)
    ensures b.availablePlanets == Distinct(Bodies(all))
  {
    if all == [] then Bounds(0, 0, [])
    else Bounds(MinYear(all), MaxYear(all), Distinct(Bodies(all)))
  }

  /** The filter test: the year lies in the range and the body is selected. */
  predicate InFilter(a: Approach, yearRange: (int, int), selectedPlanets: seq<string>) {
    yearRange.0 <= a.year <= yearRange.1 && a.body in selectedPlanets
  }

  /** The approaches that pass the filter, in their original order. */
  function FilterApproaches(all: seq<Approach>, yearRange: (int, int), selectedPlanets: seq<string>): (r: seq<Approach>)
    ensures IsSubsequence(r, all)
    ensures forall i | 0 <= i < |r| :: InFilter(r[i], yearRange, selectedPlanets)
    ensures forall i | 0 <= i < |all| :: InFilter(all[i], yearRange, selectedPlanets) ==> all[i] in r
    ensures forall a :: multiset(r)[a] == if InFilter(a, yearRange, selectedPlanets) then multiset(all)[a] else 0
  {
    KeepIsSubsequence(all, a => InFilter(a, yearRange, selectedPlanets));
    KeepCounts(all, a => InFilter(a, yearRange, selectedPlanets));
    Keep(all, a => InFilter(a, yearRange, selectedPlanets))
  }

  /** With the range and the planets a load sets, nothing is filtered out. */
  lemma {:induction false} LoadedFilterKeepsAll(all: seq<Approach>)
    requires all != []
    ensures FilterApproaches(all, (MinYear(all), MaxYear(all)), Distinct(Bodies(all))) == all
  {
    var range, planets := (MinYear(all), MaxYear(all)), Distinct(Bodies(all));
    forall i | 0 <= i < |all| ensures InFilter(all[i], range, planets) {
      assert Bodies(all)[i] == all[i].body;
    }
    KeepAll(all, a => InFilter(a, range, planets));
  }

  /** After a load every ingested approach is displayed, in some order. */
  lemma LoadedShowsAll(all: seq<Approach>, config: SortConfig)
    requires all != []
    ensures multiset(SortApproaches(FilterApproaches(all, (MinYear(all), MaxYear(all)), Distinct(Bodies(all))), config)) == multiset(all)
  {
    LoadedFilterKeepsAll(all);
  }

  /** The sorted-by value: the epoch for Date, the kilometres for Distance. */
  function SortValue(key: SortKey, a: Approach): real {
    if key == Date then a.epoch as real else a.km
  }

  /** The comparator `valA - valB` (ascending) or `valB - valA` (descending)
      as the key of a numeric sort. */
  function RankOf(config: SortConfig): Approach -> real {
    a => if config.direction == Asc then SortValue(config.key, a) else -SortValue(config.key, a)
  }

  /** The displayed order: a sorted copy of the filtered approaches. */
  function SortApproaches(s: seq<Approach>, config: SortConfig): (r: seq<Approach>)
    ensures multiset(r) == multiset(s)
    ensures config.direction == Asc ==>
      forall i, j | 0 <= i < j < |r| :: SortValue(config.key, r[i]) <= SortValue(config.key, r[j])
    ensures config.direction == Desc ==>
      forall i, j | 0 <= i < j < |r| :: SortValue(config.key, r[i]) >= SortValue(config.key, r[j])
  {
    var r := SortBy(s, RankOf(config));
    SortByCorrect(s, RankOf(config));
    assert forall i, j | 0 <= i < j < |r| :: RankOf(config)(r[i]) <= RankOf(config)(r[j]);
    r
  }

  /** Approaches with the same sort value keep their filtered order. */
  lemma SortApproachesStable(s: seq<Approach>, config: SortConfig, v: real)
    ensures Keep(SortApproaches(s, config), KeyIs(RankOf(config), v)) == Keep(s, KeyIs(RankOf(config), v))
  {
    SortByStable(s, RankOf(config), v);
  }

  /** The sort order after a click on a sort button: that key, with the
      direction flipped when the key was already active and descending
      otherwise. */
  function NextSortConfig(prev: SortConfig, key: SortKey): (r: SortConfig)
    ensures r.key == key
    ensures prev.key == key ==> r.direction != prev.direction
    ensures prev.key != key ==> r.direction == Desc
  {
    var direction := if prev.key == key then (if prev.direction == Asc then Desc else Asc) else Desc;
    SortConfig(key, direction)
  }

  /** Two clicks on the active key restore the sort order. */
  lemma SortClickTwice(prev: SortConfig)
    ensures NextSortConfig(NextSortConfig(prev, prev.key), prev.key) == prev
  {
  }

  /** The selection after a click on an approach: the same approach
      deselects, any other is selected. */
  function NextSelection(prev: Option<int>, epoch: int): (r: Option<int>)
    ensures r == None <==> prev == Some(epoch)
    ensures r != None ==> r == Some(epoch)
  {
    if prev == Some(epoch) then None else Some(epoch)
  }

  /** Two clicks on an approach that was not selected deselect it. */
  lemma SelectTwiceClears(prev: Option<int>, epoch: int)
    requires prev != Some(epoch)
    ensures NextSelection(NextSelection(prev, epoch), epoch) == None
  {
  }

  /** The page's state. */
  class HistoricalView {
    var allApproaches: seq<Approach>
    var selectedApproachEpoch: Option<int>
    var yearRange: (int, int)
    var selectedPlanets: seq<string>
    var sortConfig: SortConfig

    constructor ()
      ensures allApproaches == [] && selectedApproachEpoch == None
      ensures yearRange == (0, 0) && selectedPlanets == []
      ensures sortConfig == SortConfig(Date, Desc)
    {
      allApproaches := [];
      selectedApproachEpoch := None;
      yearRange := (0, 0);
      selectedPlanets := [];
      sortConfig := SortConfig(Date, Desc);
    }

    /** The bounds and planet buttons handed to the filter panel. */
    function PanelBounds(): Bounds
      reads this
    {
      DeriveBounds(allApproaches)
    }

    /** The approaches shown in the list and on the plot. */
    function Displayed(): seq<Approach>
      reads this
    {
      SortApproaches(FilterApproaches(allApproaches, yearRange, selectedPlanets), sortConfig)
    }

    /** A successful fetch: the ingested approaches replace the old ones and,
        when there are any, the range spans all their years and every body is
        selected, so all of them are shown (LoadedShowsAll). */
    method Load(data: seq<Approach>)
      modifies this
      ensures allApproaches == Ingest(data)
      ensures allApproaches != [] ==>
        yearRange == (MinYear(allApproaches), MaxYear(allApproaches)) &&
        selectedPlanets == Distinct(Bodies(allApproaches))
      ensures allApproaches == [] ==> yearRange == old(yearRange) && selectedPlanets == old(selectedPlanets)
      ensures unchanged(this`selectedApproachEpoch, this`sortConfig)
    {
      var ingested := Ingest(data);
      if ingested == [] {
        allApproaches := ingested;
      } else {
        allApproaches, yearRange, selectedPlanets :=
          ingested, (MinYear(ingested), MaxYear(ingested)), Distinct(Bodies(ingested));
      }
    }

    method SelectApproach(epoch: int)
      modifies this
      ensures selectedApproachEpoch == NextSelection(old(selectedApproachEpoch), epoch)
      ensures unchanged(this`allApproaches, this`yearRange, this`selectedPlanets, this`sortConfig)
    {
      selectedApproachEpoch := NextSelection(selectedApproachEpoch, epoch);
    }

    /** A committed year range replaces the range and clears the selection. */
    method YearChange(newRange: (int, int))
      modifies this
      ensures yearRange == newRange && selectedApproachEpoch == None
      ensures unchanged(this`allApproaches, this`selectedPlanets, this`sortConfig)
    {
      yearRange := newRange;
      selectedApproachEpoch := None;
    }

    /** A new planet selection replaces the old one and clears the selection. */
    method PlanetChange(newPlanets: seq<string>)
      modifies this
      ensures selectedPlanets == newPlanets && selectedApproachEpoch == None
      ensures unchanged(this`allApproaches, this`yearRange, this`sortConfig)
    {
      selectedPlanets := newPlanets;
      selectedApproachEpoch := None;
    }

    method SortChange(key: SortKey)
      modifies this
      ensures sortConfig == NextSortConfig(old(sortConfig), key)
      ensures unchanged(this`allApproaches, this`yearRange, this`selectedPlanets, this`selectedApproachEpoch)
    {
      sortConfig := NextSortConfig(sortConfig, key);
    }
  }
}
