/** The filter panel of the close-approach history: the sort buttons with
    their direction arrow, the year slider with its local range, and the
    planet buttons that add or remove a planet from the selection. */
module ApproachFilterMenu {
  import opened Lists

  datatype SortKey = Date | Distance
  datatype SortDirection = Asc | Desc
  datatype SortConfig = SortConfig(key: SortKey, direction: SortDirection)

  /** The icon drawn beside a sort button. */
  datatype Arrow = NoArrow | ArrowUp | ArrowDown

  /** The arrow beside the button for `forKey`: none unless that key is the
      active one, then up for ascending and down for descending. */
  function SortArrow(config: SortConfig, forKey: SortKey): (r: Arrow)
    ensures r == NoArrow <==> config.key != forKey
    ensures r == ArrowUp <==> config.key == forKey && config.direction == Asc
    ensures r == ArrowDown <==> config.key == forKey && config.direction == Desc
  {
    if config.key != forKey then NoArrow
    else if config.direction.Asc? then ArrowUp
    else ArrowDown
  }

  /** Of the two sort buttons, exactly one carries an arrow. */
  lemma ExactlyOneArrow(config: SortConfig)
    ensures (SortArrow(config, Date) != NoArrow) != (SortArrow(config, Distance) != NoArrow)
  {
  }

  /** The selection after a click on a planet's button: a selected planet is
      removed, every other entry keeping its place; an unselected one is
      appended at the end. */
  function TogglePlanet(selected: seq<string>, planet: string): (r: seq<string>)
    ensures planet in r <==> planet !in selected
    ensures forall p | p != planet :: p in r <==> p in selected
    ensures planet in selected ==> IsSubsequence(r, selected)
    ensures planet !in selected ==> r == selected + [planet]
  {
    if planet in selected then
      KeepIsSubsequence(selected, p => p != planet);
      Keep(selected, p => p != planet)
    else selected + [planet]
  }

  /** A click on a planet that was not selected, then a second click on it,
      restore the selection exactly. */
  lemma {:induction false} ToggleUnselectedTwice(selected: seq<string>, planet: string)
    requires planet !in selected
    ensures TogglePlanet(TogglePlanet(selected, planet), planet) == selected
  {
    var p := (x: string) => x != planet;
    KeepAppend(selected, [planet], p);
    KeepAll(selected, p);
    assert Keep([planet], p) == [];
  }

  /** Two clicks on any planet restore which planets are selected. */
  lemma ToggleTwiceRestoresMembership(selected: seq<string>, planet: string, p: string)
    ensures p in TogglePlanet(TogglePlanet(selected, planet), planet) <==> p in selected
  {
  }

  /** The slider's local state: the range it shows, which follows the
      dragging, and is reset whenever the page hands down a new range. */
  class FilterMenu {
    var selectedYears: (int, int)

    constructor (initialRange: (int, int))
      ensures selectedYears == initialRange
    {
      selectedYears := initialRange;
    }

    /** Dragging the slider moves the shown range and notifies no one. */
    method YearValueChange(value: (int, int))
      modifies this
      ensures selectedYears == value
    {
      selectedYears := value;
    }

    /** Releasing the slider hands the range to the page and leaves the
        local state alone. */
    method YearCommit(value: (int, int)) returns (notified: (int, int))
      ensures notified == value
    {
      notified := value;
    }

    /** A new range from the page replaces the shown range. */
    method InitialRangeChanged(initialRange: (int, int))
      modifies this
      ensures selectedYears == initialRange
    {
      selectedYears := initialRange;
    }
  }
}
