/** The explorer's catalogue view: a search, type and hazard filter over the
    objects, the list of types offered in the type selector, and the object
    shown in the detail dialog. */
module MainView {
  import opened Common
  import opened Lists
  import opened NeoTypes
  import opened Strings

  /** The value of the type selector: 'all', or one object type. */
  datatype TypeFilter = AllTypes | OnlyType(kind: ObjectType)

  /** The lower-cased name includes the lower-cased search term. */
  predicate MatchesSearch(term: string, o: SpaceObject) {
    Contains(ToLower(o.name), ToLower(term))
  }

  predicate MatchesType(filter: TypeFilter, o: SpaceObject) {
    filter == AllTypes || filter == OnlyType(o.kind)
  }

  predicate MatchesHazard(showHazardous: bool, o: SpaceObject) {
    !showHazardous || o.isPotentiallyHazardous
  }

  predicate Shown(term: string, filter: TypeFilter, showHazardous: bool, o: SpaceObject) {
    MatchesSearch(term, o) && MatchesType(filter, o) && MatchesHazard(showHazardous, o)
  }

  function SearchIs(term: string): SpaceObject -> bool {
    (o: SpaceObject) => MatchesSearch(term, o)
  }

  function TypeIs(filter: TypeFilter): SpaceObject -> bool {
    (o: SpaceObject) => MatchesType(filter, o)
  }

  function HazardIs(showHazardous: bool): SpaceObject -> bool {
    (o: SpaceObject) => MatchesHazard(showHazardous, o)
  }

  /** `filteredObjects`: three `.filter` calls, by name, by type and by the
      hazard switch, in that order. */
  function FilterObjects(objects: seq<SpaceObject>, term: string, filter: TypeFilter, showHazardous: bool): (r: seq<SpaceObject>)
    ensures |r| <= |objects|
  {
    Keep(Keep(Keep(objects, SearchIs(term)), TypeIs(filter)), HazardIs(showHazardous))
  }

  /** An object is listed if and only if it is in the catalogue and passes
      all three filters. */
  lemma FilterObjectsIff(objects: seq<SpaceObject>, term: string, filter: TypeFilter, showHazardous: bool, o: SpaceObject)
    ensures o in FilterObjects(objects, term, filter, showHazardous) <==>
      o in objects && Shown(term, filter, showHazardous, o)
  {
    var bySearch := Keep(objects, SearchIs(term));
    var byType := Keep(bySearch, TypeIs(filter));
    var r := Keep(byType, HazardIs(showHazardous));
    if o in r {
      var i :| 0 <= i < |r| && r[i] == o;
      var j :| 0 <= j < |byType| && byType[j] == o;
      var k :| 0 <= k < |bySearch| && bySearch[k] == o;
      assert o in objects;
    }
    if o in objects && Shown(term, filter, showHazardous, o) {
      var k :| 0 <= k < |objects| && objects[k] == o;
      assert o in bySearch;
      var j :| 0 <= j < |bySearch| && bySearch[j] == o;
      assert o in byType;
      var i :| 0 <= i < |byType| && byType[i] == o;
      assert o in r;
    }
  }

  /** The listed objects keep their catalogue order. */
  lemma FilterObjectsIsSubsequence(objects: seq<SpaceObject>, term: string, filter: TypeFilter, showHazardous: bool)
    ensures IsSubsequence(FilterObjects(objects, term, filter, showHazardous), objects)
  {
    var bySearch := Keep(objects, SearchIs(term));
    var byType := Keep(bySearch, TypeIs(filter));
    KeepIsSubsequence(objects, SearchIs(term));
    KeepIsSubsequence(bySearch, TypeIs(filter));
    KeepIsSubsequence(byType, HazardIs(showHazardous));
    SubsequenceTransitive(byType, bySearch, objects);
    SubsequenceTransitive(Keep(byType, HazardIs(showHazardous)), byType, objects);
  }

  /** A listed object appears as often as in the catalogue, and an object
      that fails a filter not at all. */
  lemma FilterObjectsCounts(objects: seq<SpaceObject>, term: string, filter: TypeFilter, showHazardous: bool)
    ensures forall o ::
      multiset(FilterObjects(objects, term, filter, showHazardous))[o] ==
      if Shown(term, filter, showHazardous, o) then multiset(objects)[o] else 0
  {
    var bySearch := Keep(objects, SearchIs(term));
    var byType := Keep(bySearch, TypeIs(filter));
    KeepCounts(objects, SearchIs(term));
    KeepCounts(bySearch, TypeIs(filter));
    KeepCounts(byType, HazardIs(showHazardous));
  }

  /** An empty search, 'all' types and the switch off list the whole
      catalogue. */
  lemma DefaultFiltersShowAll(objects: seq<SpaceObject>)
    ensures FilterObjects(objects, "", AllTypes, false) == objects
  {
    assert ToLower("") == "";
    forall i | 0 <= i < |objects|
      ensures MatchesSearch("", objects[i])
    {
      ContainsEmptyAndSelf(ToLower(objects[i].name));
    }
    KeepAll(objects, SearchIs(""));
    KeepAll(objects, TypeIs(AllTypes));
    KeepAll(objects, HazardIs(false));
  }

  /** Turning the hazard switch on never lists more objects. */
  lemma HazardSwitchNarrows(objects: seq<SpaceObject>, term: string, filter: TypeFilter)
    ensures |FilterObjects(objects, term, filter, true)| <= |FilterObjects(objects, term, filter, false)|
  {
    var byType := Keep(Keep(objects, SearchIs(term)), TypeIs(filter));
    KeepMonotone(byType, HazardIs(false), HazardIs(true));
  }

  function Kinds(objects: seq<SpaceObject>): (r: seq<ObjectType>)
    ensures |r| == |objects|
  {
    seq(|objects|, i requires 0 <= i < |objects| => objects[i].kind)
  }

  function AsFilters(kinds: seq<ObjectType>): (r: seq<TypeFilter>)
    ensures |r| == |kinds|
  {
    seq(|kinds|, i requires 0 <= i < |kinds| => OnlyType(kinds[i]))
  }

  /** `objectTypes`: 'all', then every type of the catalogue once, in the
      order it first appears. */
  function ObjectTypes(objects: seq<SpaceObject>): (r: seq<TypeFilter>)
    ensures |r| >= 1 && r[0] == AllTypes
  {
    [AllTypes] + AsFilters(Distinct(Kinds(objects)))
  }

  /** Besides 'all', the selector offers exactly the types present. */
  lemma ObjectTypesOffered(objects: seq<SpaceObject>, k: ObjectType)
    ensures OnlyType(k) in ObjectTypes(objects) <==> exists i | 0 <= i < |objects| :: objects[i].kind == k
  {
    var kinds := Kinds(objects);
    var d := Distinct(kinds);
    var r := ObjectTypes(objects);
    if OnlyType(k) in r {
      var i :| 0 <= i < |r| && r[i] == OnlyType(k);
      assert r[i] == AsFilters(d)[i - 1];
      assert d[i - 1] in kinds;
    }
    if exists i | 0 <= i < |objects| :: objects[i].kind == k {
      var i :| 0 <= i < |objects| && objects[i].kind == k;
      assert kinds[i] == k;
      assert k in d;
      var j :| 0 <= j < |d| && d[j] == k;
      assert r[j + 1] == AsFilters(d)[j];
    }
  }

  /** Every entry of the selector is offered once. */
  lemma ObjectTypesDistinct(objects: seq<SpaceObject>)
    ensures NoDuplicates(ObjectTypes(objects))
  {
    var d := Distinct(Kinds(objects));
    var r := ObjectTypes(objects);
    forall i, j | 0 <= i < j < |r|
      ensures r[i] != r[j]
    {
      assert r[j] == AsFilters(d)[j - 1];
      if i > 0 {
        assert r[i] == AsFilters(d)[i - 1];
      }
    }
  }

  /** The types follow the order of their first appearance in the catalogue. */
  lemma ObjectTypesInFirstAppearanceOrder(objects: seq<SpaceObject>)
    ensures forall i, j | 1 <= i < j < |ObjectTypes(objects)| ::
      FirstIndex(Kinds(objects), ObjectTypes(objects)[i].kind) < FirstIndex(Kinds(objects), ObjectTypes(objects)[j].kind)
  {
    var kinds := Kinds(objects);
    var d := Distinct(kinds);
    var r := ObjectTypes(objects);
    DistinctFirstAppearance(kinds);
    forall i, j | 1 <= i < j < |r|
      ensures FirstIndex(kinds, r[i].kind) < FirstIndex(kinds, r[j].kind)
    {
      assert r[i] == AsFilters(d)[i - 1] && r[j] == AsFilters(d)[j - 1];
    }
  }

  /** `initialObjects.find(obj => obj.id === id)`: the first object with the
      id, or none. */
  function FindById(objects: seq<SpaceObject>, id: string): (r: Option<SpaceObject>)
    ensures r.None? <==> forall i | 0 <= i < |objects| :: objects[i].id != id
    ensures r.Some? ==> exists i | 0 <= i < |objects| ::
      objects[i] == r.value && r.value.id == id && forall j | 0 <= j < i :: objects[j].id != id
  {
    if objects == [] then None
    else if objects[0].id == id then Some(objects[0])
    else
      FindById(objects[1..], id)
  }

  /** The explorer's state. */
  class ExplorerView {
    const initialObjects: seq<SpaceObject>
    var searchTerm: string
    var typeFilter: TypeFilter
    var showHazardous: bool
    var selectedObject: Option<SpaceObject>

    constructor (objects: seq<SpaceObject>)
      ensures initialObjects == objects
      ensures searchTerm == "" && typeFilter == AllTypes && !showHazardous && selectedObject == None
    {
      initialObjects := objects;
      searchTerm := "";
      typeFilter := AllTypes;
      showHazardous := false;
      selectedObject := None;
    }

    /** The cards shown under the filter panel. */
    function Filtered(): seq<SpaceObject>
      reads this
    {
      FilterObjects(initialObjects, searchTerm, typeFilter, showHazardous)
    }

    /** The detail dialog is open exactly while an object is selected. */
    predicate DialogOpen()
      reads this
    {
      selectedObject.Some?
    }

    method SetSearchTerm(term: string)
      modifies this
      ensures searchTerm == term
      ensures unchanged(this`typeFilter, this`showHazardous, this`selectedObject)
    {
      searchTerm := term;
    }

    method SetTypeFilter(filter: TypeFilter)
      modifies this
      ensures typeFilter == filter
      ensures unchanged(this`searchTerm, this`showHazardous, this`selectedObject)
    {
      typeFilter := filter;
    }

    method SetShowHazardous(show: bool)
      modifies this
      ensures showHazardous == show
      ensures unchanged(this`searchTerm, this`typeFilter, this`selectedObject)
    {
      showHazardous := show;
    }

    /** Clicking a card selects its object and so opens the dialog. */
    method SelectCard(o: SpaceObject)
      modifies this
      ensures selectedObject == Some(o) && DialogOpen()
      ensures unchanged(this`searchTerm, this`typeFilter, this`showHazardous)
    {
      selectedObject := Some(o);
    }

    /** The dialog's `onOpenChange`: closing clears the selection, opening
        leaves it as it is. */
    method OpenChange(isOpen: bool)
      modifies this
      ensures !isOpen ==> selectedObject == None && !DialogOpen()
      ensures isOpen ==> selectedObject == old(selectedObject)
      ensures unchanged(this`searchTerm, this`typeFilter, this`showHazardous)
    {
      if !isOpen {
        selectedObject := None;
      }
    }

    /** The focus effect: a non-empty focus id found in the catalogue selects
        the first object with that id; an absent, empty or unknown id
        changes nothing. */
    method Focus(focusedObjectId: Option<string>)
      modifies this
      ensures (focusedObjectId.Some? && focusedObjectId.value != "" &&
               FindById(initialObjects, focusedObjectId.value).Some?) ==>
        selectedObject == FindById(initialObjects, focusedObjectId.value) &&
        selectedObject.value.id == focusedObjectId.value
      ensures (focusedObjectId.None? || focusedObjectId.value == "" ||
               FindById(initialObjects, focusedObjectId.value).None?) ==>
        selectedObject == old(selectedObject)
      ensures unchanged(this`searchTerm, this`typeFilter, this`showHazardous)
    {
      if focusedObjectId.Some? && focusedObjectId.value != "" {
        var objectToFocus := FindById(initialObjects, focusedObjectId.value);
        if objectToFocus.Some? {
          selectedObject := objectToFocus;
        }
      }
    }
  }
}
