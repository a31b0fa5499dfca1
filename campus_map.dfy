/**
 * The main map screen without its map: the occupancy table, the search
 * bar (focus one matching marker, else list matching rooms), the AI
 * button's guard, and the room-type filter dialog.
 *
 * The two HashMaps of the screen give no iteration order, so every
 * operation that walks one takes the order as a parameter: `markerOrder`
 * is the sequence of room names met while walking the marker map (a name
 * may repeat, because re-added markers stay in that map), and `keyOrder`
 * lists the occupancy map's keys once each.
 */
module CampusMap {
  import opened Wrappers
  import Text

  /** MainActivity.RoomOccupancy: an immutable record. */
  datatype RoomOccupancy = RoomOccupancy(name: string, currentOccupancy: int, maxCapacity: int, roomType: string)

  /** The rooms addRoomMarkers puts on the map; only these names ever key a marker. */
  const MARKER_ROOMS: seq<string> := ["Main Building", "Library", "Computer Lab", "Cafeteria", "Gym"]

  /** The labels of the filter dialog; index 0 is "All". */
  const ROOM_TYPES: seq<string> := ["All", "Lecture Hall", "Study Room", "Lab", "Dining", "Recreation"]

  /** The occupancy table initializeOccupancyData fills. */
  const SEEDED_OCCUPANCY: map<string, RoomOccupancy> := map[
    "Room A" := RoomOccupancy("Room A", 12, 20, "Lecture Hall"),
    "Room B" := RoomOccupancy("Room B", 3, 15, "Study Room"),
    "Library" := RoomOccupancy("Library", 45, 100, "Study Space"),
    "Computer Lab" := RoomOccupancy("Computer Lab", 8, 25, "Lab"),
    "Cafeteria" := RoomOccupancy("Cafeteria", 67, 80, "Dining"),
    "Gym" := RoomOccupancy("Gym", 12, 30, "Recreation")
  ]

  /** Every seeded entry is keyed by its own name and is within a positive capacity. */
  lemma SeededOccupancyIsSound()
    ensures |SEEDED_OCCUPANCY| == 6
    ensures forall k :: k in SEEDED_OCCUPANCY ==>
      SEEDED_OCCUPANCY[k].name == k
      && 0 <= SEEDED_OCCUPANCY[k].currentOccupancy <= SEEDED_OCCUPANCY[k].maxCapacity
      && SEEDED_OCCUPANCY[k].maxCapacity > 0
  {
    var keys := {"Room A", "Room B", "Library", "Computer Lab", "Cafeteria", "Gym"};
    assert SEEDED_OCCUPANCY.Keys == keys;
    assert |keys| == 6;
    forall k | k in SEEDED_OCCUPANCY
      ensures SEEDED_OCCUPANCY[k].name == k
      ensures 0 <= SEEDED_OCCUPANCY[k].currentOccupancy <= SEEDED_OCCUPANCY[k].maxCapacity
      ensures SEEDED_OCCUPANCY[k].maxCapacity > 0
    {
      assert k in keys;
    }
  }

  /** The search rule: the lower-cased name contains the lower-cased query. */
  predicate Matches(name: string, query: string)
    ensures query == "" ==> Matches(name, query)
  {
    Text.Contains(Text.Lower(name), Text.Lower(query))
  }

  /** A walk over the marker map visits marker room names only, and each of them. */
  predicate IsMarkerOrder(markerOrder: seq<string>)
  {
    (forall n :: n in markerOrder ==> n in MARKER_ROOMS) && (forall n :: n in MARKER_ROOMS ==> n in markerOrder)
  }

  /** A walk over the keys of `m` visits each key exactly once. */
  ghost predicate IsKeyOrder(keyOrder: seq<string>, m: map<string, RoomOccupancy>)
  {
    (forall k :: k in keyOrder <==> k in m)
    && (forall i, j :: 0 <= i < j < |keyOrder| ==> keyOrder[i] != keyOrder[j])
  }

  /** The names of `keyOrder` that match `query`, in walk order. */
  function MatchingNames(keyOrder: seq<string>, query: string): seq<string>
  {
    if keyOrder == [] then []
    else (if Matches(keyOrder[0], query) then [keyOrder[0]] else []) + MatchingNames(keyOrder[1..], query)
  }

  /** The walk keeps exactly its matching names. */
  lemma {:induction false} MatchingNamesMembers(keyOrder: seq<string>, query: string)
    ensures forall n :: n in MatchingNames(keyOrder, query) <==> n in keyOrder && Matches(n, query)
  {
    if keyOrder != [] {
      MatchingNamesMembers(keyOrder[1..], query);
      assert keyOrder == [keyOrder[0]] + keyOrder[1..];
    }
  }

  /** Filtering keeps the walk's names distinct. */
  lemma {:induction false} MatchingNamesDistinct(keyOrder: seq<string>, query: string)
    requires forall i, j :: 0 <= i < j < |keyOrder| ==> keyOrder[i] != keyOrder[j]
    ensures forall i, j :: 0 <= i < j < |MatchingNames(keyOrder, query)| ==>
      MatchingNames(keyOrder, query)[i] != MatchingNames(keyOrder, query)[j]
  {
    if keyOrder != [] {
      MatchingNamesDistinct(keyOrder[1..], query);
      MatchingNamesMembers(keyOrder[1..], query);
      assert keyOrder[0] !in keyOrder[1..];
    }
  }

  /** The position of the first name of a walk that matches `query`, if any. */
  function FirstMatch(names: seq<string>, query: string): (r: Option<nat>)
    ensures r.Some? ==> r.value < |names| && Matches(names[r.value], query)
                         && forall j :: 0 <= j < r.value ==> !Matches(names[j], query)
    ensures r.None? <==> forall j :: 0 <= j < |names| ==> !Matches(names[j], query)
  {
    if names == [] then None
    else if Matches(names[0], query) then Some(0)
    else match FirstMatch(names[1..], query)
      case None => None
      case Some(k) => Some(k + 1)
  }

  /**
   * Walking the keys of a table and keeping the matching names yields
   * exactly the table's matching names, each once; the list is empty
   * exactly when no name of the table matches.
   */
  lemma SuggestionsAreTheMatches(keyOrder: seq<string>, m: map<string, RoomOccupancy>, query: string)
    requires IsKeyOrder(keyOrder, m)
    ensures forall n :: n in MatchingNames(keyOrder, query) <==> n in m && Matches(n, query)
    ensures forall i, j :: 0 <= i < j < |MatchingNames(keyOrder, query)| ==>
      MatchingNames(keyOrder, query)[i] != MatchingNames(keyOrder, query)[j]
    ensures MatchingNames(keyOrder, query) == [] <==> forall n :: n in m ==> !Matches(n, query)
  {
    var r := MatchingNames(keyOrder, query);
    MatchingNamesMembers(keyOrder, query);
    MatchingNamesDistinct(keyOrder, query);
    if r != [] {
      assert r[0] in r;
    }
  }

  /** The result of pressing search (or of the AI button) for a query. */
  datatype SearchOutcome =
    | Ignored                      // empty query: nothing happens
    | MapNotReady                  // only the "Searching for" toast
    | Found(name: string, details: Option<RoomOccupancy>)   // one marker focused
    | Suggestions(names: seq<string>)                      // "Search Results" dialog
    | NoLocationsFound                                     // "No locations found matching" toast

  /** What the AI button does. */
  datatype AIOutcome = PleaseEnterDestination | NavigateTo(destination: string, aiRoute: bool)

  /**
   * The AI button: a non-empty query starts navigation towards the query
   * itself, flagged as an AI route; an empty one only asks for a destination.
   */
  function OnAIButton(query: string): (r: AIOutcome)
    ensures r == PleaseEnterDestination <==> query == ""
    ensures r.NavigateTo? ==> r.destination == query && r.aiRoute
  {
    if query != "" then NavigateTo(query, true) else PleaseEnterDestination
  }

  /** The filter dialog's mutual exclusion: "All" checked means no specific type is. */
  predicate Exclusive(checked: seq<bool>)
  {
    |checked| > 0 && (checked[0] ==> forall i :: 1 <= i < |checked| ==> !checked[i])
  }

  /**
   * The checkbox state after the user taps item `which`: the dialog records
   * the new state of that item, then the listener runs. Checking "All"
   * clears every specific type; touching a specific type clears "All".
   */
  function Toggled(checked: seq<bool>, which: nat, isChecked: bool): (r: seq<bool>)
    requires which < |checked|
    ensures |r| == |checked|
    ensures which == 0 && isChecked ==> r[0] && forall i :: 1 <= i < |r| ==> !r[i]
    ensures which == 0 && !isChecked ==> r == checked[0 := false]
    ensures which > 0 ==> !r[0] && r[which] == isChecked
    ensures which > 0 ==> forall i :: 1 <= i < |r| && i != which ==> r[i] == checked[i]
  {
    if which == 0 then
      if isChecked then [true] + seq(|checked| - 1, _ => false) else checked[0 := false]
    else
      checked[which := isChecked][0 := false]
  }

  /** Whatever the state before, a tap leaves "All" and the specific types exclusive. */
  lemma ToggleKeepsExclusive(checked: seq<bool>, which: nat, isChecked: bool)
    requires which < |checked|
    ensures Exclusive(Toggled(checked, which, isChecked))
  {
  }

  /** The applyFilters rule for one room type: "All", or some checked label equal to it. */
  predicate Visible(roomType: string, labels: seq<string>, checked: seq<bool>)
    requires 0 < |checked| <= |labels|
  {
    checked[0] || exists i :: 1 <= i < |checked| && checked[i] && labels[i] == roomType
  }

  /** The rooms applyFilters puts back on the map, in marker-walk order. */
  function VisibleRooms(markerOrder: seq<string>, m: map<string, RoomOccupancy>,
                        labels: seq<string>, checked: seq<bool>): (r: seq<string>)
    requires 0 < |checked| <= |labels|
    ensures forall n :: n in r <==> n in markerOrder && n in m && Visible(m[n].roomType, labels, checked)
  {
    if markerOrder == [] then []
    else
      var n := markerOrder[0];
      (if n in m && Visible(m[n].roomType, labels, checked) then [n] else [])
        + VisibleRooms(markerOrder[1..], m, labels, checked)
  }

  /**
   * Only "Room B" has the type "Study Room", and it has no marker; so
   * filtering on "Study Room" alone puts nothing back on the map.
   */
  lemma {:induction false} StudyRoomFilterShowsNothing(markerOrder: seq<string>)
    requires forall n :: n in markerOrder ==> n in MARKER_ROOMS
    ensures VisibleRooms(markerOrder, SEEDED_OCCUPANCY, ROOM_TYPES, [false, false, true, false, false, false]) == []
  {
    if markerOrder != [] {
      assert markerOrder[0] in MARKER_ROOMS;
      StudyRoomFilterShowsNothing(markerOrder[1..]);
    }
  }

  /** How a pass of applyFilters's loop ends. */
  datatype FilterRun = Completed(shown: seq<string>) | Crashed(shown: seq<string>)

  /**
   * applyFilters as written: it puts each re-added marker into the very
   * HashMap it is walking, and the walk's next step then throws
   * ConcurrentModificationException. So the pass stops right after the
   * first room it shows, unless that room was the last entry.
   */
  function FilterRunAsWritten(markerOrder: seq<string>, m: map<string, RoomOccupancy>,
                              labels: seq<string>, checked: seq<bool>): (r: FilterRun)
    requires 0 < |checked| <= |labels|
    ensures |r.shown| <= 1
    ensures r.Crashed? ==> |r.shown| == 1
  {
    if markerOrder == [] then Completed([])
    else
      var n := markerOrder[0];
      if n in m && Visible(m[n].roomType, labels, checked) then
        if |markerOrder| == 1 then Completed([n]) else Crashed([n])
      else FilterRunAsWritten(markerOrder[1..], m, labels, checked)
  }

  /**
   * As written, a pass shows at most the first room the corrected pass
   * shows, and shows nothing only when the corrected pass shows nothing.
   */
  lemma {:induction false} FilterRunAsWrittenShowsFirstVisible(markerOrder: seq<string>, m: map<string, RoomOccupancy>,
                                                                labels: seq<string>, checked: seq<bool>)
    requires 0 < |checked| <= |labels|
    ensures var intended := VisibleRooms(markerOrder, m, labels, checked);
      FilterRunAsWritten(markerOrder, m, labels, checked).shown == (if intended == [] then [] else [intended[0]])
  {
    if markerOrder != [] {
      FilterRunAsWrittenShowsFirstVisible(markerOrder[1..], m, labels, checked);
    }
  }

  /**
   * As written, a pass throws whenever two different rooms of the walk
   * pass the filter: the first of them is re-added, and it is not the
   * last entry.
   */
  lemma {:induction false} FilterRunAsWrittenCrashesOnTwoVisible(markerOrder: seq<string>, m: map<string, RoomOccupancy>,
                                                                  labels: seq<string>, checked: seq<bool>, a: string, b: string)
    requires 0 < |checked| <= |labels|
    requires a != b && a in markerOrder && b in markerOrder && a in m && b in m
    requires Visible(m[a].roomType, labels, checked) && Visible(m[b].roomType, labels, checked)
    ensures FilterRunAsWritten(markerOrder, m, labels, checked).Crashed?
  {
    var n := markerOrder[0];
    if !(n in m && Visible(m[n].roomType, labels, checked)) {
      assert markerOrder == [n] + markerOrder[1..];
      assert a in markerOrder[1..] && b in markerOrder[1..];
      FilterRunAsWrittenCrashesOnTwoVisible(markerOrder[1..], m, labels, checked, a, b);
    } else {
      var other := if a != n then a else b;
      assert markerOrder == [n] + markerOrder[1..];
      assert other in markerOrder[1..];
    }
  }

  /**
   * With "All" checked on the seeded table, applyFilters as written throws
   * whatever order the marker map is walked in.
   */
  lemma FilterAllAsWrittenCrashesOnEveryWalk(markerOrder: seq<string>)
    requires IsMarkerOrder(markerOrder)
    ensures FilterRunAsWritten(markerOrder, SEEDED_OCCUPANCY, ROOM_TYPES, [true, false, false, false, false, false]).Crashed?
  {
    assert "Library" in MARKER_ROOMS && "Gym" in MARKER_ROOMS;
    FilterRunAsWrittenCrashesOnTwoVisible(markerOrder, SEEDED_OCCUPANCY, ROOM_TYPES,
                                          [true, false, false, false, false, false], "Library", "Gym");
  }

  /**
   * With "All" checked on the seeded table, walking the markers in the
   * order they were added: "Main Building" has no occupancy entry,
   * "Library" is shown, and the next step throws, so three visible rooms
   * never come back.
   */
  lemma FilterAllAsWrittenCrashes()
    ensures FilterRunAsWritten(MARKER_ROOMS, SEEDED_OCCUPANCY, ROOM_TYPES, [true, false, false, false, false, false])
      == Crashed(["Library"])
    ensures forall n :: n in ["Library", "Computer Lab", "Cafeteria", "Gym"] ==>
      n in VisibleRooms(MARKER_ROOMS, SEEDED_OCCUPANCY, ROOM_TYPES, [true, false, false, false, false, false])
  {
    var all := [true, false, false, false, false, false];
    assert "Main Building" !in SEEDED_OCCUPANCY;
    assert "Library" in SEEDED_OCCUPANCY;
    assert FilterRunAsWritten(MARKER_ROOMS, SEEDED_OCCUPANCY, ROOM_TYPES, all)
      == FilterRunAsWritten(MARKER_ROOMS[1..], SEEDED_OCCUPANCY, ROOM_TYPES, all);
    assert MARKER_ROOMS[1..][0] == "Library" && |MARKER_ROOMS[1..]| == 4;
  }

  /**
   * showFilterDialog's initial checkbox state: "All" checked, nothing else.
   */
  method NewFilterSelection() returns (checked: array<bool>)
    ensures fresh(checked)
    ensures checked[..] == [true, false, false, false, false, false]
    ensures Exclusive(checked[..])
  {
    checked := new bool[6](i => i == 0);
  }

  /**
   * A tap on item `which` of the filter dialog: the dialog stores the
   * item's new state, then the listener clears the other side.
   */
  method OnFilterItemToggled(checked: array<bool>, which: nat, isChecked: bool)
    requires which < checked.Length
    modifies checked
    ensures checked[..] == Toggled(old(checked[..]), which, isChecked)
  {
    checked[which] := isChecked;
    if which == 0 {
      if isChecked {
        for i := 1 to checked.Length
          invariant checked[0]
          invariant forall k :: 1 <= k < i ==> !checked[k]
        {
          checked[i] := false;
        }
        assert checked[..] == [true] + seq(checked.Length - 1, _ => false);
      }
    } else {
      checked[0] := false;
    }
  }

  /**
   * The shouldShow test of applyFilters: "All", or a loop over the specific
   * items that stops at the first checked label equal to the room's type.
   */
  method ShouldShow(occupancy: RoomOccupancy, roomTypes: seq<string>, checked: array<bool>) returns (show: bool)
    requires 0 < checked.Length <= |roomTypes|
    ensures show == Visible(occupancy.roomType, roomTypes, checked[..])
  {
    show := false;
    if checked[0] {
      show := true;
    } else {
      for i := 1 to checked.Length
        invariant !show
        invariant forall k :: 1 <= k < i ==> !(checked[k] && roomTypes[k] == occupancy.roomType)
      {
        if checked[i] && occupancy.roomType == roomTypes[i] {
          show := true;
          break;
        }
      }
    }
  }

  /** The parts of MainActivity's state that are not UI or map rendering. */
  class MainScreen {
    var roomOccupancyMap: map<string, RoomOccupancy>
    /** Whether onMapReady has run (mMap != null). */
    var mapReady: bool

    /** onCreate's initializeOccupancyData: six puts into an empty table; no map yet. */
    constructor ()
      ensures roomOccupancyMap == SEEDED_OCCUPANCY && !mapReady
    {
      mapReady := false;
      var table: map<string, RoomOccupancy> := map[];
      table := table["Room A" := RoomOccupancy("Room A", 12, 20, "Lecture Hall")];
      table := table["Room B" := RoomOccupancy("Room B", 3, 15, "Study Room")];
      table := table["Library" := RoomOccupancy("Library", 45, 100, "Study Space")];
      table := table["Computer Lab" := RoomOccupancy("Computer Lab", 8, 25, "Lab")];
      table := table["Cafeteria" := RoomOccupancy("Cafeteria", 67, 80, "Dining")];
      table := table["Gym" := RoomOccupancy("Gym", 12, 30, "Recreation")];
      roomOccupancyMap := table;
    }

    /** onMapReady: the map exists from now on. */
    method OnMapReady()
      modifies this`mapReady
      ensures mapReady
    {
      mapReady := true;
    }

    /** HashMap.get on the occupancy table. */
    function Occupancy(name: string): (r: Option<RoomOccupancy>)
      reads this
      ensures r.Some? <==> name in roomOccupancyMap
      ensures r.Some? ==> r.value == roomOccupancyMap[name]
    {
      if name in roomOccupancyMap then Some(roomOccupancyMap[name]) else None
    }

    /**
     * showSearchSuggestions: collects, in key-walk order, the table's names
     * that match; no match at all is the "No locations found" outcome.
     */
    method ShowSearchSuggestions(query: string, keyOrder: seq<string>) returns (outcome: SearchOutcome)
      requires IsKeyOrder(keyOrder, roomOccupancyMap)
      ensures outcome == NoLocationsFound <==> forall n :: n in roomOccupancyMap ==> !Matches(n, query)
      ensures outcome != NoLocationsFound ==> outcome == Suggestions(MatchingNames(keyOrder, query))
      ensures outcome.Suggestions? ==>
        (forall n :: n in outcome.names <==> n in roomOccupancyMap && Matches(n, query))
        && (forall i, j :: 0 <= i < j < |outcome.names| ==> outcome.names[i] != outcome.names[j])
    {
      var suggestions := [];
      for i := 0 to |keyOrder|
        invariant suggestions == MatchingNames(keyOrder[..i], query)
      {
        if Matches(keyOrder[i], query) {
          suggestions := suggestions + [keyOrder[i]];
        }
        assert suggestions == MatchingNames(keyOrder[..i + 1], query) by {
          MatchingNamesAppend(keyOrder[..i], keyOrder[i], query);
          assert keyOrder[..i + 1] == keyOrder[..i] + [keyOrder[i]];
        }
      }
      assert suggestions == MatchingNames(keyOrder, query) by {
        assert keyOrder[..|keyOrder|] == keyOrder;
      }
      SuggestionsAreTheMatches(keyOrder, roomOccupancyMap, query);
      if suggestions != [] {
        outcome := Suggestions(suggestions);
      } else {
        outcome := NoLocationsFound;
      }
    }

    /**
     * What searchLocation may answer: only the toast before the map is
     * ready; then the first marker in walk order whose room name matches,
     * with that room's table entry; only when no marker matches, the
     * suggestions for the table's matching names, or the "No locations
     * found" toast when there are none.
     */
    ghost predicate SearchResult(query: string, markerOrder: seq<string>, keyOrder: seq<string>, outcome: SearchOutcome)
      reads this
    {
      (!mapReady ==> outcome == MapNotReady)
      && (mapReady && FirstMatch(markerOrder, query).Some? ==>
            var name := markerOrder[FirstMatch(markerOrder, query).value];
            outcome == Found(name, Occupancy(name)) && name in MARKER_ROOMS)
      && (mapReady && FirstMatch(markerOrder, query).None? ==>
            (outcome == NoLocationsFound <==> forall n :: n in roomOccupancyMap ==> !Matches(n, query))
            && (outcome != NoLocationsFound ==> outcome == Suggestions(MatchingNames(keyOrder, query))))
    }

    /**
     * searchLocation: with the map ready, walks the markers and focuses
     * the first one whose room name matches, showing that room's details
     * when the table has it, and stops there; only when no marker matches
     * does it fall back to the suggestions.
     */
    method SearchLocation(query: string, markerOrder: seq<string>, keyOrder: seq<string>) returns (outcome: SearchOutcome)
      requires mapReady ==> IsMarkerOrder(markerOrder) && IsKeyOrder(keyOrder, roomOccupancyMap)
      ensures SearchResult(query, markerOrder, keyOrder, outcome)
    {
      if !mapReady {
        return MapNotReady;
      }
      var i := 0;
      while i < |markerOrder|
        invariant 0 <= i <= |markerOrder|
        invariant forall j :: 0 <= j < i ==> !Matches(markerOrder[j], query)
      {
        if Matches(markerOrder[i], query) {
          assert FirstMatch(markerOrder, query) == Some(i);
          assert markerOrder[i] in markerOrder;
          return Found(markerOrder[i], Occupancy(markerOrder[i]));
        }
        i := i + 1;
      }
      assert FirstMatch(markerOrder, query).None?;
      outcome := ShowSearchSuggestions(query, keyOrder);
    }

    /** The search bar's editor action: an empty query does nothing, any other is searched. */
    method OnSearchAction(query: string, markerOrder: seq<string>, keyOrder: seq<string>) returns (outcome: SearchOutcome)
      requires mapReady ==> IsMarkerOrder(markerOrder) && IsKeyOrder(keyOrder, roomOccupancyMap)
      ensures outcome == Ignored <==> query == ""
      ensures query != "" ==> SearchResult(query, markerOrder, keyOrder, outcome)
    {
      if query != "" {
        outcome := SearchLocation(query, markerOrder, keyOrder);
      } else {
        outcome := Ignored;
      }
    }

    /**
     * applyFilters, with the walk taken over a copy of the marker map so
     * that re-adding markers cannot disturb it: every marker room that has
     * a table entry and passes shouldShow comes back, in walk order.
     * Nothing happens before the map is ready.
     */
    method ApplyFilters(roomTypes: seq<string>, checked: array<bool>, markerOrder: seq<string>)
      returns (shown: Option<seq<string>>)
      requires 0 < checked.Length <= |roomTypes|
      ensures shown.Some? <==> mapReady
      ensures shown.Some? ==> shown.value == VisibleRooms(markerOrder, roomOccupancyMap, roomTypes, checked[..])
      ensures shown.Some? ==> forall n :: n in shown.value <==>
        n in markerOrder && n in roomOccupancyMap && Visible(roomOccupancyMap[n].roomType, roomTypes, checked[..])
    {
      if !mapReady {
        return None;
      }
      var rooms := [];
      for i := 0 to |markerOrder|
        invariant rooms == VisibleRooms(markerOrder[..i], roomOccupancyMap, roomTypes, checked[..])
      {
        var name := markerOrder[i];
        var occupancy := Occupancy(name);
        if occupancy.Some? {
          var show := ShouldShow(occupancy.value, roomTypes, checked);
          if show {
            rooms := rooms + [name];
          }
        }
        VisibleRoomsAppend(markerOrder[..i], name, roomOccupancyMap, roomTypes, checked[..]);
        assert markerOrder[..i + 1] == markerOrder[..i] + [name];
      }
      assert markerOrder[..|markerOrder|] == markerOrder;
      shown := Some(rooms);
    }
  }

  lemma {:induction false} MatchingNamesAppend(keyOrder: seq<string>, n: string, query: string)
    ensures MatchingNames(keyOrder + [n], query)
      == MatchingNames(keyOrder, query) + (if Matches(n, query) then [n] else [])
  {
    if keyOrder == [] {
      assert [n][1..] == [];
    } else {
      var k := keyOrder[0];
      var head := if Matches(k, query) then [k] else [];
      assert (keyOrder + [n])[0] == k && (keyOrder + [n])[1..] == keyOrder[1..] + [n];
      assert MatchingNames(keyOrder + [n], query) == head + MatchingNames(keyOrder[1..] + [n], query);
      MatchingNamesAppend(keyOrder[1..], n, query);
      assert MatchingNames(keyOrder, query) == head + MatchingNames(keyOrder[1..], query);
    }
  }

  lemma {:induction false} VisibleRoomsAppend(markerOrder: seq<string>, n: string, m: map<string, RoomOccupancy>,
                                              labels: seq<string>, checked: seq<bool>)
    requires 0 < |checked| <= |labels|
    ensures VisibleRooms(markerOrder + [n], m, labels, checked)
      == VisibleRooms(markerOrder, m, labels, checked) + (if n in m && Visible(m[n].roomType, labels, checked) then [n] else [])
  {
    if markerOrder == [] {
      assert [n][1..] == [];
    } else {
      assert (markerOrder + [n])[1..] == markerOrder[1..] + [n];
      VisibleRoomsAppend(markerOrder[1..], n, m, labels, checked);
    }
  }
}
