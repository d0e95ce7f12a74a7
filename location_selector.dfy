/**
 * The delivery-location dropdown (src/components/layout/header/LocationSelector.tsx): a fixed list
 * of "City, State" entries filtered by a prefix of the city or of the state.
 */
module LocationSelector {
  import opened Wrappers
  import opened Text
  import opened Seqs
  import opened Events

  const Separator: string := ", "

  /** A "City, State" entry of the list, kept as its two halves. */
  datatype Place = Place(city: string, state: string)

  function Label(p: Place): string {
    p.city + Separator + p.state
  }

  const Places: seq<Place> := [Place("Kathmandu", "Bagmati"), Place("Pokhara", "Gandaki"),
    Place("Lalitpur", "Bagmati"), Place("Bhaktapur", "Bagmati"), Place("Biratnagar", "Koshi"),
    Place("Birgunj", "Madhesh"), Place("Hetauda", "Bagmati"), Place("Dharan", "Koshi")]

  /** The list the dropdown filters: "Kathmandu, Bagmati", "Pokhara, Gandaki", and so on. */
  const Locations: seq<string> := seq(|Places|, i requires 0 <= i < |Places| => Label(Places[i]))

  /** The filter callback for one entry, given the lower-cased, trimmed search. `loc.split(", ")`
      is destructured into city and state; when the city does not match and the entry has no
      state, `state.toLowerCase()` throws, which is None here. */
  function LocationMatch(loc: string, searchLower: string): (r: Option<bool>)
    ensures r.None? <==> !StartsWith(Lower(Split(loc, Separator)[0]), searchLower) && |Split(loc, Separator)| < 2
  {
    var parts := Split(loc, Separator);
    if StartsWith(Lower(parts[0]), searchLower) then Some(true)
    else if |parts| < 2 then None
    else Some(StartsWith(Lower(parts[1]), searchLower))
  }

  /** `locations.filter(...)`: None when the callback throws on some entry. */
  function FilterMatching(locs: seq<string>, searchLower: string): (r: Option<seq<string>>)
    ensures r.None? <==> exists l :: l in locs && LocationMatch(l, searchLower).None?
    ensures r.Some? ==> IsSubsequence(r.value, locs)
    ensures r.Some? ==> forall l :: l in r.value <==> l in locs && LocationMatch(l, searchLower) == Some(true)
  {
    if locs == [] then Some([])
    else
      match LocationMatch(locs[0], searchLower)
      case None => None
      case Some(keep) =>
        match FilterMatching(locs[1..], searchLower)
        case None => None
        case Some(rest) => Some(if keep then [locs[0]] + rest else rest)
  }

  /** `filteredLocations`: nothing for a blank search; otherwise the search is lower-cased, then
      trimmed, and every entry is tested. */
  function FilteredLocations(locs: seq<string>, search: string): Option<seq<string>> {
    if IsBlank(search) then Some([]) else FilterMatching(locs, Trim(Lower(search)))
  }

  /** What the dropdown shows under the search box. */
  datatype Listing = NothingShown | Matches(entries: seq<string>) | NoLocationsFound

  /** `locationSearch && (filteredLocations.length > 0 ? ... : "No locations found")`. */
  function ShownListing(filtered: seq<string>, search: string): (r: Listing)
    ensures r == NothingShown <==> search == ""
    ensures r == NoLocationsFound <==> search != "" && filtered == []
    ensures r.Matches? ==> r.entries == filtered && filtered != []
  {
    if search == "" then NothingShown
    else if |filtered| > 0 then Matches(filtered)
    else NoLocationsFound
  }

  /** An entry "city, state" whose parts contain no comma splits back into exactly those parts. */
  lemma SplitJoined(city: string, state: string)
    requires ',' !in city && ',' !in state
    ensures Split(city + Separator + state, Separator) == [city, state]
  {
    var s := city + Separator + state;
    assert OccursAt(s, Separator, |city|) by {
      assert s[|city|..|city| + 2] == Separator;
    }
    forall k: nat | k < |city| ensures !OccursAt(s, Separator, k) {
      if k + 1 < |city| {
        assert s[k] == city[k];
      } else {
        assert s[k + 1] == ',';
      }
    }
    assert IndexOf(s, Separator) == Some(|city|);
    assert s[|city| + 2..] == state && s[..|city|] == city;
    forall k: nat ensures !OccursAt(state, Separator, k) {
      if k + |Separator| <= |state| {
        assert state[k..k + |Separator|][0] == state[k];
      }
    }
    assert IndexOf(state, Separator) == None;
    assert Split(state, Separator) == [state];
  }

  lemma EntryWellFormed(city: string, state: string, searchLower: string)
    requires ',' !in city && ',' !in state
    ensures LocationMatch(city + Separator + state, searchLower).Some?
  {
    SplitJoined(city, state);
  }

  /** Every entry of the fixed list has a city and a state, so the filter never throws on it. */
  lemma LocationsWellFormed(searchLower: string)
    ensures forall l :: l in Locations ==> LocationMatch(l, searchLower).Some?
  {
    forall l | l in Locations ensures LocationMatch(l, searchLower).Some? {
      var i :| 0 <= i < |Locations| && Locations[i] == l;
      PlaceCommaFree(i);
      EntryWellFormed(Places[i].city, Places[i].state, searchLower);
    }
  }

  /** No city or state of the list contains a comma; checked in two halves to keep each proof small. */
  lemma PlaceCommaFree(i: nat)
    requires i < |Places|
    ensures ',' !in Places[i].city && ',' !in Places[i].state
  {
    if i < 4 { FirstPlaces(i); } else { LastPlaces(i); }
  }

  lemma FirstPlaces(i: nat)
    requires i < 4
    ensures ',' !in Places[i].city && ',' !in Places[i].state
  {
  }

  lemma LastPlaces(i: nat)
    requires 4 <= i < |Places|
    ensures ',' !in Places[i].city && ',' !in Places[i].state
  {
  }

  /** On the fixed list: a blank search lists nothing; any other search lists exactly the entries
      whose city or state starts with it (after lower-casing and trimming), in list order. */
  lemma FilteredLocationsSpec(search: string)
    ensures FilteredLocations(Locations, search).Some?
    ensures AllWhitespace(search) ==> FilteredLocations(Locations, search).value == []
    ensures !AllWhitespace(search) ==> IsSubsequence(FilteredLocations(Locations, search).value, Locations)
    ensures !AllWhitespace(search) ==> forall l :: l in FilteredLocations(Locations, search).value <==>
      l in Locations && LocationMatch(l, Trim(Lower(search))) == Some(true)
  {
    BlankIffAllWhitespace(search);
    LocationsWellFormed(Trim(Lower(search)));
  }

  /** A search made only of spaces is not empty, so the dropdown says "No locations found". */
  lemma WhitespaceSearchShowsNoLocations(search: string)
    requires search != [] && AllWhitespace(search)
    ensures ShownListing(FilteredLocations(Locations, search).value, search) == NoLocationsFound
  {
    FilteredLocationsSpec(search);
  }

  /** The dropdown's own state. */
  class LocationDropdown {
    var isOpen: bool
    var locationSearch: string

    constructor ()
      ensures !isOpen && locationSearch == ""
    {
      isOpen := false;
      locationSearch := "";
    }

    /** The location button toggles the dropdown. */
    method Toggle()
      modifies this
      ensures isOpen == !old(isOpen) && locationSearch == old(locationSearch)
    {
      isOpen := !isOpen;
    }

    method EditSearch(text: string)
      modifies this
      ensures locationSearch == text && isOpen == old(isOpen)
    {
      locationSearch := text;
    }

    /** handleLocationSelect: report the choice, close, clear the search. */
    method HandleLocationSelect(location: string) returns (effects: seq<Effect>)
      modifies this
      ensures effects == [ReportLocation(location)]
      ensures !isOpen && locationSearch == ""
    {
      effects := [ReportLocation(location)];
      isOpen := false;
      locationSearch := "";
    }

    /** The close button: close and clear the search. */
    method HandleCloseButton()
      modifies this
      ensures !isOpen && locationSearch == ""
    {
      isOpen := false;
      locationSearch := "";
    }

    /** A click outside closes the dropdown but keeps the search text. */
    method HandleClickOutside()
      modifies this
      ensures !isOpen && locationSearch == old(locationSearch)
    {
      isOpen := false;
    }
  }
}
