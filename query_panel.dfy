/** The city query panel (src/components/QueryPanel.tsx): the suggestion rule,
    the city validator, the geocoded-name matcher, and the panel state that
    typing, picking a suggestion, auto-detection and "Analyze" step through.
    Network and device results are inputs of the methods that receive them. */
module QueryPanel {
  import opened Wrappers
  import opened Seqs
  import opened Strings

  const MaxSuggestions: nat := 8

  const PleaseSelectMessage: string := "Please select a city before analyzing"
  const InvalidCityMessage: string := "Selected city is not valid. Please choose from suggestions."
  const AnalyzeFailedMessage: string := "Analyze failed"
  const NoGeolocationMessage: string := "Geolocation is not supported by your browser"
  const PositionFailedMessage: string := "Failed to get current position"
  const ReverseGeocodeFailedMessage: string := "Failed to reverse-geocode location"
  const NoCityMessage: string := "Could not determine city from coordinates"

  /** `c.toLowerCase().includes(q.toLowerCase())` */
  predicate MatchesQuery(c: string, q: string) {
    Contains(Lower(c), Lower(q))
  }

  /** The suggestion list for a query: none for the empty query, otherwise the
      first eight cities that contain it case-insensitively, in list order. */
  function Suggest(cities: seq<string>, query: string): (r: seq<string>)
    ensures query == "" ==> r == []
    ensures query != "" ==>
      && |r| == (var n := Count(cities, (c: string) => MatchesQuery(c, query));
                 if n < MaxSuggestions then n else MaxSuggestions)
      && (forall i :: 0 <= i < |r| ==> MatchesQuery(r[i], query))
      && IsSubsequence(r, cities)
      && (exists k :: 0 <= k <= |cities| && r == Filter(cities[..k], (c: string) => MatchesQuery(c, query)))
  {
    if query == "" then []
    else
      var matching := Filter(cities, (c: string) => MatchesQuery(c, query));
      var r := Prefix(matching, MaxSuggestions);
      PrefixIsSubsequence(matching, |r|);
      SubsequenceTransitive(r, matching, cities);
      FilterPrefixFromInputPrefix(cities, (c: string) => MatchesQuery(c, query), |r|);
      r
  }

  /** With few enough matches, every matching city is suggested. */
  lemma AllMatchesSuggestedWhenFew(cities: seq<string>, query: string)
    requires query != ""
    requires Count(cities, (c: string) => MatchesQuery(c, query)) <= MaxSuggestions
    ensures forall i :: 0 <= i < |cities| && MatchesQuery(cities[i], query) ==> cities[i] in Suggest(cities, query)
  {
    var matching := Filter(cities, (c: string) => MatchesQuery(c, query));
    assert Prefix(matching, MaxSuggestions) == matching;
  }

  /** `c.toLowerCase() === city.toLowerCase()` */
  predicate SameCity(c: string, city: string) {
    Lower(c) == Lower(city)
  }

  /** `validateCity`: false for no city or the empty string; otherwise true
      exactly when some listed city equals it case-insensitively. The found
      city is tested for truthiness, which an equal city always passes. */
  function ValidateCity(cities: seq<string>, city: Option<string>): (ok: bool)
    ensures city.None? || city == Some("") ==> !ok
    ensures city.Some? && city.value != "" ==>
      (ok <==> exists i :: 0 <= i < |cities| && SameCity(cities[i], city.value))
  {
    match city
    case None => false
    case Some(name) =>
      if name == "" then false
      else match FindIndex(cities, (c: string) => SameCity(c, name))
        case None => false
        case Some(i) =>
          assert |Lower(cities[i])| == |cities[i]| && |Lower(name)| == |name|;
          cities[i] != ""
  }

  /** The city picked for a geocoded name: the first listed city containing it
      case-insensitively, or the name itself when none does. */
  function MatchGeocodedCity(cities: seq<string>, name: string): (r: string)
    requires name != ""
    ensures (exists i :: 0 <= i < |cities| && MatchesQuery(cities[i], name)) ==>
      exists i ::
        && 0 <= i < |cities| && r == cities[i] && MatchesQuery(cities[i], name)
        && forall j :: 0 <= j < i ==> !MatchesQuery(cities[j], name)
    ensures (forall i :: 0 <= i < |cities| ==> !MatchesQuery(cities[i], name)) ==> r == name
  {
    match FindIndex(cities, (c: string) => MatchesQuery(c, name))
    case None => name
    case Some(i) =>
      assert |Lower(cities[i])| == |cities[i]| && |Lower(name)| == |name|;
      if cities[i] != "" then cities[i] else name
  }

  /** JavaScript `||` over optional strings: the first present, non-empty one. */
  function FirstNonEmpty(candidates: seq<Option<string>>): (r: string)
    ensures r != "" <==> exists i :: 0 <= i < |candidates| && candidates[i].Some? && candidates[i].value != ""
    ensures r != "" ==> exists i ::
      && 0 <= i < |candidates| && candidates[i] == Some(r)
      && forall j :: 0 <= j < i ==> candidates[j].None? || candidates[j].value == ""
  {
    if candidates == [] then ""
    else if candidates[0].Some? && candidates[0].value != "" then candidates[0].value
    else
      var r := FirstNonEmpty(candidates[1..]);
      assert forall i :: 1 <= i < |candidates| ==> candidates[i] == candidates[1..][i - 1];
      r
  }

  /** The reverse-geocoding answer's name fields, each possibly missing. */
  datatype Address = Address(
    city: Option<string>,
    town: Option<string>,
    village: Option<string>,
    county: Option<string>,
    displayName: Option<string>)

  /** The name the panel reads off an answer: city, town, village, county,
      then the display name, whichever comes first non-empty. */
  function GeocodedName(a: Address): string {
    FirstNonEmpty([a.city, a.town, a.village, a.county, a.displayName])
  }

  /** What the cities request delivered: a failed request (including a non-ok
      status), or a body that is an array of cities or something else. */
  datatype CitiesOutcome = CitiesFailed | CitiesBody(cities: Option<seq<string>>)

  /** How the analysis call settled. */
  datatype AnalyzeOutcome = Resolved | Rejected(message: Option<string>)

  /** What auto-detection ran into. */
  datatype GeoOutcome =
    | Unsupported
    | PositionFailed(message: Option<string>)
    | ReverseGeocodeFailed
    | Geocoded(address: Address)

  /** The three ways `runAnalyze` can go: ask for a selection, reject a city
      the list does not hold, or call `onAnalyze`. */
  datatype AnalyzeStep = AskToSelect | RejectInvalid | CallAnalyze

  /** An optional error message with a fallback, as `m || fallback`. */
  function MessageOr(m: Option<string>, fallback: string): string {
    if m.Some? && m.value != "" then m.value else fallback
  }

  class Panel {
    var query: string
    var cities: seq<string>
    var suggestions: seq<string>
    var selectedCity: Option<string>
    var loadingCities: bool
    var loadingAnalyze: bool
    var error: Option<string>
    var showDropdown: bool
    /** Whether the component is still mounted, for the cities request. */
    var mounted: bool
    /** Whether the parent passed an `onAnalyze` callback. */
    const hasOnAnalyze: bool
    /** The cities `onAnalyze` has been called with, oldest first. */
    var analyzeCalls: seq<string>

    /** The initial state, after the mount effect has started the cities request. */
    constructor (hasOnAnalyze: bool)
      ensures this.hasOnAnalyze == hasOnAnalyze && mounted
      ensures query == "" && cities == [] && suggestions == [] && selectedCity == None
      ensures loadingCities && !loadingAnalyze && error == None && !showDropdown
      ensures analyzeCalls == []
    {
      this.hasOnAnalyze := hasOnAnalyze;
      query := "";
      cities := [];
      suggestions := [];
      selectedCity := None;
      loadingCities := true;
      loadingAnalyze := false;
      error := None;
      showDropdown := false;
      mounted := true;
      analyzeCalls := [];
    }

    /** The effect's cleanup on unmount. */
    method Unmount()
      modifies this`mounted
      ensures !mounted
    {
      mounted := false;
    }

    /** The cities request settles. An array body becomes the list and any
        other body the fallback list, both only while mounted; a failure always
        installs the fallback list. Loading ends only while mounted. */
    method CitiesLoaded(outcome: CitiesOutcome, fallback: seq<string>)
      modifies this`cities, this`loadingCities
      ensures outcome == CitiesFailed ==> cities == fallback
      ensures outcome.CitiesBody? && mounted ==> cities == outcome.cities.GetOr(fallback)
      ensures outcome.CitiesBody? && !mounted ==> cities == old(cities)
      ensures loadingCities == (old(loadingCities) && !mounted)
    {
      if outcome == CitiesFailed {
        cities := fallback;
      } else if mounted {
        cities := outcome.cities.GetOr(fallback);
      }
      if mounted {
        loadingCities := false;
      }
    }

    /** The suggestion effect, run after `query` or `cities` change. */
    method SuggestionEffect()
      modifies this`suggestions, this`showDropdown
      ensures suggestions == Suggest(cities, query)
      ensures query == "" ==> suggestions == [] && showDropdown == old(showDropdown)
      ensures query != "" ==> (showDropdown <==> suggestions != [])
    {
      if query == "" {
        suggestions := [];
        return;
      }
      var filtered := Suggest(cities, query);
      suggestions := filtered;
      showDropdown := |filtered| > 0;
    }

    /** Editing the input: the text becomes the query and the selection is dropped. */
    method Type(value: string)
      modifies this`query, this`selectedCity
      ensures query == value && selectedCity == None
    {
      query := value;
      selectedCity := None;
    }

    /** Focusing the input shows the dropdown when there is something in it. */
    method Focus()
      modifies this`showDropdown
      ensures showDropdown <==> suggestions != []
    {
      showDropdown := |suggestions| > 0;
    }

    /** A click outside the panel closes the dropdown. */
    method ClickOutside()
      modifies this`showDropdown
      ensures !showDropdown
    {
      showDropdown := false;
    }

    /** `handleSelect`: the city becomes both selection and query, the dropdown
        closes and the error clears. */
    method HandleSelect(city: string)
      modifies this`selectedCity, this`query, this`showDropdown, this`error
      ensures selectedCity == Some(city) && query == city && !showDropdown && error == None
    {
      selectedCity := Some(city);
      query := city;
      showDropdown := false;
      error := None;
    }

    /** The branch `runAnalyze` takes in the current state. */
    function AnalyzeBranch(): (b: AnalyzeStep)
      reads this
      ensures b == AskToSelect <==> selectedCity.None? || selectedCity.value == ""
      ensures b == RejectInvalid <==> selectedCity.Some? && selectedCity.value != "" && !ValidateCity(cities, selectedCity)
    {
      if selectedCity.None? || selectedCity.value == "" then AskToSelect
      else if !ValidateCity(cities, selectedCity) then RejectInvalid
      else CallAnalyze
    }

    /** `canAnalyze`, which enables the "Analyze" button: an enabled button
        never leads to the please-select error, and while no analysis is
        running a disabled button is exactly the case that would. */
    function CanAnalyze(): (can: bool)
      reads this
      ensures can ==> AnalyzeBranch() != AskToSelect && !loadingAnalyze
      ensures !can && !loadingAnalyze ==> AnalyzeBranch() == AskToSelect
      ensures !can ==> loadingAnalyze || AnalyzeBranch() == AskToSelect
    {
      selectedCity.Some? && selectedCity.value != "" && !loadingAnalyze
    }

    /** `runAnalyze`, with the callback's settlement as input. The guards run in
        order: without a selection, or with one the list does not hold, an
        error is set and nothing is called; otherwise the callback (when there
        is one) is called exactly once, its rejection message (or the default)
        becomes the error, and loading is off afterwards. */
    method RunAnalyze(outcome: AnalyzeOutcome)
      modifies this`error, this`loadingAnalyze, this`analyzeCalls
      ensures old(AnalyzeBranch()) == AskToSelect ==>
        error == Some(PleaseSelectMessage) && analyzeCalls == old(analyzeCalls)
        && loadingAnalyze == old(loadingAnalyze)
      ensures old(AnalyzeBranch()) == RejectInvalid ==>
        error == Some(InvalidCityMessage) && analyzeCalls == old(analyzeCalls)
        && loadingAnalyze == old(loadingAnalyze)
      ensures old(AnalyzeBranch()) == CallAnalyze ==>
        && analyzeCalls == old(analyzeCalls) + (if hasOnAnalyze then [selectedCity.value] else [])
        && !loadingAnalyze
        && error == (if hasOnAnalyze && outcome.Rejected?
                     then Some(MessageOr(outcome.message, AnalyzeFailedMessage)) else None)
    {
      error := None;
      if selectedCity.None? || selectedCity.value == "" {
        error := Some(PleaseSelectMessage);
        return;
      }
      if !ValidateCity(cities, selectedCity) {
        error := Some(InvalidCityMessage);
        return;
      }
      loadingAnalyze := true;
      if hasOnAnalyze {
        analyzeCalls := analyzeCalls + [selectedCity.value];
        if outcome.Rejected? {
          error := Some(MessageOr(outcome.message, AnalyzeFailedMessage));
        }
      }
      loadingAnalyze := false;
    }

    /** `detectLocation`, with what the browser and the geocoder answered as
        input. A usable name is matched against the list and selected as by
        `handleSelect`; each failure sets its own message. */
    method DetectLocation(outcome: GeoOutcome)
      modifies this`error, this`loadingCities, this`selectedCity, this`query, this`showDropdown
      ensures outcome == Unsupported ==>
        error == Some(NoGeolocationMessage) && loadingCities == old(loadingCities)
        && selectedCity == old(selectedCity) && query == old(query) && showDropdown == old(showDropdown)
      ensures outcome != Unsupported ==> !loadingCities
      ensures outcome.PositionFailed? ==>
        error == Some(MessageOr(outcome.message, PositionFailedMessage))
        && selectedCity == old(selectedCity) && query == old(query) && showDropdown == old(showDropdown)
      ensures outcome == ReverseGeocodeFailed ==>
        error == Some(ReverseGeocodeFailedMessage) && selectedCity == old(selectedCity) && query == old(query)
        && showDropdown == old(showDropdown)
      ensures outcome.Geocoded? && GeocodedName(outcome.address) == "" ==>
        error == Some(NoCityMessage) && selectedCity == old(selectedCity) && query == old(query)
        && showDropdown == old(showDropdown)
      ensures outcome.Geocoded? && GeocodedName(outcome.address) != "" ==>
        var picked := MatchGeocodedCity(cities, GeocodedName(outcome.address));
        selectedCity == Some(picked) && query == picked && !showDropdown && error == None
    {
      error := None;
      if outcome == Unsupported {
        error := Some(NoGeolocationMessage);
        return;
      }
      loadingCities := true;
      match outcome
      case PositionFailed(message) =>
        loadingCities := false;
        error := Some(MessageOr(message, PositionFailedMessage));
      case ReverseGeocodeFailed =>
        error := Some(ReverseGeocodeFailedMessage);
        loadingCities := false;
      case Geocoded(address) =>
        var name := GeocodedName(address);
        if name != "" {
          var picked := MatchGeocodedCity(cities, name);
          HandleSelect(picked);
        } else {
          error := Some(NoCityMessage);
        }
        loadingCities := false;
    }
  }
}
