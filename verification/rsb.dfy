/** The rental search box of the home page: trip duration text, the short
    address and city taken from a selected place, the search route and its
    required-field gate, and the cycling header text. */
module RentalSearchBox {
  import opened Common
  import opened Text

  // ---------------------------------------------------------------------
  // Trip duration

  /** Milliseconds in an hour. */
  const HourMs: int := 1000 * 60 * 60

  /** The outcome of `calculateDuration`: an unreadable date, or whole days and hours. */
  datatype Duration = InvalidDate | Span(days: nat, hours: nat)

  /** The duration between two instants given in milliseconds, either of which
      may have failed to parse. A negative difference counts as zero; otherwise
      the whole hours of the difference are split into days and hours. */
  function TripDuration(start: Option<int>, end: Option<int>): (d: Duration)
    ensures d.InvalidDate? <==> start.None? || end.None?
    ensures d.Span? ==> d.hours < 24
    ensures d.Span? && end.value < start.value ==> d == Span(0, 0)
    ensures d.Span? && start.value <= end.value ==>
              d.days * 24 + d.hours == (end.value - start.value) / HourMs
  {
    if start.None? || end.None? then InvalidDate
    else
      var diff := end.value - start.value;
      if diff < 0 then Span(0, 0)
      else
        var totalHours := diff / HourMs;
        Span(totalHours / 24, totalHours % 24)
  }

  /** The text shown for a duration: "Invalid Date" exactly for an unreadable
      date; otherwise four space-separated words, the days and the hours in
      decimal, each followed by its unit. */
  function DurationText(d: Duration): (text: string)
    ensures text == "Invalid Date" <==> d.InvalidDate?
    ensures d.Span? ==> Split(text, ' ') == [NatToString(d.days), "Day(s)", NatToString(d.hours), "Hour(s)"]
  {
    match d
    case InvalidDate => "Invalid Date"
    case Span(days, hours) =>
      SpanTextWords(NatToString(days), NatToString(hours));
      var text := NatToString(days) + " Day(s) " + NatToString(hours) + " Hour(s)";
      assert text[0] == NatToString(days)[0];
      text
  }

  /** The words of a span's text. */
  lemma SpanTextWords(days: string, hours: string)
    requires AllDigits(days) && AllDigits(hours)
    ensures Split(days + " Day(s) " + hours + " Hour(s)", ' ') == [days, "Day(s)", hours, "Hour(s)"]
  {
    NoSpaceInDigits(days);
    NoSpaceInDigits(hours);
    var unitD, unitH := "Day(s)", "Hour(s)";
    assert ' ' !in unitD && ' ' !in unitH;
    FourWords(days, unitD, hours, unitH);
    assert days + " Day(s) " + hours + " Hour(s)" == days + [' '] + unitD + [' '] + hours + [' '] + unitH;
  }

  /** Four words without spaces, joined by single spaces, split back into themselves. */
  lemma FourWords(w0: string, w1: string, w2: string, w3: string)
    requires ' ' !in w0 && ' ' !in w1 && ' ' !in w2 && ' ' !in w3
    ensures Split(w0 + [' '] + w1 + [' '] + w2 + [' '] + w3, ' ') == [w0, w1, w2, w3]
  {
    var t2 := w2 + [' '] + w3;
    var t1 := w1 + [' '] + t2;
    SplitWithoutSeparator(w3, ' ');
    SplitAfterPiece(w2, ' ', w3);
    SplitAfterPiece(w1, ' ', t2);
    SplitAfterPiece(w0, ' ', t1);
    assert w0 + [' '] + w1 + [' '] + w2 + [' '] + w3 == w0 + [' '] + t1;
  }

  lemma NoSpaceInDigits(s: string)
    requires AllDigits(s)
    ensures ' ' !in s
  {
  }

  /** The shown duration reads back: its first and third words are the days
      and the hours. */
  lemma DurationTextReadBack(d: Duration)
    requires d.Span?
    ensures var words := Split(DurationText(d), ' ');
            |words| == 4 && ParseInt(words[0]) == Some(d.days) && ParseInt(words[2]) == Some(d.hours)
  {
    IntToStringRoundTrip(d.days);
    IntToStringRoundTrip(d.hours);
  }

  /** A trip of `days` days, `hours` hours and less than an extra hour is shown as exactly that. */
  lemma {:induction false} DurationOfWholeHours(start: int, days: nat, hours: nat, extraMs: nat)
    requires hours < 24 && extraMs < HourMs
    ensures TripDuration(Some(start), Some(start + (days * 24 + hours) * HourMs + extraMs)) == Span(days, hours)
  {
    var diff := (days * 24 + hours) * HourMs + extraMs;
    var totalHours := days * 24 + hours;
    assert diff / HourMs == totalHours by {
      assert diff == totalHours * HourMs + extraMs;
    }
    assert totalHours / 24 == days && totalHours % 24 == hours by {
      assert totalHours == days * 24 + hours;
    }
  }

  // ---------------------------------------------------------------------
  // Selected place

  /** One entry of a place's `address_components`. */
  datatype AddressComponent = AddressComponent(longName: string, types: seq<string>)

  /** What the autocomplete reports for the selected place; `location` is
      absent when the place has no geometry. */
  datatype PlaceDetails = PlaceDetails(
    name: string,
    location: Option<(real, real)>,
    formattedAddress: string,
    addressComponents: seq<AddressComponent>)

  /** The `place` state: the place's name and coordinates. */
  datatype Place = Place(name: string, lat: real, lng: real)

  /** The formatted address cut to its first two parts and the one before
      last when it has more than two comma-separated parts, and otherwise all
      its parts, joined by ", ". The parts are not trimmed. */
  function ShortenAddress(formatted: string): (short: string)
    ensures var parts := Split(formatted, ',');
            var kept := if |parts| > 2 then [parts[0], parts[1], parts[|parts| - 2]] else parts;
            Split(short, ',') == [kept[0]] + Spaced(kept[1..])
  {
    var parts := Split(formatted, ',');
    var kept := if |parts| > 2 then [parts[0], parts[1], parts[|parts| - 2]] else parts;
    assert forall i :: 0 <= i < |kept| ==> kept[i] in parts;
    SplitJoinedWithCommaSpace(kept);
    if |parts| > 2 then
      assert Join(kept, ", ") == parts[0] + ", " + parts[1] + ", " + parts[|parts| - 2] by {
        assert kept[1..] == [parts[1], parts[|parts| - 2]];
        assert kept[1..][1..] == [parts[|parts| - 2]];
        assert Join(kept[1..], ", ") == parts[1] + ", " + parts[|parts| - 2];
      }
      parts[0] + ", " + parts[1] + ", " + parts[|parts| - 2]
    else Join(parts, ", ")
  }

  /** An address of three or more parts keeps its first, its second and its
      next-to-last part, each exactly as written, so the space after each
      comma of the input stays in front of the part. */
  lemma ShortenManyParts(parts: seq<string>)
    requires |parts| > 2
    requires forall i :: 0 <= i < |parts| ==> ',' !in parts[i]
    ensures ShortenAddress(Join(parts, ",")) == parts[0] + ", " + parts[1] + ", " + parts[|parts| - 2]
  {
    SplitJoin(parts, ',');
  }

  /** An address of two parts gets a space after its comma. */
  lemma ShortenTwoParts(first: string, second: string)
    requires ',' !in first && ',' !in second
    ensures ShortenAddress(first + "," + second) == first + ", " + second
  {
    var parts := [first, second];
    assert parts[1..] == [second];
    assert Join(parts, ",") == first + "," + second;
    SplitJoin(parts, ',');
    assert Join(parts, ", ") == first + ", " + second;
  }

  /** An address without a comma is kept as it is. */
  lemma ShortenOnePart(formatted: string)
    requires ',' !in formatted
    ensures ShortenAddress(formatted) == formatted
  {
    SplitWithoutSeparator(formatted, ',');
  }

  /** The long name of the first component whose types include "locality". */
  function FindLocality(components: seq<AddressComponent>): (city: Option<string>)
    ensures city.None? <==> forall i :: 0 <= i < |components| ==> "locality" !in components[i].types
    ensures city.Some? ==> exists i :: 0 <= i < |components| && "locality" in components[i].types
                                       && components[i].longName == city.value
                                       && forall j :: 0 <= j < i ==> "locality" !in components[j].types
    decreases |components|
  {
    if components == [] then None
    else if "locality" in components[0].types then Some(components[0].longName)
    else
      var rest := FindLocality(components[1..]);
      assert forall i :: 1 <= i < |components| ==> components[i] == components[1..][i - 1];
      if rest.Some? then
        var k :| 0 <= k < |components[1..]| && "locality" in components[1..][k].types
                 && components[1..][k].longName == rest.value
                 && forall j :: 0 <= j < k ==> "locality" !in components[1..][j].types;
        assert components[k + 1] == components[1..][k];
        rest
      else rest
  }

  // ---------------------------------------------------------------------
  // Search route

  /** The city as it appears in the results route: "Bengaluru" is spelled
      "bangalore", every other city is lower-cased. */
  function RouteCity(city: string): (route: string)
    ensures |route| == |city|
  {
    if city == "Bengaluru" then "bangalore" else Lower(city)
  }

  /** The results route for a city: the route city can be read back from
      between the fixed prefix and suffix. */
  function SearchPath(city: string): (path: string)
    ensures |path| == |city| + 29
    ensures path[..24] == "/self-drive-car-rentals/" && path[|path| - 5..] == "/cars"
    ensures path[24..|path| - 5] == RouteCity(city)
  {
    "/self-drive-car-rentals/" + RouteCity(city) + "/cars"
  }

  /** Two cities lead to the same results route exactly when their route
      cities agree. */
  lemma SearchPathSameRoute(city: string, other: string)
    ensures SearchPath(city) == SearchPath(other) <==> RouteCity(city) == RouteCity(other)
  {
    if SearchPath(city) == SearchPath(other) {
      assert RouteCity(city) == SearchPath(city)[24..|SearchPath(city)| - 5];
    }
  }

  /** The route city of every input: "bangalore" exactly for "Bengaluru" and
      for names that lower-case to "bangalore"; every other city is merely
      lower-cased, so any other spelling of Bengaluru ("bengaluru",
      "BENGALURU", ...) gets the route "bengaluru"; and the route city is
      unchanged by lower-casing. */
  lemma RouteCityCases(city: string)
    ensures RouteCity(city) == "bangalore" <==> city == "Bengaluru" || Lower(city) == "bangalore"
    ensures city != "Bengaluru" ==> RouteCity(city) == Lower(city)
    ensures city != "Bengaluru" && Lower(city) == "bengaluru" ==> RouteCity(city) == "bengaluru"
    ensures Lower(RouteCity(city)) == RouteCity(city)
  {
    var route := RouteCity(city);
    forall i | 0 <= i < |route|
      ensures Lower(route)[i] == route[i]
    {
      if city != "Bengaluru" {
        assert route[i] == LowerChar(city[i]);
      }
    }
  }

  /** The route city has no upper-case letter. */
  lemma RouteCityIsLowerCase(city: string)
    ensures forall i :: 0 <= i < |RouteCity(city)| ==> !('A' <= RouteCity(city)[i] <= 'Z')
  {
    if city != "Bengaluru" {
      forall i | 0 <= i < |city|
        ensures !('A' <= Lower(city)[i] <= 'Z')
      {
        assert Lower(city)[i] == LowerChar(city[i]);
      }
    }
  }

  /** Only the exact spelling "Bengaluru" is renamed; the same name in
      capitals is merely lower-cased. */
  lemma OnlyExactBengaluruIsRenamed()
    ensures SearchPath("Bengaluru") == "/self-drive-car-rentals/bangalore/cars"
    ensures SearchPath("BENGALURU") == "/self-drive-car-rentals/bengaluru/cars"
  {
    assert "BENGALURU" != "Bengaluru" by {
      assert "BENGALURU"[1] != "Bengaluru"[1];
    }
    assert Lower("BENGALURU") == "bengaluru";
  }

  const RequiredFieldsToast: string := "Required fields are empty"

  /** The state handed to the results page. */
  datatype SearchData = SearchData(address: string, lat: real, lng: real,
                                   startDate: string, endDate: string, tripDuration: string)

  datatype SearchNavigation = SearchNavigation(path: string, state: SearchData)

  // ---------------------------------------------------------------------
  // Header text

  const HeaderTexts: seq<string> := [
    "Smart rentals, easy driving",
    "Affordable rides for less",
    "Great deals, Smooth drives",
    "Drive more, Spend less",
    "Compare and save on rental"
  ]

  /** The header index after the next tick of the interval. */
  function NextHeaderIndex(i: nat): (j: nat)
    ensures j < |HeaderTexts|
  {
    (i + 1) % |HeaderTexts|
  }

  /** The header index after n ticks. */
  function HeaderIndexAfter(i: nat, n: nat): nat
    decreases n
  {
    if n == 0 then i else NextHeaderIndex(HeaderIndexAfter(i, n - 1))
  }

  /** From a valid index, n ticks move the header n places round the five texts. */
  lemma {:induction false} HeaderCycles(i: nat, n: nat)
    requires i < |HeaderTexts|
    ensures HeaderIndexAfter(i, n) == (i + n) % |HeaderTexts|
    decreases n
  {
    if n > 0 {
      HeaderCycles(i, n - 1);
      var k := (i + n - 1) % 5;
      assert (i + n - 1) == 5 * ((i + n - 1) / 5) + k;
      assert (k + 1) % 5 == (i + n) % 5 by {
        assert i + n == 5 * ((i + n - 1) / 5) + (k + 1);
      }
    }
  }

  // ---------------------------------------------------------------------
  // The component's state

  class SearchBox {
    var place: Option<Place>
    var city: string
    var address: string
    var startDate: string
    var endDate: string
    var tripDuration: string
    var fade: bool
    var headerIndex: nat
    var fromSearch: bool
    var navigation: Option<SearchNavigation>
    var toasts: seq<string>

    /** The header index names one of the texts, and a city is only ever set
        together with the place it came from, so a search can read the
        place's coordinates. */
    predicate Valid()
      reads this
    {
      headerIndex < |HeaderTexts| && (city != "" ==> place.Some?)
    }

    /** The initial state; `now` is the current time the start date begins with. */
    constructor (now: string)
      ensures Valid()
      ensures place == None && city == "" && address == "" && startDate == now && endDate == ""
      ensures tripDuration == "Select both dates" && !fade && headerIndex == 0
      ensures !fromSearch && navigation == None && toasts == []
    {
      place := None;
      city := "";
      address := "";
      startDate := now;
      endDate := "";
      tripDuration := "Select both dates";
      fade := false;
      headerIndex := 0;
      fromSearch := false;
      navigation := None;
      toasts := [];
    }

    /** `handlePlaceSelect`; `selected` is what the autocomplete reports, or
        None before the autocomplete is loaded. A place with a location sets
        the place, the short address and the city (empty when no component
        is a locality); otherwise nothing changes. */
    method HandlePlaceSelect(selected: Option<PlaceDetails>)
      requires Valid()
      modifies this
      ensures Valid()
      ensures selected.Some? && selected.value.location.Some? ==>
                var details := selected.value;
                && place == Some(Place(details.name, details.location.value.0, details.location.value.1))
                && address == ShortenAddress(details.formattedAddress)
                && city == (match FindLocality(details.addressComponents)
                            case Some(name) => name
                            case None => "")
      ensures !(selected.Some? && selected.value.location.Some?) ==>
                place == old(place) && address == old(address) && city == old(city)
      ensures startDate == old(startDate) && endDate == old(endDate) && tripDuration == old(tripDuration)
      ensures fade == old(fade) && headerIndex == old(headerIndex)
      ensures fromSearch == old(fromSearch) && navigation == old(navigation) && toasts == old(toasts)
    {
      if selected.Some? {
        var details := selected.value;
        if details.location.Some? {
          var (lat, lng) := details.location.value;
          place := Some(Place(details.name, lat, lng));
          address := ShortenAddress(details.formattedAddress);
          var cityComponent := FindLocality(details.addressComponents);
          if cityComponent.Some? {
            city := cityComponent.value;
          } else {
            city := "";
          }
        }
      }
    }

    /** `handleStartDateChange`: sets the start date, and recomputes the
        duration when an end date is set. */
    method HandleStartDateChange(newStart: string, parseDate: string -> Option<int>)
      requires Valid()
      modifies this
      ensures Valid()
      ensures startDate == newStart
      ensures tripDuration == if endDate != "" then DurationText(TripDuration(parseDate(newStart), parseDate(endDate)))
                              else old(tripDuration)
      ensures endDate == old(endDate) && place == old(place) && city == old(city) && address == old(address)
      ensures fade == old(fade) && headerIndex == old(headerIndex)
      ensures fromSearch == old(fromSearch) && navigation == old(navigation) && toasts == old(toasts)
    {
      startDate := newStart;
      if endDate != "" {
        tripDuration := DurationText(TripDuration(parseDate(newStart), parseDate(endDate)));
      }
    }

    /** `handleEndDateChange`: sets the end date, and recomputes the duration
        when a start date is set. */
    method HandleEndDateChange(newEnd: string, parseDate: string -> Option<int>)
      requires Valid()
      modifies this
      ensures Valid()
      ensures endDate == newEnd
      ensures tripDuration == if startDate != "" then DurationText(TripDuration(parseDate(startDate), parseDate(newEnd)))
                              else old(tripDuration)
      ensures startDate == old(startDate) && place == old(place) && city == old(city) && address == old(address)
      ensures fade == old(fade) && headerIndex == old(headerIndex)
      ensures fromSearch == old(fromSearch) && navigation == old(navigation) && toasts == old(toasts)
    {
      endDate := newEnd;
      if startDate != "" {
        tripDuration := DurationText(TripDuration(parseDate(startDate), parseDate(newEnd)));
      }
    }

    /** `handleSearch`: with a city, a start date and an end date, flags the
        search and navigates to the city's results with the search data;
        otherwise shows the "Required fields are empty" toast. */
    method HandleSearch()
      requires Valid()
      modifies this
      ensures place == old(place) && city == old(city) && address == old(address)
      ensures Valid()
      ensures old(city != "" && startDate != "" && endDate != "") ==>
                && fromSearch
                && navigation == Some(SearchNavigation(SearchPath(city),
                                      SearchData(address, place.value.lat, place.value.lng, startDate, endDate, tripDuration)))
                && toasts == old(toasts)
      ensures !old(city != "" && startDate != "" && endDate != "") ==>
                && fromSearch == old(fromSearch) && navigation == old(navigation)
                && toasts == old(toasts) + [RequiredFieldsToast]
      ensures startDate == old(startDate) && endDate == old(endDate) && tripDuration == old(tripDuration)
      ensures fade == old(fade) && headerIndex == old(headerIndex)
    {
      if city != "" && startDate != "" && endDate != "" {
        var Place(_, lat, lng) := place.value;
        var searchData := SearchData(address, lat, lng, startDate, endDate, tripDuration);
        fromSearch := true;
        navigation := Some(SearchNavigation(SearchPath(city), searchData));
      } else {
        toasts := toasts + [RequiredFieldsToast];
      }
    }

    /** The interval's tick: the header starts fading. */
    method StartFade()
      requires Valid()
      modifies this
      ensures Valid() && fade
      ensures headerIndex == old(headerIndex) && place == old(place) && city == old(city)
      ensures address == old(address) && startDate == old(startDate) && endDate == old(endDate)
      ensures tripDuration == old(tripDuration) && fromSearch == old(fromSearch)
      ensures navigation == old(navigation) && toasts == old(toasts)
    {
      fade := true;
    }

    /** Half a second after the tick: the next header text, no longer fading. */
    method AdvanceHeader()
      requires Valid()
      modifies this
      ensures Valid() && !fade
      ensures headerIndex == NextHeaderIndex(old(headerIndex))
      ensures place == old(place) && city == old(city)
      ensures address == old(address) && startDate == old(startDate) && endDate == old(endDate)
      ensures tripDuration == old(tripDuration) && fromSearch == old(fromSearch)
      ensures navigation == old(navigation) && toasts == old(toasts)
    {
      headerIndex := (headerIndex + 1) % |HeaderTexts|;
      fade := false;
    }
  }
}
