/** The MyChoize partner integration (src/utils/mychoize.js): kilometre
    allowances and package labels per rate basis, the partner's date
    encoding, a counted retry loop around the transport, and the two
    transforms that turn the partner's search records into car listings —
    subscription listings one per record, and rental listings grouped by
    the partner's group key with their fares aggregated.

    The transport is abstract: call i of a request returns `transport(i)`.
    `toPascalCase` (an unseen helper) is the parameter `pascal`, and the
    vendor multiplier from `getVendorDetails` is the parameter `multiplier`. */
module MyChoize {
  import opened Common
  import opened Text
  import opened Collections

  const Rupee: string := "\U{20B9}"

  // ---------------------------------------------------------------------
  // Rate bases: package labels and kilometre allowances

  /** The per-day package label of a rate-basis code; unknown codes read "Undefined". */
  function FindPackage(rateBasis: string): (pkg: string)
    ensures rateBasis == "FF" ==> pkg == "120km/day"
    ensures rateBasis == "MP" ==> pkg == "300km/day"
    ensures rateBasis == "DR" ==> pkg == "Unlimited KMs"
    ensures pkg == "Undefined" <==> rateBasis !in {"FF", "MP", "DR"}
  {
    if rateBasis == "FF" then "120km/day"
    else if rateBasis == "MP" then "300km/day"
    else if rateBasis == "DR" then "Unlimited KMs"
    else "Undefined"
  }

  /** A kilometre allowance: a number of kilometres, or no limit. */
  datatype KmAllowance = Kms(amount: real) | Unlimited

  /** The allowance of each rate basis for a trip of the given length, prorated from the per-day package. */
  function GetTotalKms(tripDurationHours: real): (kms: map<string, KmAllowance>)
    ensures kms.Keys == {"FF", "MP", "DR"}
    ensures kms["FF"] == Kms(5.0 * tripDurationHours)
    ensures kms["MP"] == Kms(12.5 * tripDurationHours)
    ensures kms["DR"] == Unlimited
  {
    map["FF" := Kms((120.0 / 24.0) * tripDurationHours),
        "MP" := Kms((300.0 / 24.0) * tripDurationHours),
        "DR" := Unlimited]
  }

  /** Over whole days the allowances are the daily packages times the number of
      days: 120 km a day for FF, 300 for MP, and no limit for DR, whose package
      label and allowance agree. */
  lemma AllowanceMatchesPackage(days: nat, hours: real)
    requires hours == 24.0 * days as real
    ensures GetTotalKms(hours)["FF"] == Kms(120.0 * days as real) && FindPackage("FF") == "120km/day"
    ensures GetTotalKms(hours)["MP"] == Kms(300.0 * days as real) && FindPackage("MP") == "300km/day"
    ensures GetTotalKms(hours)["DR"] == Unlimited && FindPackage("DR") == "Unlimited KMs"
  {
  }

  // ---------------------------------------------------------------------
  // The partner's date encoding

  const DatePrefix: string := "/Date("
  const DateSuffix: string := "+0530)/"

  /** `/Date(<milliseconds>+0530)/`, or nothing when the input is not a date.
      `parseDate` stands for `new Date(...)`: the epoch milliseconds, if any. */
  function FormatDateForMyChoize(dateString: string, parseDate: string -> Option<int>): (r: Option<string>)
    ensures r.None? <==> parseDate(dateString).None?
    ensures r.Some? ==> (&& |r.value| > |DatePrefix| + |DateSuffix|
                         && r.value[..|DatePrefix|] == DatePrefix
                         && r.value[|r.value| - |DateSuffix|..] == DateSuffix)
  {
    match parseDate(dateString)
    case None => None
    case Some(millis) => Some(DatePrefix + IntToString(millis) + DateSuffix)
  }

  /** Reads the milliseconds back out of the partner's encoding. */
  function ParseMyChoizeDate(s: string): Option<int>
  {
    if |s| >= |DatePrefix| + |DateSuffix|
       && s[..|DatePrefix|] == DatePrefix
       && s[|s| - |DateSuffix|..] == DateSuffix
    then ParseInt(s[|DatePrefix|..|s| - |DateSuffix|])
    else None
  }

  /** The encoding loses nothing: the milliseconds are recovered from it. */
  lemma FormatDateRoundTrip(dateString: string, parseDate: string -> Option<int>)
    requires parseDate(dateString).Some?
    ensures FormatDateForMyChoize(dateString, parseDate).Some?
    ensures ParseMyChoizeDate(FormatDateForMyChoize(dateString, parseDate).value) == parseDate(dateString)
  {
    var millis := parseDate(dateString).value;
    var digits := IntToString(millis);
    var s := DatePrefix + digits + DateSuffix;
    assert s[|DatePrefix|..|s| - |DateSuffix|] == digits;
    IntToStringRoundTrip(millis);
  }

  // ---------------------------------------------------------------------
  // Retrying a request

  /** What one call of the transport gives: a parsed body, or a failure
      (the call threw, the status was not ok, or the body did not parse). */
  datatype Attempt<T> = Succeeded(body: T) | Failed

  const DefaultRetries: int := 5
  const DefaultDelay: int := 500
  const RetryExhausted: string := "MyChoize API failed after multiple retries."

  /** Every call before call k fails. */
  predicate FailsBefore<T>(transport: nat -> Attempt<T>, k: int)
  {
    forall i: nat :: i < k ==> transport(i).Failed?
  }

  /** The index of the first of the first `retries` calls that succeeds, if any. */
  function FirstSuccess<T>(transport: nat -> Attempt<T>, retries: int, from: nat := 0): (r: Option<nat>)
    requires FailsBefore(transport, from)
    ensures r.Some? ==> r.value < retries && transport(r.value).Succeeded? && FailsBefore(transport, r.value)
    ensures r.None? ==> FailsBefore(transport, retries)
    decreases Max0(retries - from)
  {
    if retries <= from then None
    else if transport(from).Succeeded? then Some(from)
    else FirstSuccess(transport, retries, from + 1)
  }

  /** The waits of a linear back-off: delay, 2·delay, 3·delay, ... */
  function Backoff(delay: int, n: nat): (waits: seq<int>)
    ensures |waits| == n
  {
    seq(n, j => delay * (j + 1))
  }

  /** Calls the transport until a call succeeds, at most `retries` times.
      Returns the body of the first successful call, the number of calls made
      and the waits between them: after failed call i (counting from 0) it
      waits delay·(i+1), except after the last permitted call. */
  method FetchWithRetry<T>(transport: nat -> Attempt<T>, retries: int, delay: int)
    returns (r: Result<T, string>, calls: nat, waits: seq<int>)
    ensures calls <= Max0(retries)
    ensures FailsBefore(transport, calls - 1)
    ensures r.Success? <==> calls > 0 && transport(calls - 1).Succeeded?
    ensures r.Success? ==> calls > 0 && r.value == transport(calls - 1).body
    ensures r.Failure? ==> calls == Max0(retries) && FailsBefore(transport, calls) && r.error == RetryExhausted
    ensures waits == Backoff(delay, Max0(calls - 1))
    ensures r.Success? <==> FirstSuccess(transport, retries).Some?
    ensures r.Success? ==> calls == FirstSuccess(transport, retries).value + 1
  {
    calls, waits := 0, [];
    var i := 0;
    while i < retries
      invariant 0 <= i <= Max0(retries)
      invariant calls == i
      invariant FailsBefore(transport, i)
      invariant waits == Backoff(delay, if i < retries then i else Max0(i - 1))
    {
      calls := calls + 1;
      var outcome := transport(i);
      if outcome.Succeeded? {
        r := Success(outcome.body);
        return;
      }
      if i < retries - 1 {
        waits := waits + [delay * (i + 1)];
      }
      i := i + 1;
    }
    r := Failure(RetryExhausted);
  }

  // ---------------------------------------------------------------------
  // Partner records and the subscription listing

  /** One record of the partner's search response. Fields the code reads as
      text are strings; a missing `BrandName` is the empty string, which is
      the one value of the field that JavaScript treats as false.
      `transMissionType` is the property `TransMissionType`; the code also
      reads a property spelled `TransmissionType`, which is a different
      property and may be absent, hence `transmissionType`. */
  datatype RawRecord = RawRecord(
    tariffKey: string,
    brandName: string,
    rateBasis: string,
    transMissionType: string,
    transmissionType: Option<string>,
    fuelType: string,
    seatingCapacity: string,
    locationName: string,
    locationKey: string,
    perUnitCharges: string,
    vehicleBrandImageName: string,
    exKmRate: string,
    totalBookinCount: string,
    totalExpCharge: int,
    groupKey: string,
    brandGroundLength: string,
    brandKey: string,
    brandLength: string,
    luggageCapacity: string,
    rftEngineCapacity: string,
    vtrHybridFlag: string,
    vtrSuvFlag: string)

  /** The search response; `SearchBookingModel` may be missing. */
  datatype SearchResponse = SearchResponse(searchBookingModel: Option<seq<RawRecord>>)

  const RatingText: string := "No ratings available"
  const SourceName: string := "mychoize"
  const SourceImage: string := "/images/ServiceProvider/mychoize.png"

  /** A subscription listing. `rateBasis` is read from a lower-case property
      the partner's records do not have, so it is always absent. */
  datatype SubscriptionListing = SubscriptionListing(
    id: string,
    brand: string,
    name: string,
    options: seq<string>,
    address: string,
    locationkey: string,
    hourlyAmount: string,
    images: seq<string>,
    ratingText: string,
    extrakmCharge: string,
    trips: string,
    source: string,
    sourceImg: string,
    fare: string,
    rateBasis: Option<string>)

  /** Word k of the brand name (`BrandName.split(" ")[k]`), absent past the last word. */
  function BrandWord(brandName: string, k: nat): Option<string>
  {
    var words := Split(brandName, ' ');
    if k < |words| then Some(words[k]) else None
  }

  function Seats(car: RawRecord): string
  {
    car.seatingCapacity + " Seats"
  }

  function ExtraKmCharge(car: RawRecord): string
  {
    Rupee + car.exKmRate + "/km"
  }

  /** Subscription records: rate basis "MLK" and a brand name. */
  predicate IsSubscriptionRecord(car: RawRecord)
  {
    car.rateBasis == "MLK" && car.brandName != ""
  }

  /** The subscription listing of one record: its fare is the rupee sign
      and text that reads back as the record's TotalExpCharge, and it carries
      no rate basis. */
  function ToSubscription(car: RawRecord, pascal: Option<string> -> string): (listing: SubscriptionListing)
    ensures listing.rateBasis.None?
    ensures |listing.fare| > |Rupee| && listing.fare[..|Rupee|] == Rupee && ParseInt(listing.fare[|Rupee|..]) == Some(car.totalExpCharge)
  {
    IntToStringRoundTrip(car.totalExpCharge);
    assert (Rupee + IntToString(car.totalExpCharge))[|Rupee|..] == IntToString(car.totalExpCharge);
    SubscriptionListing(
      car.tariffKey, pascal(BrandWord(car.brandName, 0)), pascal(BrandWord(car.brandName, 1)),
      [car.transMissionType, car.fuelType, Seats(car)],
      car.locationName, car.locationKey, car.perUnitCharges, [car.vehicleBrandImageName],
      RatingText, ExtraKmCharge(car), car.totalBookinCount, SourceName, SourceImage,
      Rupee + IntToString(car.totalExpCharge), None)
  }

  /** The listings of the subscription records: no more than there are
      records, each made from one subscription record. */
  function SubscriptionListings(records: seq<RawRecord>, pascal: Option<string> -> string): (listings: seq<SubscriptionListing>)
    ensures |listings| <= |records|
    ensures forall j :: 0 <= j < |listings| ==>
              exists i :: 0 <= i < |records| && IsSubscriptionRecord(records[i]) && listings[j] == ToSubscription(records[i], pascal)
  {
    var kept := Filter(records, IsSubscriptionRecord);
    KeptFromSubscriptionRecords(records, kept);
    var listings := seq(|kept|, j requires 0 <= j < |kept| => ToSubscription(kept[j], pascal));
    assert forall j :: 0 <= j < |kept| ==> listings[j] == ToSubscription(kept[j], pascal);
    listings
  }

  lemma KeptFromSubscriptionRecords(records: seq<RawRecord>, kept: seq<RawRecord>)
    requires kept == Filter(records, IsSubscriptionRecord)
    ensures forall j :: 0 <= j < |kept| ==>
              exists i :: 0 <= i < |records| && IsSubscriptionRecord(records[i]) && records[i] == kept[j]
  {
    forall j | 0 <= j < |kept|
      ensures exists i :: 0 <= i < |records| && IsSubscriptionRecord(records[i]) && records[i] == kept[j]
    {
      var i :| 0 <= i < |records| && records[i] == kept[j];
    }
  }

  /** Subscription listings from the one response of a single call: none when
      the call failed or the response lacks `SearchBookingModel`. */
  function FetchSubscriptionCars(response: Attempt<SearchResponse>, pascal: Option<string> -> string): (cars: seq<SubscriptionListing>)
    ensures response.Failed? ==> cars == []
    ensures response.Succeeded? && response.body.searchBookingModel.None? ==> cars == []
    ensures response.Succeeded? && response.body.searchBookingModel.Some? ==>
              |cars| <= |response.body.searchBookingModel.value|
  {
    match response
    case Failed => []
    case Succeeded(body) =>
      match body.searchBookingModel
      case None => []
      case Some(records) => SubscriptionListings(records, pascal)
  }

  /** One listing per subscription record, in the order of the records: the
      j-th listing comes from record idx[j], the indices increase, exactly the
      subscription records are used, and each listing's fare is the rupee
      sign and the record's TotalExpCharge, with no rate basis. */
  lemma SubscriptionListingsSpec(records: seq<RawRecord>, pascal: Option<string> -> string) returns (idx: seq<nat>)
    ensures |idx| == |SubscriptionListings(records, pascal)|
    ensures forall j, k :: 0 <= j < k < |idx| ==> idx[j] < idx[k]
    ensures forall i :: 0 <= i < |records| ==> (i in idx <==> IsSubscriptionRecord(records[i]))
    ensures forall j :: 0 <= j < |idx| ==>
              idx[j] < |records|
              && SubscriptionListings(records, pascal)[j] == ToSubscription(records[idx[j]], pascal)
              && SubscriptionListings(records, pascal)[j].fare == Rupee + IntToString(records[idx[j]].totalExpCharge)
              && SubscriptionListings(records, pascal)[j].rateBasis.None?
  {
    idx := FilterIndices(records, IsSubscriptionRecord);
  }

  // ---------------------------------------------------------------------
  // Rental listings grouped by GroupKey

  /** A rental listing before its fare is set: the descriptive fields come
      from the first record of the group; `rateBasisFare` and `allFares`
      accumulate over every record of the group. */
  datatype GroupedListing = GroupedListing(
    id: string,
    brand: string,
    name: string,
    options: seq<string>,
    address: string,
    locationId: string,
    hourlyAmount: string,
    images: seq<string>,
    ratingText: string,
    totalKm: map<string, KmAllowance>,
    extrakmCharge: string,
    trips: string,
    source: string,
    sourceImg: string,
    rateBasisFare: map<string, int>,
    allFares: seq<int>,
    brandGroundLength: string,
    brandKey: string,
    brandLength: string,
    fuelType: string,
    groupKey: string,
    locationKey: string,
    luggageCapacity: string,
    rftEngineCapacity: string,
    seatingCapacity: string,
    tariffKey: string,
    transmissionType: Option<string>,
    vtrHybridFlag: string,
    vtrSuvFlag: string)

  /** A listing as returned: the group with its display fare and inflated fare. */
  datatype RentalListing = RentalListing(car: GroupedListing, fare: string, inflatedFare: string)

  /** Rental records: any rate basis other than "MLK", and a brand name. */
  predicate IsRentalRecord(car: RawRecord)
  {
    car.rateBasis != "MLK" && car.brandName != ""
  }

  /** The listing a group starts as when its first record is seen. */
  function NewGroup(car: RawRecord, totalKm: map<string, KmAllowance>, pascal: Option<string> -> string): (g: GroupedListing)
    ensures g.groupKey == car.groupKey && g.totalKm == totalKm
    ensures g.rateBasisFare == map[] && g.allFares == []
  {
    GroupedListing(
      car.tariffKey, pascal(BrandWord(car.brandName, 0)), pascal(BrandWord(car.brandName, 1)),
      [car.transMissionType, car.fuelType, Seats(car)],
      car.locationName, car.locationKey, car.perUnitCharges, [car.vehicleBrandImageName],
      RatingText, totalKm, ExtraKmCharge(car), car.totalBookinCount, SourceName, SourceImage,
      map[], [],
      car.brandGroundLength, car.brandKey, car.brandLength, car.fuelType, car.groupKey,
      car.locationKey, car.luggageCapacity, car.rftEngineCapacity, car.seatingCapacity,
      car.tariffKey, car.transmissionType, car.vtrHybridFlag, car.vtrSuvFlag)
  }

  /** The effect of one record on the groups. */
  function AddRecord(groups: map<string, GroupedListing>, car: RawRecord,
                     totalKm: map<string, KmAllowance>, pascal: Option<string> -> string): (after: map<string, GroupedListing>)
    ensures car.groupKey in after && after == groups[car.groupKey := after[car.groupKey]]
  {
    var base := if car.groupKey in groups then groups[car.groupKey] else NewGroup(car, totalKm, pascal);
    groups[car.groupKey := base.(rateBasisFare := base.rateBasisFare[car.rateBasis := car.totalExpCharge],
                                 allFares := PushIfAbsent(base.allFares, car.totalExpCharge))]
  }

  /** The groups after every record of `cars`, in order. */
  function GroupAll(cars: seq<RawRecord>, totalKm: map<string, KmAllowance>, pascal: Option<string> -> string): (groups: map<string, GroupedListing>)
    ensures forall i :: 0 <= i < |cars| ==> cars[i].groupKey in groups
    ensures |groups| <= |cars|
    decreases |cars|
  {
    if cars == [] then map[]
    else
      var init := cars[..|cars| - 1];
      assert forall i :: 0 <= i < |init| ==> init[i] == cars[i];
      AddRecord(GroupAll(init, totalKm, pascal), cars[|cars| - 1], totalKm, pascal)
  }

  /** Each group is filed under its own key, has at least one fare, and lists
      every fare of its rate-basis map among its fares. */
  ghost predicate WellFormedGroups(groups: map<string, GroupedListing>)
  {
    forall k :: k in groups ==>
      && groups[k].groupKey == k
      && |groups[k].allFares| > 0
      && forall v :: v in groups[k].rateBasisFare.Values ==> v in groups[k].allFares
  }

  lemma {:induction false} GroupAllWellFormed(cars: seq<RawRecord>, totalKm: map<string, KmAllowance>, pascal: Option<string> -> string)
    ensures WellFormedGroups(GroupAll(cars, totalKm, pascal))
    decreases |cars|
  {
    if cars != [] {
      var n := |cars| - 1;
      var car := cars[n];
      var prev := GroupAll(cars[..n], totalKm, pascal);
      GroupAllWellFormed(cars[..n], totalKm, pascal);
      var base := if car.groupKey in prev then prev[car.groupKey] else NewGroup(car, totalKm, pascal);
      var rbf := base.rateBasisFare[car.rateBasis := car.totalExpCharge];
      forall v | v in rbf.Values
        ensures v in PushIfAbsent(base.allFares, car.totalExpCharge)
      {
        var rb :| rb in rbf && rbf[rb] == v;
        if rb != car.rateBasis {
          assert v in base.rateBasisFare.Values;
        }
      }
    }
  }

  /** `Object.values(rateBasisFare).forEach(fare => { if (!allFares.includes(fare)) allFares.push(fare) })`
      after the fare of one rate basis was set to `fare`: the values are
      visited in no particular order. Because every other value is already
      among the fares, the loop adds at most `fare`, at the end. */
  method PushMissingFares(allFares: seq<int>, values: set<int>, fare: int) returns (fares: seq<int>)
    requires fare in values
    requires forall v :: v in values ==> v == fare || v in allFares
    ensures fares == PushIfAbsent(allFares, fare)
  {
    fares := allFares;
    var pending := values;
    while pending != {}
      invariant forall v :: v in pending ==> v == fare || v in allFares
      invariant fares == if fare in allFares || fare in pending then allFares else allFares + [fare]
      decreases pending
    {
      var v :| v in pending;
      if v !in fares {
        fares := fares + [v];
      }
      pending := pending - {v};
    }
  }

  /** One more record: the groups of a longer prefix. */
  lemma GroupAllNext(cars: seq<RawRecord>, i: nat, totalKm: map<string, KmAllowance>, pascal: Option<string> -> string)
    requires i < |cars|
    ensures GroupAll(cars[..i + 1], totalKm, pascal) == AddRecord(GroupAll(cars[..i], totalKm, pascal), cars[i], totalKm, pascal)
  {
    assert cars[..i + 1][..i] == cars[..i];
  }

  /** AddRecord in terms of the group the record starts from. */
  lemma AddRecordFrom(groups: map<string, GroupedListing>, car: RawRecord, totalKm: map<string, KmAllowance>,
                      pascal: Option<string> -> string, group: GroupedListing)
    requires group == if car.groupKey in groups then groups[car.groupKey] else NewGroup(car, totalKm, pascal)
    ensures AddRecord(groups, car, totalKm, pascal)
            == groups[car.groupKey := group.(rateBasisFare := group.rateBasisFare[car.rateBasis := car.totalExpCharge],
                                             allFares := PushIfAbsent(group.allFares, car.totalExpCharge))]
  {
  }

  /** After a record, its group holds its fare under its rate basis and
      among its fares, and the fares its group had before stay first, in
      their order. */
  lemma AddRecordEffect(groups: map<string, GroupedListing>, car: RawRecord,
                        totalKm: map<string, KmAllowance>, pascal: Option<string> -> string)
    ensures var g := AddRecord(groups, car, totalKm, pascal)[car.groupKey];
            car.rateBasis in g.rateBasisFare && g.rateBasisFare[car.rateBasis] == car.totalExpCharge
            && car.totalExpCharge in g.allFares
    ensures car.groupKey in groups ==>
              var before := groups[car.groupKey].allFares;
              var after := AddRecord(groups, car, totalKm, pascal)[car.groupKey].allFares;
              |before| <= |after| && after[..|before|] == before
  {
    var base := if car.groupKey in groups then groups[car.groupKey] else NewGroup(car, totalKm, pascal);
    var fares := PushIfAbsent(base.allFares, car.totalExpCharge);
    assert fares[..|base.allFares|] == base.allFares;
  }

  /** Setting the fare of one rate basis adds no value other than that fare. */
  lemma FaresAfterUpdate(rateBasisFare: map<string, int>, allFares: seq<int>, rateBasis: string, fare: int)
    requires forall v :: v in rateBasisFare.Values ==> v in allFares
    ensures fare in rateBasisFare[rateBasis := fare].Values
    ensures forall v :: v in rateBasisFare[rateBasis := fare].Values ==> v == fare || v in allFares
  {
    var updated := rateBasisFare[rateBasis := fare];
    assert updated[rateBasis] == fare;
    forall v | v in updated.Values
      ensures v == fare || v in allFares
    {
      var rb :| rb in updated && updated[rb] == v;
      if rb != rateBasis {
        assert v in rateBasisFare.Values;
      }
    }
  }

  /** Groups the rental records by GroupKey: the first record of a key
      creates its group, and every record sets the fare of its rate basis and
      then adds the fares of the group's rate-basis map that `allFares` does
      not hold yet. */
  method GroupCars(admitted: seq<RawRecord>, totalKm: map<string, KmAllowance>, pascal: Option<string> -> string)
    returns (groups: map<string, GroupedListing>)
    ensures groups == GroupAll(admitted, totalKm, pascal)
  {
    groups := map[];
    for i := 0 to |admitted|
      invariant groups == GroupAll(admitted[..i], totalKm, pascal)
    {
      GroupAllWellFormed(admitted[..i], totalKm, pascal);
      var car := admitted[i];
      var key := car.groupKey;
      var group := if key in groups then groups[key] else NewGroup(car, totalKm, pascal);
      var fare := car.totalExpCharge;
      FaresAfterUpdate(group.rateBasisFare, group.allFares, car.rateBasis, fare);
      var rateBasisFare := group.rateBasisFare[car.rateBasis := fare];
      var allFares := PushMissingFares(group.allFares, rateBasisFare.Values, fare);
      AddRecordFrom(groups, car, totalKm, pascal, group);
      groups := groups[key := group.(rateBasisFare := rateBasisFare, allFares := allFares)];
      GroupAllNext(admitted, i, totalKm, pascal);
    }
    assert admitted[..|admitted|] == admitted;
  }

  // ---------------------------------------------------------------------
  // What each group holds, stated record by record

  /** The admitted records that fall into group k, in their order. */
  function InGroup(cars: seq<RawRecord>, k: string): seq<RawRecord>
  {
    Filter(cars, (car: RawRecord) => car.groupKey == k)
  }

  /** The TotalExpCharge of each record. */
  function FaresOf(cars: seq<RawRecord>): (fares: seq<int>)
    ensures |fares| == |cars|
    ensures forall i :: 0 <= i < |cars| ==> fares[i] == cars[i].totalExpCharge
  {
    seq(|cars|, i requires 0 <= i < |cars| => cars[i].totalExpCharge)
  }

  /** For each rate basis, the fare of the last record with that rate basis. */
  function LastFares(cars: seq<RawRecord>): map<string, int>
    decreases |cars|
  {
    if cars == [] then map[]
    else LastFares(cars[..|cars| - 1])[cars[|cars| - 1].rateBasis := cars[|cars| - 1].totalExpCharge]
  }

  /** A rate basis has an entry exactly when some record has that basis. */
  lemma {:induction false} LastFaresKeys(cars: seq<RawRecord>, rb: string)
    ensures rb in LastFares(cars) <==> exists i :: 0 <= i < |cars| && cars[i].rateBasis == rb
    decreases |cars|
  {
    if cars != [] {
      var n := |cars| - 1;
      var init := cars[..n];
      LastFaresKeys(init, rb);
      assert LastFares(cars) == LastFares(init)[cars[n].rateBasis := cars[n].totalExpCharge];
      if exists i :: 0 <= i < |cars| && cars[i].rateBasis == rb {
        var i :| 0 <= i < |cars| && cars[i].rateBasis == rb;
        if i < n {
          assert init[i] == cars[i];
        }
      }
    }
  }

  /** Each rate basis keeps the fare of the last record with that basis. */
  lemma {:induction false} LastFaresValue(cars: seq<RawRecord>, rb: string) returns (i: nat)
    requires rb in LastFares(cars)
    ensures i < |cars| && cars[i].rateBasis == rb && LastFares(cars)[rb] == cars[i].totalExpCharge
    ensures forall j :: i < j < |cars| ==> cars[j].rateBasis != rb
    decreases |cars|
  {
    var n := |cars| - 1;
    var init := cars[..n];
    assert LastFares(cars) == LastFares(init)[cars[n].rateBasis := cars[n].totalExpCharge];
    if cars[n].rateBasis == rb {
      i := n;
    } else {
      i := LastFaresValue(init, rb);
      assert cars[i] == init[i];
      forall j | i < j < |cars|
        ensures cars[j].rateBasis != rb
      {
        if j < n {
          assert cars[j] == init[j];
        }
      }
    }
  }

  /** The listing a group of records adds up to: the listing of its first
      record, with each rate basis set to the fare of its last record and
      `allFares` holding every fare once, in the order first seen. */
  function Summary(group: seq<RawRecord>, totalKm: map<string, KmAllowance>, pascal: Option<string> -> string): GroupedListing
    requires |group| > 0
  {
    NewGroup(group[0], totalKm, pascal).(rateBasisFare := LastFares(group), allFares := DedupPush(FaresOf(group)))
  }

  lemma GroupStep(cars: seq<RawRecord>, k: string)
    requires |cars| > 0
    ensures var n := |cars| - 1;
            InGroup(cars, k) == InGroup(cars[..n], k) + (if cars[n].groupKey == k then [cars[n]] else [])
  {
  }

  lemma SummaryAppend(group: seq<RawRecord>, car: RawRecord, totalKm: map<string, KmAllowance>, pascal: Option<string> -> string)
    ensures var base := if group == [] then NewGroup(car, totalKm, pascal) else Summary(group, totalKm, pascal);
            Summary(group + [car], totalKm, pascal)
            == base.(rateBasisFare := base.rateBasisFare[car.rateBasis := car.totalExpCharge],
                     allFares := PushIfAbsent(base.allFares, car.totalExpCharge))
  {
    var after := group + [car];
    assert after[..|after| - 1] == group;
    assert LastFares(after) == LastFares(group)[car.rateBasis := car.totalExpCharge];
    var fares := FaresOf(after);
    assert fares == FaresOf(group) + [car.totalExpCharge];
    assert fares[..|fares| - 1] == FaresOf(group);
    assert DedupPush(fares) == PushIfAbsent(DedupPush(FaresOf(group)), car.totalExpCharge);
    if group != [] {
      assert after[0] == group[0];
    } else {
      assert LastFares(group) == map[] && DedupPush(FaresOf(group)) == [];
    }
  }

  /** A key names a group exactly when some admitted record carries it, and
      the group is the Summary of the records that carry it. */
  lemma {:induction false} GroupAllAt(cars: seq<RawRecord>, totalKm: map<string, KmAllowance>,
                                      pascal: Option<string> -> string, k: string)
    ensures k in GroupAll(cars, totalKm, pascal) <==> |InGroup(cars, k)| > 0
    ensures k in GroupAll(cars, totalKm, pascal) ==>
              GroupAll(cars, totalKm, pascal)[k] == Summary(InGroup(cars, k), totalKm, pascal)
    decreases |cars|
  {
    if cars != [] {
      var n := |cars| - 1;
      var init, car := cars[..n], cars[n];
      GroupAllAt(init, totalKm, pascal, k);
      GroupStep(cars, k);
      var before := GroupAll(init, totalKm, pascal);
      assert GroupAll(cars, totalKm, pascal) == AddRecord(before, car, totalKm, pascal);
      if car.groupKey == k {
        SummaryAppend(InGroup(init, k), car, totalKm, pascal);
      } else {
        assert InGroup(cars, k) == InGroup(init, k);
      }
    }
  }

  /** The group of key k, read off the records: its descriptive fields come
      from the first record carrying k, its rate-basis map holds for each
      rate basis the fare of the last such record, and its fares are theirs. */
  lemma GroupFromRecords(cars: seq<RawRecord>, totalKm: map<string, KmAllowance>,
                         pascal: Option<string> -> string, k: string) returns (idx: seq<nat>)
    requires k in GroupAll(cars, totalKm, pascal)
    ensures |idx| > 0
    ensures forall j :: 0 <= j < |idx| ==> idx[j] < |cars| && cars[idx[j]].groupKey == k
    ensures forall j, l :: 0 <= j < l < |idx| ==> idx[j] < idx[l]
    ensures forall i :: 0 <= i < |cars| ==> (i in idx <==> cars[i].groupKey == k)
    ensures var g := GroupAll(cars, totalKm, pascal)[k];
            var first := cars[idx[0]];
            && g.id == first.tariffKey
            && g.address == first.locationName
            && g.options == [first.transMissionType, first.fuelType, Seats(first)]
            && g.transmissionType == first.transmissionType
            && g.groupKey == k
            && g.totalKm == totalKm
            && g.rateBasisFare == LastFares(InGroup(cars, k))
  {
    GroupAllAt(cars, totalKm, pascal, k);
    idx := FilterIndices(cars, (car: RawRecord) => car.groupKey == k);
  }

  /** The fares of group k are exactly the fares of the records carrying k. */
  lemma GroupFaresAreRecordFares(cars: seq<RawRecord>, totalKm: map<string, KmAllowance>,
                                 pascal: Option<string> -> string, k: string)
    requires k in GroupAll(cars, totalKm, pascal)
    ensures |GroupAll(cars, totalKm, pascal)[k].allFares| > 0
    ensures forall i :: 0 <= i < |cars| && cars[i].groupKey == k ==>
              cars[i].totalExpCharge in GroupAll(cars, totalKm, pascal)[k].allFares
    ensures forall v :: v in GroupAll(cars, totalKm, pascal)[k].allFares ==>
              exists i :: 0 <= i < |cars| && cars[i].groupKey == k && cars[i].totalExpCharge == v
  {
    GroupAllAt(cars, totalKm, pascal, k);
    var idx := FilterIndices(cars, (car: RawRecord) => car.groupKey == k);
    var group := InGroup(cars, k);
    var fares := FaresOf(group);
    forall i | 0 <= i < |cars| && cars[i].groupKey == k
      ensures cars[i].totalExpCharge in DedupPush(fares)
    {
      assert i in idx;
      var t :| 0 <= t < |idx| && idx[t] == i;
      assert fares[t] == cars[i].totalExpCharge;
    }
    forall v | v in DedupPush(fares)
      ensures exists i :: 0 <= i < |cars| && cars[i].groupKey == k && cars[i].totalExpCharge == v
    {
      var t :| 0 <= t < |fares| && fares[t] == v;
      assert cars[idx[t]].totalExpCharge == v;
    }
  }

  /** `allFares` of a group lists each fare of the group's records once, and
      no other value, in the order the fares were first seen. */
  lemma GroupFaresSpec(cars: seq<RawRecord>, totalKm: map<string, KmAllowance>,
                       pascal: Option<string> -> string, k: string)
    requires k in GroupAll(cars, totalKm, pascal)
    ensures var g := GroupAll(cars, totalKm, pascal)[k];
            var fares := FaresOf(InGroup(cars, k));
            && NoDuplicates(g.allFares)
            && (forall v :: v in g.allFares <==> v in fares)
            && (forall i, j :: 0 <= i < j < |g.allFares| ==>
                  FirstIndex(fares, g.allFares[i]) < FirstIndex(fares, g.allFares[j]))
  {
    GroupAllAt(cars, totalKm, pascal, k);
    DedupPushFirstSightingOrder(FaresOf(InGroup(cars, k)));
  }

  // ---------------------------------------------------------------------
  // Display fares

  /** `parseInt` of a product that is a finite number of ordinary size: the
      integer part, truncated toward zero. */
  function TruncateToInt(x: real): (i: int)
    ensures 0.0 <= x ==> i as real <= x < i as real + 1.0
    ensures x < 0.0 ==> i as real - 1.0 < x <= i as real
  {
    if x >= 0.0 then x.Floor else -((-x).Floor)
  }

  /** The inflated fare of a fare: the fare times the vendor's multiplier, truncated. */
  function Inflate(rate: real, fare: int): int
  {
    TruncateToInt(rate * fare as real)
  }

  /** The rupee text of a number is never the rupee text of a word that does
      not read as a number. */
  lemma RupeeTextDiffers(v: int, word: string)
    requires ParseInt(word).None?
    ensures Rupee + IntToString(v) != Rupee + word
  {
    IntToStringRoundTrip(v);
    assert (Rupee + IntToString(v))[|Rupee|..] == IntToString(v);
    assert (Rupee + word)[|Rupee|..] == word;
  }

  /** `₹${Math.min(...allFares)}`: the smallest fare; with no fares
      `Math.min()` is Infinity. */
  function FareText(allFares: seq<int>): (text: string)
    ensures |allFares| == 0 <==> text == Rupee + "Infinity"
  {
    if |allFares| == 0 then Rupee + "Infinity"
    else
      RupeeTextDiffers(MinOf(allFares), "Infinity");
      Rupee + IntToString(MinOf(allFares))
  }

  /** `₹${parseInt(vendorData?.CurrentrateSd * Math.min(...allFares))}`. A
      missing multiplier makes the product NaN, and so does a product with
      Infinity, whose rendering `parseInt` cannot read. */
  function InflatedFareText(allFares: seq<int>, multiplier: Option<real>): (text: string)
    ensures |allFares| == 0 || multiplier.None? <==> text == Rupee + "NaN"
  {
    if |allFares| == 0 || multiplier.None? then Rupee + "NaN"
    else
      RupeeTextDiffers(Inflate(multiplier.value, MinOf(allFares)), "NaN");
      Rupee + IntToString(Inflate(multiplier.value, MinOf(allFares)))
  }

  /** A group with its display fare and inflated fare. */
  function Finish(group: GroupedListing, multiplier: Option<real>): (listing: RentalListing)
    ensures listing.car == group
  {
    RentalListing(group, FareText(group.allFares), InflatedFareText(group.allFares, multiplier))
  }

  /** The fare shown for a group is the lowest TotalExpCharge among all of its
      records, overwritten rate-basis entries included: m is the fare of one
      of them and no record of the group has a lower one. The inflated fare
      is m times the multiplier, truncated, and NaN without a multiplier. */
  lemma GroupFareIsMinimum(cars: seq<RawRecord>, totalKm: map<string, KmAllowance>,
                           pascal: Option<string> -> string, k: string, multiplier: Option<real>) returns (m: int)
    requires k in GroupAll(cars, totalKm, pascal)
    ensures Finish(GroupAll(cars, totalKm, pascal)[k], multiplier).fare == Rupee + IntToString(m)
    ensures exists i :: 0 <= i < |cars| && cars[i].groupKey == k && cars[i].totalExpCharge == m
    ensures forall i :: 0 <= i < |cars| && cars[i].groupKey == k ==> m <= cars[i].totalExpCharge
    ensures Finish(GroupAll(cars, totalKm, pascal)[k], multiplier).inflatedFare
            == if multiplier.Some? then Rupee + IntToString(Inflate(multiplier.value, m))
               else Rupee + "NaN"
  {
    GroupFaresAreRecordFares(cars, totalKm, pascal, k);
    var g := GroupAll(cars, totalKm, pascal)[k];
    m := MinOf(g.allFares);
    FinishOfNonEmpty(g, multiplier);
  }

  lemma FinishOfNonEmpty(g: GroupedListing, multiplier: Option<real>)
    requires |g.allFares| > 0
    ensures Finish(g, multiplier).fare == Rupee + IntToString(MinOf(g.allFares))
    ensures Finish(g, multiplier).inflatedFare
            == if multiplier.Some? then Rupee + IntToString(Inflate(multiplier.value, MinOf(g.allFares)))
               else Rupee + "NaN"
  {
  }

  /** Two records of one group with the same rate basis: the rate-basis map
      keeps only the second fare, but `allFares` keeps both. */
  lemma OverwrittenFareStaysInAllFares(first: RawRecord, second: RawRecord, totalKm: map<string, KmAllowance>,
                                       pascal: Option<string> -> string)
    requires first.groupKey == second.groupKey && first.rateBasis == second.rateBasis
    ensures var g := GroupAll([first, second], totalKm, pascal)[first.groupKey];
            var a, b := first.totalExpCharge, second.totalExpCharge;
            && g.rateBasisFare == map[first.rateBasis := b]
            && g.allFares == (if a == b then [a] else [a, b])
  {
    var cars := [first, second];
    var k, rb := first.groupKey, first.rateBasis;
    var a, b := first.totalExpCharge, second.totalExpCharge;
    assert cars[..1] == [first];
    assert [first][..0] == [];
    assert GroupAll([], totalKm, pascal) == map[];
    var g1 := GroupAll([first], totalKm, pascal);
    assert g1 == AddRecord(map[], first, totalKm, pascal);
    assert g1[k].rateBasisFare == map[rb := a] && g1[k].allFares == [a];
    assert GroupAll(cars, totalKm, pascal) == AddRecord(g1, second, totalKm, pascal);
    var g := GroupAll(cars, totalKm, pascal)[k];
    assert g.rateBasisFare == map[rb := a][rb := b];
    assert g.allFares == PushIfAbsent([a], b);
  }

  /** Hence the fare shown is the lower of the two, even when the second
      record replaced the first in the rate-basis map. */
  lemma OverwrittenFareStillCounts(first: RawRecord, second: RawRecord, totalKm: map<string, KmAllowance>,
                                   pascal: Option<string> -> string, multiplier: Option<real>)
    requires first.groupKey == second.groupKey && first.rateBasis == second.rateBasis
    ensures var g := GroupAll([first, second], totalKm, pascal)[first.groupKey];
            var a, b := first.totalExpCharge, second.totalExpCharge;
            Finish(g, multiplier).fare == Rupee + IntToString(if a <= b then a else b)
  {
    OverwrittenFareStaysInAllFares(first, second, totalKm, pascal);
    var g := GroupAll([first, second], totalKm, pascal)[first.groupKey];
    MinOfTwo(first.totalExpCharge, second.totalExpCharge);
    FinishOfNonEmpty(g, multiplier);
  }

  lemma MinOfTwo(a: int, b: int)
    ensures MinOf(if a == b then [a] else [a, b]) == if a <= b then a else b
  {
    if a != b {
      assert [a, b][1..] == [b];
    }
  }

  // ---------------------------------------------------------------------
  // Fetching the rental listings

  /** Each group appears once in `cars`, as its finished listing. */
  ghost predicate ListsEachGroupOnce(cars: seq<RentalListing>, groups: map<string, GroupedListing>, multiplier: Option<real>)
  {
    && (forall i, j :: 0 <= i < j < |cars| ==> cars[i].car.groupKey != cars[j].car.groupKey)
    && (forall i :: 0 <= i < |cars| ==>
          cars[i].car.groupKey in groups && cars[i] == Finish(groups[cars[i].car.groupKey], multiplier))
    && (forall k :: k in groups ==> exists i :: 0 <= i < |cars| && cars[i].car.groupKey == k)
  }

  /** Fetches the search response with retries and returns one listing per
      group of rental records. When all five calls fail, or the response
      lacks `SearchBookingModel`, there are none. `transport` stands for the
      POST to the search endpoint with the city and the formatted dates,
      `tripDurationHours` for the trip length and `multiplier` for the
      vendor's `CurrentrateSd`, if any. */
  method FetchMyChoizeCars(transport: nat -> Attempt<SearchResponse>, tripDurationHours: real,
                           pascal: Option<string> -> string, multiplier: Option<real>)
    returns (cars: seq<RentalListing>)
    ensures FailsBefore(transport, DefaultRetries) ==> cars == []
    ensures forall k: nat :: k < DefaultRetries && FailsBefore(transport, k) && transport(k).Succeeded? ==>
              match transport(k).body.searchBookingModel
              case None => cars == []
              case Some(records) =>
                ListsEachGroupOnce(cars, GroupAll(Filter(records, IsRentalRecord), GetTotalKms(tripDurationHours), pascal), multiplier)
  {
    var r, calls, waits := FetchWithRetry(transport, DefaultRetries, DefaultDelay);
    if r.Failure? {
      return [];
    }
    if r.value.searchBookingModel.None? {
      return [];
    }
    var admitted := Filter(r.value.searchBookingModel.value, IsRentalRecord);
    var totalKm := GetTotalKms(tripDurationHours);
    var groups := GroupCars(admitted, totalKm, pascal);
    GroupAllWellFormed(admitted, totalKm, pascal);
    cars := ListGroups(groups, multiplier);
  }

  /** The loop state of ListGroups: the listings so far are distinct groups,
      finished, none still pending, and every group no longer pending is listed. */
  ghost predicate ListedSoFar(cars: seq<RentalListing>, groups: map<string, GroupedListing>,
                              pending: set<string>, multiplier: Option<real>)
  {
    && pending <= groups.Keys
    && (forall i, j :: 0 <= i < j < |cars| ==> cars[i].car.groupKey != cars[j].car.groupKey)
    && (forall i :: 0 <= i < |cars| ==>
          && cars[i].car.groupKey in groups
          && cars[i].car.groupKey !in pending
          && cars[i] == Finish(groups[cars[i].car.groupKey], multiplier))
    && (forall k :: k in groups && k !in pending ==> exists i :: 0 <= i < |cars| && cars[i].car.groupKey == k)
  }

  /** Listing one pending group keeps the loop state. */
  lemma ListOneMore(cars: seq<RentalListing>, groups: map<string, GroupedListing>,
                    pending: set<string>, multiplier: Option<real>, key: string)
    requires forall k :: k in groups ==> groups[k].groupKey == k
    requires ListedSoFar(cars, groups, pending, multiplier)
    requires key in pending
    ensures ListedSoFar(cars + [Finish(groups[key], multiplier)], groups, pending - {key}, multiplier)
  {
    var listing := Finish(groups[key], multiplier);
    var after := cars + [listing];
    assert listing.car.groupKey == key;
    forall k | k in groups && k !in pending - {key}
      ensures exists i :: 0 <= i < |after| && after[i].car.groupKey == k
    {
      if k == key {
        assert after[|cars|].car.groupKey == k;
      } else {
        var i :| 0 <= i < |cars| && cars[i].car.groupKey == k;
        assert after[i] == cars[i];
      }
    }
  }

  /** `Object.values(groupedCars).map(...)`: every group, finished, once each,
      in an order the model leaves open. */
  method ListGroups(groups: map<string, GroupedListing>, multiplier: Option<real>) returns (cars: seq<RentalListing>)
    requires forall k :: k in groups ==> groups[k].groupKey == k
    ensures ListsEachGroupOnce(cars, groups, multiplier)
  {
    cars := [];
    var pending := groups.Keys;
    while pending != {}
      invariant ListedSoFar(cars, groups, pending, multiplier)
      decreases pending
    {
      var key :| key in pending;
      ListOneMore(cars, groups, pending, multiplier, key);
      cars := cars + [Finish(groups[key], multiplier)];
      pending := pending - {key};
    }
  }
}
