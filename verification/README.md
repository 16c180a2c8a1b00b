# Zymo web front end — a verified model of its core logic

This project models, in Dafny, four pieces of the Zymo car-rental web front
end and proves what each of them promises.

- **MyChoize partner integration** (`src/utils/mychoize.js`) — `mychoize.dfy`.
  - Package labels and kilometre allowances per rate basis (FF, MP, DR).
  - The partner's `/Date(<ms>+0530)/` date encoding.
  - The counted retry loop around a request, with linear back-off waits.
  - Subscription listings: one listing per "MLK" record.
  - Rental listings. Records are grouped by `GroupKey`. Each group keeps a
    per-rate-basis fare map and a duplicate-free list of every fare seen.
    The shown fare is the minimum of that list.
- **Test-drive form** (`src/components/buycomponent/TestDriveInputForm.jsx`) —
  `test_drive_form.dfy`.
  - The required fields and the 10-digit phone and 6-digit pincode checks.
  - The unanchored `\S+@\S+\.\S+` email test and the exact error messages.
  - The field and country-code handlers, and the phone merge on submit.
- **Rental search box** (`src/components/homecomponent/RSB.jsx`) — `rsb.dfy`.
  - The trip duration text.
  - The shortened address and the city taken from a selected place.
  - The results route and the required-field gate of the search.
  - The header text that cycles through five captions.
- **Car search bar** (`src/components/buycomponent/SearchBar.jsx`) —
  `search_bar.dfy`. It is the case-insensitive substring filter.

Shared helpers:

- `common.dfy`: `Option` and `Result`.
- `text.dfy`: the JavaScript `\s` and `\d` classes, ASCII `toLowerCase`,
  `includes`, `split`/`join`, and the decimal rendering of integers with its
  reader.
- `collections.dfy`: `filter`, an `includes`-guarded `push`, and `Math.min`.

The code's own state stays state:

- The test-drive form and the search box are `class`es whose fields are
  their `useState` variables.
- The search bar is a function from the car list and the query to the
  results: its one state variable, `searchQuery`, only echoes the query back
  into its input.
- The session-storage entry, the navigation and the toasts the component
  produces are fields too.
- The loops of the source are loops:
  - the retry `for`;
  - the grouping `forEach` over the records;
  - the inner `forEach` over a group's fare map;
  - the final `map` over the groups.
- Each loop is proved against a specification: the retry loop against
  `FirstSuccess` and `Backoff`, the grouping loop against the fold
  `GroupAll`, the inner loop against push-if-absent, and the final `map`
  against the predicate `ListsEachGroupOnce`.

Outside effects become parameters:

- The network is `transport`: call *i* of the request yields `transport(i)`,
  a parsed body or a failure.
- JavaScript `Date` parsing is `parseDate`, which gives epoch milliseconds or
  nothing.
- `toPascalCase`, a helper in a file that is not part of this model, is
  `pascal`.
- The vendor's `CurrentrateSd` is `multiplier`, which may be absent.
- What the Places autocomplete reports is a `PlaceDetails` argument.

## Model

| member | source | states |
|---|---|---|
| MyChoize.FindPackage | src/utils/mychoize.js:12-17 | FF, MP and DR map to "120km/day", "300km/day" and "Unlimited KMs"; the result is "Undefined" exactly for every other code |
| MyChoize.GetTotalKms | src/utils/mychoize.js:4-10 | exactly the keys FF, MP, DR; FF allows 5·h km, MP 12.5·h km, DR is unlimited |
| MyChoize.AllowanceMatchesPackage | src/utils/mychoize.js:4-17 | over whole days the FF/MP allowances are 120/300 km per day, matching the package labels, and DR is unlimited |
| MyChoize.FormatDateForMyChoize | src/utils/mychoize.js:19-23 | no result exactly when the date does not parse; otherwise the text starts with "/Date(" and ends with "+0530)/" |
| MyChoize.FormatDateRoundTrip | src/utils/mychoize.js:19-23 | the milliseconds are read back exactly from the encoded text |
| MyChoize.FirstSuccess | src/utils/mychoize.js:25-38 | the first of the first `retries` calls that succeeds, with all earlier calls failing; none only when all of them fail |
| MyChoize.FetchWithRetry | src/utils/mychoize.js:25-38 | at most `retries` calls and none after the first success; success iff the last call made succeeded, returning its body; otherwise exactly max(retries,0) failed calls and the "failed after multiple retries" error; the waits are delay·1, delay·2, … with none after the last call; it succeeds iff `FirstSuccess` finds a call, and then it made exactly the calls up to that one |
| MyChoize.FetchSubscriptionCars | src/utils/mychoize.js:44-95 | no listings when the call fails or `SearchBookingModel` is missing; never more listings than records |
| MyChoize.ToSubscription | src/utils/mychoize.js:72-88 | the listing has no rate basis, and its fare is "₹" followed by text that reads back as the record's TotalExpCharge |
| MyChoize.SubscriptionListings | src/utils/mychoize.js:70-88 | never more listings than records; each listing is made from a record with rate basis "MLK" and a brand name |
| MyChoize.SubscriptionListingsSpec | src/utils/mychoize.js:70-89 | one listing per "MLK" record with a brand name, in record order; exactly those records; fare "₹"+TotalExpCharge; `rateBasis` always absent |
| MyChoize.NewGroup | src/utils/mychoize.js:131-167 | a new group is filed under the record's GroupKey, carries the trip's allowances, and starts with an empty rate-basis map and no fares |
| MyChoize.AddRecord | src/utils/mychoize.js:129-175 | only the record's group changes, and that group exists afterwards |
| MyChoize.AddRecordEffect | src/utils/mychoize.js:170-175 | the record's group holds its fare under its rate basis and among its fares; the fares the group had stay first, in their order |
| MyChoize.GroupAll | src/utils/mychoize.js:126-176 | every admitted record's GroupKey names a group, and there are no more groups than records |
| MyChoize.GroupAllWellFormed | src/utils/mychoize.js:126-176 | after any records each group sits under its own key, has a fare, and every fare in its rate-basis map is in its `all_fares` |
| MyChoize.FaresAfterUpdate | src/utils/mychoize.js:170-171 | setting one rate basis's fare adds no value to the map other than that fare |
| MyChoize.PushMissingFares | src/utils/mychoize.js:171-175 | the push-if-absent loop over the map's values, in any order, appends only the new fare, and only if it is not there yet |
| MyChoize.GroupCars | src/utils/mychoize.js:125-176 | the dictionary built in place equals the record-by-record fold `GroupAll` |
| MyChoize.GroupAllAt | src/utils/mychoize.js:126-176 | a key names a group iff some admitted record carries it; the group is its first record's listing, with each rate basis's last fare and every fare of the group once, first-seen order |
| MyChoize.GroupFromRecords | src/utils/mychoize.js:129-168 | id, address, options, transmission flag and allowances come from the first record of the group; the rate-basis map holds each basis's last fare |
| MyChoize.LastFaresKeys | src/utils/mychoize.js:170 | a rate basis has an entry in the group's map iff some record of the group has that basis |
| MyChoize.LastFaresValue | src/utils/mychoize.js:170 | the entry of a rate basis is the fare of the last record of the group with that basis |
| MyChoize.GroupFaresAreRecordFares | src/utils/mychoize.js:170-175 | `all_fares` holds the fare of every record of the group, overwritten ones included, and nothing else |
| MyChoize.GroupFaresSpec | src/utils/mychoize.js:170-175 | `all_fares` has no duplicates, has the same values as the group's fares, and lists them in first-sighting order |
| MyChoize.Finish | src/utils/mychoize.js:181-185 | a listing keeps its group's fields unchanged |
| MyChoize.TruncateToInt | src/utils/mychoize.js:184 | `parseInt` of a product: the integer part, truncated toward zero |
| MyChoize.FareText | src/utils/mychoize.js:183 | "₹Infinity" exactly when there are no fares |
| MyChoize.InflatedFareText | src/utils/mychoize.js:184 | "₹NaN" exactly when there are no fares or no multiplier |
| MyChoize.GroupFareIsMinimum | src/utils/mychoize.js:181-185 | the shown fare is "₹"+m for m the fare of a record of the group with no lower fare among them; the inflated fare is m times the multiplier truncated, "₹NaN" without one |
| MyChoize.OverwrittenFareStaysInAllFares | src/utils/mychoize.js:170-175 | two records of one group and rate basis: the map keeps the second fare, `all_fares` keeps both |
| MyChoize.OverwrittenFareStillCounts | src/utils/mychoize.js:170-183 | in that case the shown fare is the lower of the two, even when it was overwritten |
| MyChoize.ListGroups | src/utils/mychoize.js:181-185 | one listing per group, no key twice, each the group finished with its fares |
| MyChoize.FetchMyChoizeCars | src/utils/mychoize.js:97-190 | no listings when all five calls fail or `SearchBookingModel` is missing; otherwise one finished listing per group of the non-"MLK" records with a brand name from the first successful response |
| TestDriveInputForm.Set | src/components/buycomponent/TestDriveInputForm.jsx:76 | the named field takes the value and every other field is unchanged |
| TestDriveInputForm.EmailTestIsPattern | src/components/buycomponent/TestDriveInputForm.jsx:51 | the local check (non-space before '@', a '.' after a non-empty space-free run, a non-space after it) accepts exactly the strings in which the unanchored pattern finds a match |
| TestDriveInputForm.FieldError | src/components/buycomponent/TestDriveInputForm.jsx:48-67 | the country code never has an error; the email, phone and pincode have none iff they are well-formed (a match, 10 digits, 6 digits); name, address, city and date of birth have none iff they are non-empty |
| TestDriveInputForm.ExpectedErrors | src/components/buycomponent/TestDriveInputForm.jsx:46-67 | an entry for a field iff the field has an error, holding that field's message |
| TestDriveInputForm.FormAcceptedIff | src/components/buycomponent/TestDriveInputForm.jsx:45-71 | no errors iff name, email, address, city and date of birth are non-empty, the email matches, the phone is 10 digits and the pincode 6 digits |
| TestDriveInputForm.EmailErrorCases | src/components/buycomponent/TestDriveInputForm.jsx:49-53 | "Email is required" iff empty; "Email is invalid" iff non-empty and not matching; no entry iff it matches |
| TestDriveInputForm.CollectErrors | src/components/buycomponent/TestDriveInputForm.jsx:46-67 | the record built field by field equals the per-field error map with the source's messages |
| TestDriveInputForm.ClearError | src/components/buycomponent/TestDriveInputForm.jsx:77-79 | same keys; only the named field's entry may change, and then to "" |
| TestDriveInputForm.WithFullPhone | src/components/buycomponent/TestDriveInputForm.jsx:92-96 | phone becomes country code followed by phone; every other field is unchanged |
| TestDriveInputForm.TestDriveForm.constructor | src/components/buycomponent/TestDriveInputForm.jsx:16-37 | all fields empty except country code "+91", no errors, dropdown closed |
| TestDriveInputForm.TestDriveForm.ValidateForm | src/components/buycomponent/TestDriveInputForm.jsx:45-71 | errors become the expected errors of the data, and the result is true iff there are none; nothing else changes |
| TestDriveInputForm.TestDriveForm.HandleChange | src/components/buycomponent/TestDriveInputForm.jsx:74-80 | sets only the named field and empties only that field's non-empty error |
| TestDriveInputForm.TestDriveForm.HandleCountryCodeSelect | src/components/buycomponent/TestDriveInputForm.jsx:83-86 | sets only the country code and closes the dropdown |
| TestDriveInputForm.TestDriveForm.HandleNext | src/components/buycomponent/TestDriveInputForm.jsx:89-115 | validates; stores and navigates to the confirmation page with the full-phone record iff the form is accepted; otherwise neither |
| RentalSearchBox.TripDuration | src/components/homecomponent/RSB.jsx:81-101 | "Invalid Date" iff a date does not parse; 0 days 0 hours when the end is before the start; otherwise days·24+hours = whole hours of the difference, hours < 24 |
| RentalSearchBox.DurationText | src/components/homecomponent/RSB.jsx:85-100 | "Invalid Date" iff a date did not parse; otherwise four space-separated words: the days, "Day(s)", the hours, "Hour(s)" |
| RentalSearchBox.DurationTextReadBack | src/components/homecomponent/RSB.jsx:100 | the first and third words parse back to the days and the hours |
| RentalSearchBox.DurationOfWholeHours | src/components/homecomponent/RSB.jsx:96-100 | a trip of d days, h < 24 hours and under an hour more gives exactly d days and h hours |
| RentalSearchBox.ShortenAddress | src/components/homecomponent/RSB.jsx:58-61 | read back by commas, the short address gives the first part, then the second and next-to-last parts (or, with two parts or fewer, the remaining parts), each after the first with a space in front |
| RentalSearchBox.ShortenManyParts | src/components/homecomponent/RSB.jsx:58-61 | with three or more comma-separated parts, the result is parts 0, 1 and the next-to-last, untrimmed, joined by ", " |
| RentalSearchBox.ShortenTwoParts | src/components/homecomponent/RSB.jsx:58-61 | two parts are joined by ", " |
| RentalSearchBox.ShortenOnePart | src/components/homecomponent/RSB.jsx:58-61 | an address without a comma is unchanged |
| RentalSearchBox.FindLocality | src/components/homecomponent/RSB.jsx:65-75 | none iff no component is a locality; otherwise the long name of the first one that is |
| RentalSearchBox.RouteCity | src/components/homecomponent/RSB.jsx:130 | the route city is as long as the city |
| RentalSearchBox.RouteCityCases | src/components/homecomponent/RSB.jsx:130 | "bangalore" iff the city is "Bengaluru" or lower-cases to "bangalore"; every other city is lower-cased, so other spellings of Bengaluru route to "bengaluru"; the route city is unchanged by lower-casing |
| RentalSearchBox.SearchPath | src/components/homecomponent/RSB.jsx:144 | the path is "/self-drive-car-rentals/", the route city and "/cars", and the route city reads back from between them |
| RentalSearchBox.SearchPathSameRoute | src/components/homecomponent/RSB.jsx:130-144 | two cities share a results route iff their route cities agree |
| RentalSearchBox.RouteCityIsLowerCase | src/components/homecomponent/RSB.jsx:130 | the route city has no upper-case letter |
| RentalSearchBox.OnlyExactBengaluruIsRenamed | src/components/homecomponent/RSB.jsx:130-144 | "Bengaluru" routes to "bangalore", while "BENGALURU" routes to "bengaluru" |
| RentalSearchBox.NextHeaderIndex | src/components/homecomponent/RSB.jsx:36 | the next header index is always below 5 |
| RentalSearchBox.HeaderCycles | src/components/homecomponent/RSB.jsx:32-41 | n ticks from a valid index i give (i+n) mod 5 |
| RentalSearchBox.SearchBox.constructor | src/components/homecomponent/RSB.jsx:10-30 | the initial state: start date now, no end date, "Select both dates", header 0 |
| RentalSearchBox.SearchBox.HandlePlaceSelect | src/components/homecomponent/RSB.jsx:48-78 | a place with geometry sets the place, the short address and the locality city, or "" when there is none; otherwise nothing changes |
| RentalSearchBox.SearchBox.HandleStartDateChange | src/components/homecomponent/RSB.jsx:114-118 | sets the start date; recomputes the duration text only when an end date is set |
| RentalSearchBox.SearchBox.HandleEndDateChange | src/components/homecomponent/RSB.jsx:120-124 | sets the end date; recomputes the duration text only when a start date is set |
| RentalSearchBox.SearchBox.HandleSearch | src/components/homecomponent/RSB.jsx:127-154 | with city, start and end date set: flags the search and navigates to the city's route with the search data; otherwise adds the "Required fields are empty" toast and does not navigate |
| RentalSearchBox.SearchBox.StartFade | src/components/homecomponent/RSB.jsx:33-34 | the fade starts and nothing else changes |
| RentalSearchBox.SearchBox.AdvanceHeader | src/components/homecomponent/RSB.jsx:35-38 | the index becomes (i+1) mod 5, stays valid, fade ends |
| SearchBar.Matches | src/components/buycomponent/SearchBar.jsx:16-18 | the empty query matches every car; a match is never longer than the name or the model it is found in |
| SearchBar.SearchResults | src/components/buycomponent/SearchBar.jsx:10-25 | an empty query gives every car unchanged; no query gives more cars than there are |
| SearchBar.SearchResultsSpec | src/components/buycomponent/SearchBar.jsx:14-20 | a non-empty query gives the matching cars in their original order, and exactly those |
| SearchBar.SearchIsCaseInsensitive | src/components/buycomponent/SearchBar.jsx:17-18 | queries equal up to letter case give identical results |
| Text.JoinSplit | src/components/homecomponent/RSB.jsx:58 | splitting at a character and joining with it again gives back the string |
| Text.IntToStringRoundTrip | src/utils/mychoize.js:22 | every integer is read back from its decimal rendering |
| Collections.DedupPushFirstSightingOrder | src/utils/mychoize.js:171-175 | the duplicate-free list keeps the values in the order of their first occurrence |

## Left out

- Network I/O: `fetch`, `response.json()` and the real `setTimeout` sleeps are not modelled. The transport is a function from call number to outcome, and the waits are returned as a list.
- `fetchMyChoizeLocationList` and `getVendorDetails` are left out. The multiplier that `getVendorDetails` supplies is a parameter, and an exception it raises is not modelled.
- JavaScript `Date` parsing is the `parseDate` parameter. Millisecond arithmetic is exact integer arithmetic.
- Floating point is not modelled.
  - Allowances are exact reals, and their text rendering (`"… KMs"`) is not modelled.
  - The inflated fare is the exact real product, truncated. Binary rounding, and `parseInt` reading exponent notation, are not modelled.
- `toPascalCase` is the `pascal` parameter. It is a helper outside this model, and an exception it might raise is not modelled.
- `toLowerCase` lowers ASCII letters only. Other Unicode case mappings are not modelled.
- Group keys are plain dictionary keys. Prototype names such as "constructor" behave differently on a JavaScript object, and that is not modelled.
- MyChoize.FetchMyChoizeCars, MyChoize.ListGroups: the order of the listings (`Object.values` order) is left open. The model promises one listing per group, not their order.
- MyChoize.FetchMyChoizeCars: the returned waits and call count of the retry are not passed out. An error thrown after a successful fetch, which would also yield no listings, is not modelled.
- Records are typed. A missing `BrandName` is the empty string. A missing `TransmissionType` is `None`, and `TransMissionType` is a separate string field. Other missing or non-string fields are not modelled.
- TestDriveInputForm.TestDriveForm.HandleChange: the field name ranges over the form's eight fields. A `name` outside them would add a new key in JavaScript, and that is not modelled.
- The test-drive form's `trackEvent` call, the dropdown toggle button, the `car` carried in the navigation state, and the page title are not modelled.
- `sessionStorage` is modelled as the stored record in the test-drive form and as a flag in the search box. Its JSON serialisation is not modelled.
- The search box's rent/buy tab, the date-picker buttons and the Places script loading are not modelled. The toast's position and timeout are not modelled either.
- SearchBar.SearchResults: car records carry only the name and model the search reads. The `searchQuery` state, which only echoes the query into the input, is not modelled.
