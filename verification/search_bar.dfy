/** The car search of the buy page: the cars whose name or model contains
    the query, ignoring letter case. */
module SearchBar {
  import opened Text
  import opened Collections

  /** The fields of a car the search reads. */
  datatype Car = Car(name: string, model: string)

  /** The name or the model, lower-cased, contains the lower-cased query.
      The empty query matches every car, and a match is never longer than
      the name or the model it is found in. */
  predicate Matches(car: Car, query: string)
    ensures query == "" ==> Matches(car, query)
    ensures Matches(car, query) ==> |query| <= |car.name| || |query| <= |car.model|
  {
    assert query == "" ==> OccursAt(Lower(car.name), Lower(query), 0);
    Contains(Lower(car.name), Lower(query)) || Contains(Lower(car.model), Lower(query))
  }

  function MatchesQuery(query: string): Car -> bool
  {
    (car: Car) => Matches(car, query)
  }

  /** The results the search bar reports for a query: every car for an empty
      query, otherwise the matching cars in their order. */
  function SearchResults(carData: seq<Car>, query: string): (results: seq<Car>)
    ensures query == "" ==> results == carData
    ensures |results| <= |carData|
  {
    if query == "" then carData else Filter(carData, MatchesQuery(query))
  }

  /** For a non-empty query the results are the cars that match, in their
      order: result j is car idx[j], the indices increase, and a car is
      among them exactly when it matches. */
  lemma SearchResultsSpec(carData: seq<Car>, query: string) returns (idx: seq<nat>)
    requires query != ""
    ensures |idx| == |SearchResults(carData, query)|
    ensures forall j :: 0 <= j < |idx| ==>
              idx[j] < |carData| && SearchResults(carData, query)[j] == carData[idx[j]]
              && Matches(carData[idx[j]], query)
    ensures forall j, k :: 0 <= j < k < |idx| ==> idx[j] < idx[k]
    ensures forall i :: 0 <= i < |carData| ==> (i in idx <==> Matches(carData[i], query))
  {
    idx := FilterIndices(carData, MatchesQuery(query));
  }

  /** Queries that differ only in letter case give the same results. */
  lemma SearchIsCaseInsensitive(carData: seq<Car>, query: string, other: string)
    requires Lower(query) == Lower(other)
    ensures SearchResults(carData, query) == SearchResults(carData, other)
  {
    assert |query| == |Lower(query)| == |Lower(other)| == |other|;
    if query != "" {
      FilterCongruent(carData, MatchesQuery(query), MatchesQuery(other));
    }
  }
}
