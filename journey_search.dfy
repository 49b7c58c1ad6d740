/** The journey filter of src/api/searchJourneys.ts, over a dataset given as a
    parameter. */
module JourneySearch {
  import opened Types
  import opened Calendar

  /** `toLowerCase` on one character, for the ASCII letters. */
  function LowerChar(c: char): char
  {
    if 'A' <= c <= 'Z' then (c as int + 32) as char else c
  }

  /** `toLowerCase` on a string, for the ASCII letters. */
  function ToLower(s: string): (r: string)
    ensures |r| == |s|
    ensures forall i :: 0 <= i < |s| ==> r[i] == LowerChar(s[i])
  {
    if s == [] then [] else [LowerChar(s[0])] + ToLower(s[1..])
  }

  /** Letter-by-letter equality that does not look at case. */
  predicate EqualIgnoringCase(a: string, b: string)
  {
    |a| == |b| && forall i :: 0 <= i < |a| ==> LowerChar(a[i]) == LowerChar(b[i])
  }

  /** Comparing lower-cased strings is comparing them ignoring case. */
  lemma ToLowerEqualIff(a: string, b: string)
    ensures ToLower(a) == ToLower(b) <==> EqualIgnoringCase(a, b)
  {
    if EqualIgnoringCase(a, b) {
      assert forall i :: 0 <= i < |a| ==> ToLower(a)[i] == ToLower(b)[i];
    }
  }

  /** Lower-casing twice is lower-casing once. */
  lemma ToLowerIdempotent(s: string)
    ensures ToLower(ToLower(s)) == ToLower(s)
  {
    assert forall i :: 0 <= i < |s| ==> ToLower(ToLower(s))[i] == ToLower(s)[i];
  }

  /** `isSameDay`: the same `getFullYear`, `getMonth` and `getDate`. Every getter
      of an Invalid Date is NaN, which equals nothing. The departure is on the
      requested day exactly when it lies between that day's midnight and the next. */
  predicate SameDay(departure: int, search: JsDate): (b: bool)
    ensures b <==> (search.Time? &&
                    StartOfDay(search.ms) <= departure < StartOfDay(search.ms) + MsPerDay)
  {
    match search
    case InvalidDate => false
    case Time(ms) =>
      SameCivilIffSameStart(departure, ms);
      SameStartIffWithinDay(departure, ms);
      var j, s := Civil(departure), Civil(ms);
      j.year == s.year && j.month0 == s.month0 && j.day == s.day
  }

  /** The filter predicate: origin and destination equal ignoring case, and a
      departure on the requested day. */
  predicate Matches(journey: Journey, p: JourneyParameters): (b: bool)
    ensures b <==> && EqualIgnoringCase(journey.origin, p.origin)
                   && EqualIgnoringCase(journey.destination, p.destination)
                   && SameDay(journey.departure, p.date)
  {
    ToLowerEqualIff(journey.origin, p.origin);
    ToLowerEqualIff(journey.destination, p.destination);
    && ToLower(journey.origin) == ToLower(p.origin)
    && ToLower(journey.destination) == ToLower(p.destination)
    && SameDay(journey.departure, p.date)
  }

  /** `searchJourneys`: the journeys of `dataset` that match `p`, in dataset order. */
  function SearchJourneys(dataset: seq<Journey>, p: JourneyParameters): (r: seq<Journey>)
    ensures forall j :: j in r ==> j in dataset && Matches(j, p)
    ensures forall j :: j in dataset && Matches(j, p) ==> j in r
    ensures |r| <= |dataset|
  {
    if dataset == [] then []
    else (if Matches(dataset[0], p) then [dataset[0]] else []) + SearchJourneys(dataset[1..], p)
  }

  /** `sub` is `s` with some elements left out, the rest in their order. */
  predicate IsSubsequence<T(==)>(sub: seq<T>, s: seq<T>)
    decreases |s|
  {
    if sub == [] then true
    else if s == [] then false
    else if sub[0] == s[0] then IsSubsequence(sub[1..], s[1..])
    else IsSubsequence(sub, s[1..])
  }

  /** The result keeps the dataset's order. */
  lemma {:induction false} SearchIsSubsequence(dataset: seq<Journey>, p: JourneyParameters)
    ensures IsSubsequence(SearchJourneys(dataset, p), dataset)
  {
    if dataset != [] {
      var head, rest := dataset[0], SearchJourneys(dataset[1..], p);
      SearchIsSubsequence(dataset[1..], p);
      if Matches(head, p) {
        assert SearchJourneys(dataset, p) == [head] + rest;
        assert ([head] + rest)[1..] == rest;
      } else {
        assert SearchJourneys(dataset, p) == rest;
        if rest != [] {
          assert rest[0] in rest;
          assert rest[0] != head;
        }
      }
    }
  }

  /** Each matching journey is kept as often as the dataset holds it, and no other
      journey is kept. */
  lemma {:induction false} SearchCounts(dataset: seq<Journey>, p: JourneyParameters, j: Journey)
    ensures multiset(SearchJourneys(dataset, p))[j] ==
            if Matches(j, p) then multiset(dataset)[j] else 0
  {
    if dataset != [] {
      SearchCounts(dataset[1..], p, j);
      assert dataset == [dataset[0]] + dataset[1..];
    }
  }

  /** Every journey found departs on the requested local day, between its midnight
      and the next. */
  lemma DepartsOnRequestedDay(dataset: seq<Journey>, p: JourneyParameters, j: Journey)
    requires j in SearchJourneys(dataset, p)
    ensures p.date.Time?
    ensures StartOfDay(p.date.ms) <= j.departure < StartOfDay(p.date.ms) + MsPerDay
  {
    SameCivilIffSameStart(j.departure, p.date.ms);
  }

  /** A request whose date did not parse finds nothing. */
  lemma {:induction false} InvalidDateFindsNothing(dataset: seq<Journey>, p: JourneyParameters)
    requires p.date == InvalidDate
    ensures SearchJourneys(dataset, p) == []
  {
    if dataset != [] {
      InvalidDateFindsNothing(dataset[1..], p);
    }
  }

  /** Requests that differ only in the case of their origin and destination, or in
      their number of passengers, find the same journeys. */
  lemma {:induction false} SearchIgnoresCaseAndPassengers(
    dataset: seq<Journey>, p: JourneyParameters, q: JourneyParameters)
    requires EqualIgnoringCase(p.origin, q.origin)
    requires EqualIgnoringCase(p.destination, q.destination)
    requires p.date == q.date
    ensures SearchJourneys(dataset, p) == SearchJourneys(dataset, q)
  {
    ToLowerEqualIff(p.origin, q.origin);
    ToLowerEqualIff(p.destination, q.destination);
    if dataset != [] {
      SearchIgnoresCaseAndPassengers(dataset[1..], p, q);
    }
  }

  /** Lower-casing the requested places does not change the result. */
  lemma LowerCasedRequestFindsSame(dataset: seq<Journey>, p: JourneyParameters)
    ensures SearchJourneys(dataset, p.(origin := ToLower(p.origin), destination := ToLower(p.destination)))
            == SearchJourneys(dataset, p)
  {
    var q := p.(origin := ToLower(p.origin), destination := ToLower(p.destination));
    ToLowerIdempotent(p.origin);
    ToLowerIdempotent(p.destination);
    ToLowerEqualIff(p.origin, q.origin);
    ToLowerEqualIff(p.destination, q.destination);
    SearchIgnoresCaseAndPassengers(dataset, p, q);
  }
}
