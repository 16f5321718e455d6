/** How the location service combines the lists its providers return: the
    union-then-deduplicate of restaurants, services and places, the
    replace-not-merge accommodation chain, and the bundle the home screen
    loads. Providers are not called here: each one's outcome is an argument,
    `Settled` for a promise that may reject. */
module Aggregate {
  import opened Common
  import opened Text
  import opened Dedupe
  import opened Records

  // ---------------------------------------------------------------------
  // Union of sources, then deduplication

  /** Whatever a deduper keeps for a key that some accepted item of the
      earlier source `a` has, is an item of `a`. */
  lemma ClashGoesToEarlier<D>(cat: Category, a: seq<Item<D>>, b: seq<Item<D>>)
    ensures forall k :: 0 <= k < |Dedup(cat, a + b)| && KeyOf(Dedup(cat, a + b)[k]) in AcceptedKeys(cat, a)
                        ==> Dedup(cat, a + b)[k] in a
  {
    var r := Dedup(cat, a + b);
    var n := |Dedup(cat, a)|;
    EarlierSourceWins(cat, a, b);
    DedupKeys(cat, a);
    DedupWellFormed(cat, a);
    forall k | 0 <= k < |r| && KeyOf(r[k]) in AcceptedKeys(cat, a) ensures r[k] in a {
      if k < n {
        assert r[k] == Dedup(cat, a)[k];
      }
    }
  }

  /** Every item of a union comes from one of its parts. */
  lemma DedupFromSources<D>(cat: Category, a: seq<Item<D>>, b: seq<Item<D>>, c: seq<Item<D>>)
    ensures forall x :: x in Dedup(cat, a + b + c) ==> x in a || x in b || x in c
  {
    DedupWellFormed(cat, a + b + c);
  }

  /** `getPlacesToVisit`: both OpenTripMap queries go through `Promise.all`,
      so one rejection turns the whole result into []; otherwise the tourist
      list comes first and cultural sites second. */
  function GetPlacesToVisit(tourist: Settled<seq<Place>>, cultural: Settled<seq<Place>>): (r: seq<Place>)
    ensures tourist.Rejected? || cultural.Rejected? ==> r == []
    ensures forall x :: x in r ==> x.name !in {"", "Tourist Attraction", "Cultural Site"}
    ensures tourist.Fulfilled? && cultural.Fulfilled?
      ==> r == FirstOccurrences(Places, tourist.value + cultural.value)
  {
    match (tourist, cultural)
    case (Fulfilled(t), Fulfilled(c)) =>
      PlaceholdersDropped(t + c);
      DedupIsFirstOccurrences(Places, t + c);
      Dedup(Places, t + c)
    case _ => []
  }

  /** `getLocalRestaurants`: Foursquare, OpenTripMap and Overpass settle
      independently; a rejected one contributes nothing. */
  function GetLocalRestaurants(foursquare: Settled<seq<Restaurant>>, opentripmap: Settled<seq<Restaurant>>,
                               overpass: Settled<seq<Restaurant>>): (r: seq<Restaurant>)
    ensures r == FirstOccurrences(Restaurants, OrEmpty(foursquare) + OrEmpty(opentripmap) + OrEmpty(overpass))
    ensures forall x :: x in r ==> x.name != "" && (x in OrEmpty(foursquare) || x in OrEmpty(opentripmap) || x in OrEmpty(overpass))
  {
    var all := OrEmpty(foursquare) + OrEmpty(opentripmap) + OrEmpty(overpass);
    DedupIsFirstOccurrences(Restaurants, all);
    DedupFromSources(Restaurants, OrEmpty(foursquare), OrEmpty(opentripmap), OrEmpty(overpass));
    PlaceholdersDropped(all);
    Dedup(Restaurants, all)
  }

  /** On a key clash Foursquare beats both other sources, and OpenTripMap beats Overpass. */
  lemma RestaurantSourcePriority(foursquare: Settled<seq<Restaurant>>, opentripmap: Settled<seq<Restaurant>>,
                                 overpass: Settled<seq<Restaurant>>)
    ensures var r := GetLocalRestaurants(foursquare, opentripmap, overpass);
      forall k :: 0 <= k < |r| && KeyOf(r[k]) in AcceptedKeys(Restaurants, OrEmpty(foursquare)) ==> r[k] in OrEmpty(foursquare)
    ensures var r := GetLocalRestaurants(foursquare, opentripmap, overpass);
      forall k :: 0 <= k < |r| && KeyOf(r[k]) in AcceptedKeys(Restaurants, OrEmpty(foursquare) + OrEmpty(opentripmap))
        ==> r[k] in OrEmpty(foursquare) + OrEmpty(opentripmap)
  {
    var f, o, v := OrEmpty(foursquare), OrEmpty(opentripmap), OrEmpty(overpass);
    assert f + o + v == f + (o + v);
    ClashGoesToEarlier(Restaurants, f, o + v);
    ClashGoesToEarlier(Restaurants, f + o, v);
  }

  /** `getLocalServices`: OpenTripMap then Overpass, each optional. */
  function GetLocalServices(opentripmap: Settled<seq<Service>>, overpass: Settled<seq<Service>>): (r: seq<Service>)
    ensures r == FirstOccurrences(Services, OrEmpty(opentripmap) + OrEmpty(overpass))
    ensures forall x :: x in r ==> Trim(x.name) != "" && (x in OrEmpty(opentripmap) || x in OrEmpty(overpass))
  {
    var all := OrEmpty(opentripmap) + OrEmpty(overpass);
    DedupIsFirstOccurrences(Services, all);
    DedupWellFormed(Services, all);
    PlaceholdersDropped(all);
    Dedup(Services, all)
  }

  /** On a key clash the OpenTripMap service is the one kept. */
  lemma ServiceSourcePriority(opentripmap: Settled<seq<Service>>, overpass: Settled<seq<Service>>)
    ensures var r := GetLocalServices(opentripmap, overpass);
      forall k :: 0 <= k < |r| && KeyOf(r[k]) in AcceptedKeys(Services, OrEmpty(opentripmap)) ==> r[k] in OrEmpty(opentripmap)
  {
    ClashGoesToEarlier(Services, OrEmpty(opentripmap), OrEmpty(overpass));
  }

  /** The keys of a union are the accepted keys of its parts: nothing accepted is lost. */
  lemma UnionKeepsEveryKey<D>(cat: Category, a: seq<Item<D>>, b: seq<Item<D>>, x: Item<D>)
    requires x in a + b && Accepts(cat, x.name)
    ensures exists y :: y in Dedup(cat, a + b) && KeyOf(y) == KeyOf(x)
  {
    var s := a + b;
    var j :| 0 <= j < |s| && s[j] == x;
    DedupKeys(cat, s);
    AcceptedKeysMembership(cat, s, KeyOf(x));
    var r := Dedup(cat, s);
    var i :| 0 <= i < |r| && KeyOf(r[i]) == KeyOf(x);
    assert r[i] in r;
  }

  /** `getAccommodation`: OpenTripMap alone, through `Promise.all`; a
      rejection lands in the `catch`, which returns []. */
  function GetAccommodation(opentripmap: Settled<seq<Lodging>>): (r: seq<Lodging>)
    ensures opentripmap.Rejected? ==> r == []
    ensures opentripmap.Fulfilled? ==> r == FirstOccurrences(Accommodation, opentripmap.value)
    ensures forall x :: x in r ==> x.name !in {"", "Hotel"} && x in OrEmpty(opentripmap)
  {
    match opentripmap
    case Fulfilled(v) =>
      PlaceholdersDropped(v);
      DedupWellFormed(Accommodation, v);
      DedupIsFirstOccurrences(Accommodation, v);
      Dedup(Accommodation, v)
    case Rejected => []
  }

  // ---------------------------------------------------------------------
  // The accommodation chain: Geoapify, else Overpass, else OpenTripMap

  /** What the Geoapify request produced: an exception (network or parse),
      a response that is not `ok`, or the parsed features, each already
      mapped to a record whose name is "" when the feature had none. */
  datatype GeoapifyResponse = Threw | NotOk | Ok(features: seq<Lodging>)

  /** The Geoapify filter `name && name !== 'Accommodation'`, applied after
      a missing name became 'Accommodation'. */
  predicate KeptByGeoapify(x: Lodging) {
    x.name != "" && x.name != "Accommodation"
  }

  /** `name || 'Accommodation'`, then the filter `name && name !== 'Accommodation'`:
      a single feature survives as it is iff it is kept (together with
      `GeoapifyResultsAppend`, the kept features in order, repeats included). */
  function GeoapifyResults(features: seq<Lodging>): (r: seq<Lodging>)
    ensures forall x :: x in r <==> x in features && KeptByGeoapify(x)
    ensures |r| <= |features|
    ensures |features| == 1 ==> r == if KeptByGeoapify(features[0]) then features else []
  {
    if features == [] then []
    else
      var f := features[0];
      var named := f.(name := if f.name == "" then "Accommodation" else f.name);
      var rest := GeoapifyResults(features[1..]);
      assert forall x :: x in features <==> x == f || x in features[1..];
      if named.name != "" && named.name != "Accommodation" then [named] + rest else rest
  }

  /** `map` and `filter` work feature by feature: the result for `a + b` is
      the result for `a` followed by the result for `b`, so order and
      repeats are kept. */
  lemma {:induction false} GeoapifyResultsAppend(a: seq<Lodging>, b: seq<Lodging>)
    ensures GeoapifyResults(a + b) == GeoapifyResults(a) + GeoapifyResults(b)
    decreases |a|
  {
    if a == [] {
      assert a + b == b;
    } else {
      assert (a + b)[0] == a[0];
      assert (a + b)[1..] == a[1..] + b;
      GeoapifyResultsAppend(a[1..], b);
    }
  }

  /** The chain, case by case: a throw anywhere before the end lands in the
      `catch`, which returns the OpenTripMap list. */
  function AccommodationFallback(keySet: bool, geoapify: GeoapifyResponse, overpass: Settled<seq<Lodging>>,
                                 opentripmap: Settled<seq<Lodging>>): seq<Lodging>
  {
    var geo := if keySet && geoapify.Ok? then GeoapifyResults(geoapify.features) else [];
    if keySet && geoapify.Threw? then GetAccommodation(opentripmap)
    else if geo != [] then geo
    else if overpass.Fulfilled? && overpass.value != [] then overpass.value
    else GetAccommodation(opentripmap)
  }

  /** `getAccommodationFromGeoapify`: `results` is reassigned stage by stage. */
  method GetAccommodationFromGeoapify(keySet: bool, geoapify: GeoapifyResponse, overpass: Settled<seq<Lodging>>,
                                      opentripmap: Settled<seq<Lodging>>) returns (results: seq<Lodging>)
    ensures results == AccommodationFallback(keySet, geoapify, overpass, opentripmap)
  {
    results := [];
    if keySet {
      match geoapify
      case Threw =>
        return GetAccommodation(opentripmap);
      case NotOk =>
      case Ok(features) =>
        results := GeoapifyResults(features);
    }
    if |results| == 0 {
      match overpass
      case Rejected =>
        return GetAccommodation(opentripmap);
      case Fulfilled(v) =>
        results := v;
    }
    if |results| == 0 {
      results := GetAccommodation(opentripmap);
    }
  }

  /** Stages never merge: the answer is one stage's list, the earliest
      non-empty one in the order Geoapify, Overpass, OpenTripMap, and a
      Geoapify throw goes straight to OpenTripMap without asking Overpass. */
  lemma FallbackStages(keySet: bool, geoapify: GeoapifyResponse, overpass: Settled<seq<Lodging>>,
                       opentripmap: Settled<seq<Lodging>>)
    ensures keySet && geoapify.Threw?
      ==> AccommodationFallback(keySet, geoapify, overpass, opentripmap) == GetAccommodation(opentripmap)
    ensures var geo := if keySet && geoapify.Ok? then GeoapifyResults(geoapify.features) else [];
      !(keySet && geoapify.Threw?) && geo != []
      ==> AccommodationFallback(keySet, geoapify, overpass, opentripmap) == geo
    ensures var geo := if keySet && geoapify.Ok? then GeoapifyResults(geoapify.features) else [];
      !(keySet && geoapify.Threw?) && geo == [] && overpass.Fulfilled? && overpass.value != []
      ==> AccommodationFallback(keySet, geoapify, overpass, opentripmap) == overpass.value
    ensures var geo := if keySet && geoapify.Ok? then GeoapifyResults(geoapify.features) else [];
      !(keySet && geoapify.Threw?) && geo == [] && OrEmpty(overpass) == []
      ==> AccommodationFallback(keySet, geoapify, overpass, opentripmap) == GetAccommodation(opentripmap)
    ensures AccommodationFallback(keySet, geoapify, overpass, opentripmap) == []
      <==> GetAccommodation(opentripmap) == []
           && ((keySet && geoapify.Threw?)
               || ((!keySet || !geoapify.Ok? || GeoapifyResults(geoapify.features) == []) && OrEmpty(overpass) == []))
  {
  }

  /** A Geoapify throw skips Overpass: its outcome then makes no difference. */
  lemma ThrowSkipsOverpass(o1: Settled<seq<Lodging>>, o2: Settled<seq<Lodging>>, opentripmap: Settled<seq<Lodging>>)
    ensures AccommodationFallback(true, Threw, o1, opentripmap) == AccommodationFallback(true, Threw, o2, opentripmap)
  {
  }

  /** Without an API key the Geoapify outcome is never looked at. */
  lemma NoKeyIgnoresGeoapify(g1: GeoapifyResponse, g2: GeoapifyResponse, overpass: Settled<seq<Lodging>>,
                             opentripmap: Settled<seq<Lodging>>)
    ensures AccommodationFallback(false, g1, overpass, opentripmap) == AccommodationFallback(false, g2, overpass, opentripmap)
  {
  }

  /** A Geoapify answer that survives the filter is returned as it is, and
      never holds an item named "Accommodation" or an unnamed one. */
  lemma GeoapifyAnswerFiltered(features: seq<Lodging>, overpass: Settled<seq<Lodging>>, opentripmap: Settled<seq<Lodging>>)
    requires GeoapifyResults(features) != []
    ensures var r := AccommodationFallback(true, Ok(features), overpass, opentripmap);
      r == GeoapifyResults(features) && forall x :: x in r ==> x in features && x.name !in {"", "Accommodation"}
  {
  }

  // ---------------------------------------------------------------------
  // The home screen bundle

  datatype LocationBundle = LocationBundle(
    news: seq<NewsArticle>,
    placesToVisit: seq<Place>,
    restaurants: seq<Restaurant>,
    holyPlaces: seq<HolyPlace>,
    accommodation: seq<Lodging>,
    services: seq<Service>,
    wikipedia: Option<WikipediaSummary>,
    airQuality: Option<AirQuality>,
    generatedHistory: string)

  const HistorySuffix: string := " has a rich history and cultural heritage that spans many centuries."

  /** `generatedHistory || `${locationName} has a rich history …``; the text
      generator already returns "" on any failure. */
  function HistoryOrTemplate(locationName: string, generated: string): (h: string)
    ensures h != ""
    ensures generated != "" ==> h == generated
    ensures generated == "" ==> StartsWith(h, locationName) && h[|locationName|..] == HistorySuffix
  {
    if generated != "" then generated else locationName + HistorySuffix
  }

  /** What the eight calls awaited through `Promise.allSettled` did, in
      the order they are listed. */
  datatype Outcomes = Outcomes(
    news: Settled<seq<NewsArticle>>,
    placesToVisit: Settled<seq<Place>>,
    restaurants: Settled<seq<Restaurant>>,
    holyPlaces: Settled<seq<HolyPlace>>,
    accommodation: Settled<seq<Lodging>>,
    services: Settled<seq<Service>>,
    wikipedia: Settled<Option<WikipediaSummary>>,
    airQuality: Settled<Option<AirQuality>>)

  /** `getComprehensiveLocationData`: each section is its provider's value
      when the promise fulfilled; otherwise a list falls back to [] and the
      two single records to `null`. */
  function GetComprehensiveLocationData(locationName: string, o: Outcomes, generated: string): (b: LocationBundle)
    ensures o.news.Fulfilled? ==> b.news == o.news.value
    ensures o.news.Rejected? ==> b.news == []
    ensures o.placesToVisit.Fulfilled? ==> b.placesToVisit == o.placesToVisit.value
    ensures o.placesToVisit.Rejected? ==> b.placesToVisit == []
    ensures o.restaurants.Fulfilled? ==> b.restaurants == o.restaurants.value
    ensures o.restaurants.Rejected? ==> b.restaurants == []
    ensures o.holyPlaces.Fulfilled? ==> b.holyPlaces == o.holyPlaces.value
    ensures o.holyPlaces.Rejected? ==> b.holyPlaces == []
    ensures o.accommodation.Fulfilled? ==> b.accommodation == o.accommodation.value
    ensures o.accommodation.Rejected? ==> b.accommodation == []
    ensures o.services.Fulfilled? ==> b.services == o.services.value
    ensures o.services.Rejected? ==> b.services == []
    ensures o.wikipedia.Fulfilled? ==> b.wikipedia == o.wikipedia.value
    ensures o.wikipedia.Rejected? ==> b.wikipedia == None
    ensures o.airQuality.Fulfilled? ==> b.airQuality == o.airQuality.value
    ensures o.airQuality.Rejected? ==> b.airQuality == None
    ensures b.generatedHistory == HistoryOrTemplate(locationName, generated) && b.generatedHistory != ""
  {
    LocationBundle(
      OrEmpty(o.news), OrEmpty(o.placesToVisit), OrEmpty(o.restaurants), OrEmpty(o.holyPlaces),
      OrEmpty(o.accommodation), OrEmpty(o.services), OrNull(o.wikipedia), OrNull(o.airQuality),
      HistoryOrTemplate(locationName, generated))
  }

  /** One failing provider empties its own section and nothing else: for
      each of the eight, the bundle equals the one built from the same
      outcomes with that section reset to [] or `null`. */
  lemma FailureIsIsolated(locationName: string, o: Outcomes, generated: string)
    ensures GetComprehensiveLocationData(locationName, o.(news := Rejected), generated)
         == GetComprehensiveLocationData(locationName, o, generated).(news := [])
    ensures GetComprehensiveLocationData(locationName, o.(placesToVisit := Rejected), generated)
         == GetComprehensiveLocationData(locationName, o, generated).(placesToVisit := [])
    ensures GetComprehensiveLocationData(locationName, o.(restaurants := Rejected), generated)
         == GetComprehensiveLocationData(locationName, o, generated).(restaurants := [])
    ensures GetComprehensiveLocationData(locationName, o.(holyPlaces := Rejected), generated)
         == GetComprehensiveLocationData(locationName, o, generated).(holyPlaces := [])
    ensures GetComprehensiveLocationData(locationName, o.(accommodation := Rejected), generated)
         == GetComprehensiveLocationData(locationName, o, generated).(accommodation := [])
    ensures GetComprehensiveLocationData(locationName, o.(services := Rejected), generated)
         == GetComprehensiveLocationData(locationName, o, generated).(services := [])
    ensures GetComprehensiveLocationData(locationName, o.(wikipedia := Rejected), generated)
         == GetComprehensiveLocationData(locationName, o, generated).(wikipedia := None)
    ensures GetComprehensiveLocationData(locationName, o.(airQuality := Rejected), generated)
         == GetComprehensiveLocationData(locationName, o, generated).(airQuality := None)
  {
  }
}
