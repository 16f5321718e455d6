/** The pure classifiers and small normalisers of the location service:
    accommodation types, price ranges, amenity lists, AQI bands, service
    display names, address formatting and the coordinate/radius guards that
    every adapter applies before it issues a request. */
module Classify {
  import opened Common
  import opened Text

  // ---------------------------------------------------------------------
  // Accommodation type

  /** The accommodation types the two classifiers report; `Label` is the
      text the source returns. */
  datatype AccommodationType =
    | Resort | Hostel | GuestHouse | Apartment | Villa | BedAndBreakfast
    | LuxuryHotel | BudgetHotel | Motel | Camping | Hotel
  {
    function Label(): string {
      match this
      case Resort => "Resort"
      case Hostel => "Hostel"
      case GuestHouse => "Guest House"
      case Apartment => "Apartment"
      case Villa => "Villa"
      case BedAndBreakfast => "B&B"
      case LuxuryHotel => "Luxury Hotel"
      case BudgetHotel => "Budget Hotel"
      case Motel => "Motel"
      case Camping => "Camping"
      case Hotel => "Hotel"
    }
  }

  /** The `categorizeAccommodationType` chain, in source order. It has no motel rule. */
  const OpenTripMapTypeRules: seq<Rule<AccommodationType>> := [
    Rule(["resort"], Resort),
    Rule(["hostel"], Hostel),
    Rule(["guest_house", "guesthouse"], GuestHouse),
    Rule(["apartment"], Apartment),
    Rule(["villa"], Villa),
    Rule(["bed_and_breakfast", "bnb"], BedAndBreakfast),
    Rule(["luxury"], LuxuryHotel),
    Rule(["budget"], BudgetHotel)
  ]

  /** The `categorizeGeoapifyAccommodation` chain, in source order. */
  const GeoapifyTypeRules: seq<Rule<AccommodationType>> := [
    Rule(["resort"], Resort),
    Rule(["hostel"], Hostel),
    Rule(["guest_house", "guesthouse"], GuestHouse),
    Rule(["apartment", "aparthotel"], Apartment),
    Rule(["villa"], Villa),
    Rule(["motel"], Motel),
    Rule(["bed_and_breakfast"], BedAndBreakfast),
    Rule(["camping"], Camping)
  ]

  /** `categorizeAccommodationType(kinds)`; a missing `kinds` is "". */
  function CategorizeAccommodationType(kinds: string): AccommodationType {
    if kinds == "" then Hotel else FirstMatch(OpenTripMapTypeRules, Lower(kinds), Hotel)
  }

  /** `categorizeGeoapifyAccommodation(categories)`; `None` is a missing or non-array value. */
  function CategorizeGeoapifyAccommodation(categories: Option<seq<string>>): AccommodationType {
    match categories
    case None => Hotel
    case Some(cs) => FirstMatch(GeoapifyTypeRules, Lower(Join(cs, " ")), Hotel)
  }

  lemma LowerIdempotent(s: string)
    ensures Lower(Lower(s)) == Lower(s)
  {
  }

  /** Both accommodation classifiers lower-case their input first, so the
      case of the provider's tags never matters. */
  lemma AccommodationTypeIgnoresCase(kinds: string, cs: seq<string>)
    ensures CategorizeAccommodationType(Lower(kinds)) == CategorizeAccommodationType(kinds)
    ensures CategorizeGeoapifyAccommodation(Some([Lower(Join(cs, " "))]))
         == CategorizeGeoapifyAccommodation(Some(cs))
  {
    LowerIdempotent(kinds);
    LowerIdempotent(Join(cs, " "));
  }

  /** The OpenTripMap classifier returns the type of the earliest rule whose
      keyword occurs in the lower-cased input, and "Hotel" when none does. */
  lemma AccommodationTypeIsEarliestRule(kinds: string)
    requires kinds != ""
    ensures var i := FirstMatchIndex(OpenTripMapTypeRules, Lower(kinds));
      CategorizeAccommodationType(kinds)
        == if i < |OpenTripMapTypeRules| then OpenTripMapTypeRules[i].gives else Hotel
  {
    FirstMatchIsEarliest(OpenTripMapTypeRules, Lower(kinds), Hotel);
  }

  /** The same for the Geoapify classifier, over its categories joined by spaces. */
  lemma GeoapifyTypeIsEarliestRule(cs: seq<string>)
    ensures var t := Lower(Join(cs, " "));
      var i := FirstMatchIndex(GeoapifyTypeRules, t);
      CategorizeGeoapifyAccommodation(Some(cs))
        == if i < |GeoapifyTypeRules| then GeoapifyTypeRules[i].gives else Hotel
  {
    FirstMatchIsEarliest(GeoapifyTypeRules, Lower(Join(cs, " ")), Hotel);
  }

  /** The OpenTripMap variant has no motel rule: it never reports a motel ... */
  lemma OpenTripMapNeverMotel(kinds: string)
    ensures CategorizeAccommodationType(kinds) != Motel
  {
    if kinds != "" {
      FirstMatchIsEarliest(OpenTripMapTypeRules, Lower(kinds), Hotel);
    }
  }

  /** ... while the Geoapify variant reports one exactly when "motel" occurs
      and none of the five earlier rules matches. */
  lemma GeoapifyMotel(cs: seq<string>)
    ensures var t := Lower(Join(cs, " "));
      CategorizeGeoapifyAccommodation(Some(cs)) == Motel
      <==> Contains(t, "motel") && forall j :: 0 <= j < 5 ==> !MatchesAny(t, GeoapifyTypeRules[j].keywords)
  {
    var t := Lower(Join(cs, " "));
    FirstMatchUniqueLabel(GeoapifyTypeRules, t, Hotel, 5);
    assert MatchesAny(t, ["motel"]) == Contains(t, "motel") by {
      assert ["motel"][1..] == [];
    }
  }

  // ---------------------------------------------------------------------
  // Price range

  datatype PriceRange = Luxury | Premium | Budget | MidRange | Standard {
    /** The label the source stores in `priceRange`. */
    function Label(): string {
      match this
      case Luxury => "$$$$ (Luxury)"
      case Premium => "$$$ (Premium)"
      case Budget => "$ (Budget)"
      case MidRange => "$$ (Mid-range)"
      case Standard => "$$ (Standard)"
    }

    /** The number of dollar signs in the label. */
    function Tier(): nat {
      match this
      case Luxury => 4
      case Premium => 3
      case Budget => 1
      case MidRange => 2
      case Standard => 2
    }
  }

  /** `rating && rating >= t`: a missing or zero rating is falsy. */
  predicate RatedAtLeast(rating: Option<real>, t: real) {
    rating.Some? && rating.value != 0.0 && rating.value >= t
  }

  /** `estimatePriceRange(kinds, rating)`; a missing `kinds` is "". */
  function EstimatePriceRange(kinds: string, rating: Option<real>): PriceRange {
    var k := Lower(kinds);
    if Contains(k, "luxury") || RatedAtLeast(rating, 4.5) then Luxury
    else if Contains(k, "resort") || RatedAtLeast(rating, 4.0) then Premium
    else if Contains(k, "budget") || Contains(k, "hostel") then Budget
    else if RatedAtLeast(rating, 3.5) then MidRange
    else Standard
  }

  /** A missing rating and a zero rating never trigger a rating rule: the
      result is then decided by the keywords alone, and a better rating never
      lowers the tier. */
  lemma PriceRangeRatingMonotone(kinds: string, x: real, y: real)
    requires 0.0 <= x <= y
    ensures EstimatePriceRange(kinds, None) == EstimatePriceRange(kinds, Some(0.0))
    ensures EstimatePriceRange(kinds, None).Tier() <= EstimatePriceRange(kinds, Some(x)).Tier()
    ensures EstimatePriceRange(kinds, Some(x)).Tier() <= EstimatePriceRange(kinds, Some(y)).Tier()
  {
  }

  /** "luxury" in the kinds wins whatever the rating. */
  lemma LuxuryKeywordWins(kinds: string, rating: Option<real>)
    requires Contains(Lower(kinds), "luxury")
    ensures EstimatePriceRange(kinds, rating) == Luxury
  {
  }

  /** The rating rule for Premium comes before the Budget keywords: the
      range is Premium exactly when no Luxury rule applies and either
      "resort" occurs or the rating is at least 4, whatever Budget keywords
      ("hostel", "budget") the kinds also hold. */
  lemma PremiumBeforeBudget(kinds: string, rating: Option<real>)
    ensures var k := Lower(kinds);
      EstimatePriceRange(kinds, rating) == Premium
      <==> !Contains(k, "luxury") && !RatedAtLeast(rating, 4.5) && (Contains(k, "resort") || RatedAtLeast(rating, 4.0))
  {
  }

  /** The fall-through: the range is Standard exactly when none of the four
      keywords occurs and the rating is missing, zero or below 3.5. */
  lemma NoKeywordNoRatingIsStandard(kinds: string, rating: Option<real>)
    ensures var k := Lower(kinds);
      EstimatePriceRange(kinds, rating) == Standard
      <==> !Contains(k, "luxury") && !Contains(k, "resort") && !Contains(k, "budget") && !Contains(k, "hostel")
           && !RatedAtLeast(rating, 3.5)
  {
  }

  // ---------------------------------------------------------------------
  // Amenity lists: a sequence of independent `if (...) amenities.push(L)`
  // tests followed by a default when nothing matched.

  /** The amenities the three extractors can report; `Label` is the text
      the source pushes. */
  datatype Amenity =
    | WiFi | Internet | SwimmingPool | Pool | Spa | Restaurant | FitnessCenter | Parking
    | PetFriendly | BusinessCenter | ConferenceRooms | Breakfast | WheelchairAccessible
    | AirConditioning | StandardRooms | Reception | Housekeeping
  {
    function Label(): string {
      match this
      case WiFi => "WiFi"
      case Internet => "Internet"
      case SwimmingPool => "Swimming Pool"
      case Pool => "Pool"
      case Spa => "Spa"
      case Restaurant => "Restaurant"
      case FitnessCenter => "Fitness Center"
      case Parking => "Parking"
      case PetFriendly => "Pet Friendly"
      case BusinessCenter => "Business Center"
      case ConferenceRooms => "Conference Rooms"
      case Breakfast => "Breakfast"
      case WheelchairAccessible => "Wheelchair Accessible"
      case AirConditioning => "Air Conditioning"
      case StandardRooms => "Standard Rooms"
      case Reception => "Reception"
      case Housekeeping => "Housekeeping"
    }
  }

  function Labels(amenities: seq<Amenity>): (r: seq<string>)
    ensures |r| == |amenities|
  {
    seq(|amenities|, i requires 0 <= i < |amenities| => amenities[i].Label())
  }

  /** `[a]` when the test passes, otherwise nothing: the effect of one
      `if (test) amenities.push(label)` on the list. */
  function Pushed(passed: bool, a: Amenity): (r: seq<Amenity>)
    ensures |r| <= 1
  {
    if passed then [a] else []
  }

  const KindDefaultAmenities: seq<Amenity> := [StandardRooms, Reception, Housekeeping]

  /** The nine feature tests of `extractAmenities`, in source order, on the
      lower-cased `kinds`. */
  function KindAmenities(k: string): seq<Amenity> {
    Pushed(Contains(k, "wifi"), WiFi) + Pushed(Contains(k, "pool"), SwimmingPool)
    + Pushed(Contains(k, "spa"), Spa) + Pushed(Contains(k, "restaurant"), Restaurant)
    + Pushed(Contains(k, "fitness"), FitnessCenter) + Pushed(Contains(k, "parking"), Parking)
    + Pushed(Contains(k, "pet"), PetFriendly) + Pushed(Contains(k, "business"), BusinessCenter)
    + Pushed(Contains(k, "conference"), ConferenceRooms)
  }

  /** `extractAmenities(kinds)`: no `kinds` gives no amenities at all, while
      `kinds` that name none of the nine features gives the three default
      hotel amenities. */
  method ExtractAmenities(kinds: string) returns (amenities: seq<Amenity>)
    ensures amenities == [] <==> kinds == ""
    ensures kinds != "" ==>
      amenities == if KindAmenities(Lower(kinds)) == [] then KindDefaultAmenities else KindAmenities(Lower(kinds))
  {
    if kinds == "" {
      return [];
    }
    amenities := [];
    var k := Lower(kinds);
    amenities := amenities + Pushed(Contains(k, "wifi"), WiFi);
    assert amenities == Pushed(Contains(k, "wifi"), WiFi);
    amenities := amenities + Pushed(Contains(k, "pool"), SwimmingPool);
    amenities := amenities + Pushed(Contains(k, "spa"), Spa);
    amenities := amenities + Pushed(Contains(k, "restaurant"), Restaurant);
    amenities := amenities + Pushed(Contains(k, "fitness"), FitnessCenter);
    amenities := amenities + Pushed(Contains(k, "parking"), Parking);
    amenities := amenities + Pushed(Contains(k, "pet"), PetFriendly);
    amenities := amenities + Pushed(Contains(k, "business"), BusinessCenter);
    amenities := amenities + Pushed(Contains(k, "conference"), ConferenceRooms);
    if |amenities| == 0 {
      amenities := amenities + [StandardRooms, Reception, Housekeeping];
    }
  }

  /** `tags.k === 'yes'` */
  predicate TagYes(tags: map<string, string>, k: string) {
    k in tags && tags[k] == "yes"
  }

  /** The five tag tests of `extractOverpassAmenities`, in source order. */
  function TagAmenities(t: map<string, string>): seq<Amenity> {
    Pushed(TagYes(t, "internet_access") || TagYes(t, "wifi"), WiFi)
    + Pushed(TagYes(t, "parking"), Parking) + Pushed(TagYes(t, "swimming_pool"), Pool)
    + Pushed(TagYes(t, "restaurant"), Restaurant) + Pushed(TagYes(t, "breakfast"), Breakfast)
  }

  /** `extractOverpassAmenities(tags)`: never empty; StandardRooms stands
      in when the tags are missing or none of the five says "yes". */
  method ExtractOverpassAmenities(tags: Option<map<string, string>>) returns (amenities: seq<Amenity>)
    ensures amenities != []
    ensures tags.None? ==> amenities == [StandardRooms]
    ensures tags.Some? ==>
      amenities == if TagAmenities(tags.value) == [] then [StandardRooms] else TagAmenities(tags.value)
  {
    if tags.None? {
      return [StandardRooms];
    }
    var t := tags.value;
    amenities := [];
    amenities := amenities + Pushed(TagYes(t, "internet_access") || TagYes(t, "wifi"), WiFi);
    assert amenities == Pushed(TagYes(t, "internet_access") || TagYes(t, "wifi"), WiFi);
    amenities := amenities + Pushed(TagYes(t, "parking"), Parking);
    amenities := amenities + Pushed(TagYes(t, "swimming_pool"), Pool);
    amenities := amenities + Pushed(TagYes(t, "restaurant"), Restaurant);
    amenities := amenities + Pushed(TagYes(t, "breakfast"), Breakfast);
    if |amenities| == 0 {
      amenities := [StandardRooms];
    }
  }

  /** The five property tests of `extractGeoapifyAmenities`, in source order;
      `truthy` holds the names of the properties whose value is truthy. */
  function PropertyAmenities(truthy: set<string>): seq<Amenity> {
    Pushed("wifi" in truthy, WiFi) + Pushed("internet_access" in truthy, Internet)
    + Pushed("parking" in truthy, Parking) + Pushed("wheelchair" in truthy, WheelchairAccessible)
    + Pushed("air_conditioning" in truthy, AirConditioning)
  }

  /** `extractGeoapifyAmenities(properties)`: never empty; StandardRooms
      and Reception stand in when none of the five properties is set. */
  method ExtractGeoapifyAmenities(truthy: set<string>) returns (amenities: seq<Amenity>)
    ensures amenities != []
    ensures amenities == if PropertyAmenities(truthy) == [] then [StandardRooms, Reception] else PropertyAmenities(truthy)
  {
    amenities := [];
    amenities := amenities + Pushed("wifi" in truthy, WiFi);
    assert amenities == Pushed("wifi" in truthy, WiFi);
    amenities := amenities + Pushed("internet_access" in truthy, Internet);
    amenities := amenities + Pushed("parking" in truthy, Parking);
    amenities := amenities + Pushed("wheelchair" in truthy, WheelchairAccessible);
    amenities := amenities + Pushed("air_conditioning" in truthy, AirConditioning);
    if |amenities| == 0 {
      amenities := amenities + [StandardRooms, Reception];
    }
  }

  // ---------------------------------------------------------------------
  // Air quality

  datatype AqiLevel = AqiLevel(level: string, color: string, description: string)

  /** The inclusive upper bounds of the first five bands; the sixth is open. */
  const AqiUpperBounds: seq<int> := [50, 100, 150, 200, 300]

  const AqiLevels: seq<AqiLevel> := [
    AqiLevel("Good", "#00E400", "Air quality is satisfactory"),
    AqiLevel("Moderate", "#FFFF00", "Acceptable air quality"),
    AqiLevel("Unhealthy for Sensitive", "#FF7E00", "Sensitive groups may experience effects"),
    AqiLevel("Unhealthy", "#FF0000", "Everyone may experience health effects"),
    AqiLevel("Very Unhealthy", "#8F3F97", "Health alert for everyone"),
    AqiLevel("Hazardous", "#7E0023", "Emergency conditions")
  ]

  /** `bounds[i-1] < aqi <= bounds[i]`, with the outer bands open-ended. */
  predicate InBand(aqi: int, i: int) {
    0 <= i < |AqiLevels|
    && (i < |AqiUpperBounds| ==> aqi <= AqiUpperBounds[i])
    && (i > 0 ==> aqi > AqiUpperBounds[i - 1])
  }

  /** Every reading falls in some band. */
  lemma AqiBandExists(aqi: int)
    ensures exists i :: InBand(aqi, i)
  {
    if aqi <= 50 { assert InBand(aqi, 0); }
    else if aqi <= 100 { assert InBand(aqi, 1); }
    else if aqi <= 150 { assert InBand(aqi, 2); }
    else if aqi <= 200 { assert InBand(aqi, 3); }
    else if aqi <= 300 { assert InBand(aqi, 4); }
    else { assert InBand(aqi, 5); }
  }

  /** `getAQILevel(aqi)`: the level of the band `i` with
      `bounds[i-1] < aqi <= bounds[i]`. */
  function GetAqiLevel(aqi: int): (r: AqiLevel)
    ensures forall i :: InBand(aqi, i) ==> r == AqiLevels[i]
  {
    if aqi <= 50 then AqiLevel("Good", "#00E400", "Air quality is satisfactory")
    else if aqi <= 100 then AqiLevel("Moderate", "#FFFF00", "Acceptable air quality")
    else if aqi <= 150 then AqiLevel("Unhealthy for Sensitive", "#FF7E00", "Sensitive groups may experience effects")
    else if aqi <= 200 then AqiLevel("Unhealthy", "#FF0000", "Everyone may experience health effects")
    else if aqi <= 300 then AqiLevel("Very Unhealthy", "#8F3F97", "Health alert for everyone")
    else AqiLevel("Hazardous", "#7E0023", "Emergency conditions")
  }

  /** The position of a level among the six bands (0 = Good, 5 = Hazardous). */
  function AqiSeverity(l: AqiLevel): nat {
    if l == AqiLevels[0] then 0
    else if l == AqiLevels[1] then 1
    else if l == AqiLevels[2] then 2
    else if l == AqiLevels[3] then 3
    else if l == AqiLevels[4] then 4
    else 5
  }

  lemma AqiSeverityOfBand(i: nat)
    requires i < |AqiLevels|
    ensures AqiSeverity(AqiLevels[i]) == i
  {
  }

  /** Bands are ordered like the readings they hold. */
  lemma BandsOrdered(a: int, b: int, i: int, j: int)
    requires a <= b && InBand(a, i) && InBand(b, j)
    ensures i <= j
  {
  }

  /** A worse reading never gets a milder band. */
  lemma AqiMonotone(a: int, b: int)
    requires a <= b
    ensures AqiSeverity(GetAqiLevel(a)) <= AqiSeverity(GetAqiLevel(b))
  {
    AqiBandExists(a);
    AqiBandExists(b);
    var i :| InBand(a, i);
    var j :| InBand(b, j);
    BandsOrdered(a, b, i, j);
    AqiSeverityOfBand(i);
    AqiSeverityOfBand(j);
  }

  /** `data.data.aqi` as JavaScript compares it with a number: a number
      (`null` compares as 0), or a value that converts to `NaN`, such as a
      non-numeric string or `undefined`. */
  datatype AqiReading = Numeric(value: int) | NotNumeric

  /** `getAQILevel` on the raw reading: every `aqi <= bound` is false for
      `NaN`, so a non-numeric reading falls through to Hazardous. */
  function AqiLevelOf(reading: AqiReading): (r: AqiLevel)
    ensures reading.NotNumeric? ==> r == AqiLevels[5]
    ensures reading.Numeric? ==> forall i :: InBand(reading.value, i) ==> r == AqiLevels[i]
  {
    match reading
    case Numeric(n) => GetAqiLevel(n)
    case NotNumeric => AqiLevel("Hazardous", "#7E0023", "Emergency conditions")
  }

  /** A missing or malformed reading is reported as the worst level of all. */
  lemma NotNumericIsWorst(n: int)
    ensures AqiSeverity(AqiLevelOf(Numeric(n))) <= AqiSeverity(AqiLevelOf(NotNumeric)) == 5
  {
    AqiBandExists(n);
    var i :| InBand(n, i);
    AqiSeverityOfBand(i);
    AqiSeverityOfBand(5);
  }

  // ---------------------------------------------------------------------
  // Service display names

  const ServiceTypeNames: map<string, string> := map[
    "bank" := "Bank",
    "pharmacy" := "Pharmacy",
    "hospital" := "Hospital",
    "clinic" := "Medical Clinic",
    "post_office" := "Post Office",
    "police" := "Police Station",
    "library" := "Library",
    "fuel" := "Gas Station",
    "supermarket" := "Supermarket",
    "convenience" := "Convenience Store",
    "fitness_centre" := "Fitness Center"
  ]

  /** `getServiceNameFromType(type)`: the table's display name, or the raw type. */
  function GetServiceNameFromType(t: string): (name: string)
    ensures t in ServiceTypeNames ==> name == ServiceTypeNames[t] && name != t
    ensures t !in ServiceTypeNames ==> name == t
  {
    if t in ServiceTypeNames then ServiceTypeNames[t] else t
  }

  /** No display name is itself a table key, so naming twice changes nothing. */
  lemma ServiceNameIdempotent(t: string)
    ensures GetServiceNameFromType(GetServiceNameFromType(t)) == GetServiceNameFromType(t)
  {
  }

  // ---------------------------------------------------------------------
  // Address formatting

  /** The reverse-geocoding fields `formatAddress` reads; "" when absent. */
  datatype GeocodedPlace = GeocodedPlace(name: string, city: string, region: string, country: string)

  /** The present fields, in the order name, city, region, country. */
  function AddressParts(p: GeocodedPlace): (parts: seq<string>)
    ensures forall i :: 0 <= i < |parts| ==> parts[i] != ""
  {
    (if p.name != "" then [p.name] else [])
    + (if p.city != "" then [p.city] else [])
    + (if p.region != "" then [p.region] else [])
    + (if p.country != "" then [p.country] else [])
  }

  lemma {:induction false} JoinNonEmpty(parts: seq<string>, sep: string)
    requires |parts| > 0 && parts[0] != ""
    ensures Join(parts, sep) != ""
    decreases |parts|
  {
    if |parts| > 1 {
      assert |Join(parts, sep)| >= |parts[0]|;
    }
  }

  /** `formatAddress(location)`: the present fields joined by ", ", or
      "Unknown Location" when there are none. */
  method FormatAddress(p: GeocodedPlace) returns (address: string)
    ensures AddressParts(p) == [] ==> address == "Unknown Location"
    ensures AddressParts(p) != [] ==> address == Join(AddressParts(p), ", ") && address != ""
  {
    var parts: seq<string> := [];
    if p.name != "" { parts := parts + [p.name]; }
    if p.city != "" { parts := parts + [p.city]; }
    if p.region != "" { parts := parts + [p.region]; }
    if p.country != "" { parts := parts + [p.country]; }
    assert parts == AddressParts(p);
    address := Join(parts, ", ");
    if parts != [] {
      JoinNonEmpty(parts, ", ");
    }
    if address == "" {
      address := "Unknown Location";
    }
  }

  // ---------------------------------------------------------------------
  // Request guards

  /** `!latitude || !longitude || isNaN(latitude) || isNaN(longitude)` fails;
      `None` stands for undefined, null or NaN. A coordinate of exactly 0 is
      falsy and is rejected too. */
  predicate ValidCoordinates(latitude: Option<real>, longitude: Option<real>) {
    latitude.Some? && latitude.value != 0.0 && longitude.Some? && longitude.value != 0.0
  }

  /** `Math.min(Math.max(radius, 1000), 50000)`: the point of [1000, 50000]
      nearest to `radius`. */
  function ClampRadius(radius: real): (r: real)
    ensures 1000.0 <= r <= 50000.0
    ensures forall y :: 1000.0 <= y <= 50000.0 ==> Dist(r, radius) <= Dist(y, radius)
  {
    var lo := if radius > 1000.0 then radius else 1000.0;
    if lo < 50000.0 then lo else 50000.0
  }

  function Dist(a: real, b: real): real {
    if a >= b then a - b else b - a
  }

  lemma ClampRadiusIdempotent(radius: real)
    ensures ClampRadius(ClampRadius(radius)) == ClampRadius(radius)
    ensures 1000.0 <= radius <= 50000.0 ==> ClampRadius(radius) == radius
  {
  }

  /** The guard of the OpenTripMap cultural-sites, services and accommodation
      adapters: `None` means the adapter returns `[]` without a request,
      otherwise the radius it sends. */
  function OpenTripMapRadius(latitude: Option<real>, longitude: Option<real>, radius: real): (r: Option<real>)
    ensures r.Some? <==> ValidCoordinates(latitude, longitude)
    ensures r.Some? ==> 1000.0 <= r.value <= 50000.0
  {
    if !ValidCoordinates(latitude, longitude) then None else Some(ClampRadius(radius))
  }

  /** Points on the equator or on the prime meridian are refused. */
  lemma ZeroCoordinateRejected(latitude: Option<real>, longitude: Option<real>, radius: real)
    ensures OpenTripMapRadius(Some(0.0), longitude, radius) == None
    ensures OpenTripMapRadius(latitude, Some(0.0), radius) == None
  {
  }
}
