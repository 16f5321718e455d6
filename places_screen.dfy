/** The places detail screen: the icon chosen from a place type (matched
    case-sensitively, unlike the other screens), the type label and the
    statistics bar. */
module PlacesScreen {
  import opened Common
  import opened Text
  import opened Dedupe
  import opened Classify
  import opened Records

  datatype PlaceIcon = Location | Library | Leaf | Trophy | Flower | Water | Storefront | Camera {
    function Name(): string {
      match this
      case Location => "location"
      case Library => "library"
      case Leaf => "leaf"
      case Trophy => "trophy"
      case Flower => "flower"
      case Water => "water"
      case Storefront => "storefront"
      case Camera => "camera"
    }
  }

  const PlaceRules: seq<Rule<PlaceIcon>> := [
    Rule(["museum"], Library),
    Rule(["park"], Leaf),
    Rule(["monument"], Trophy),
    Rule(["temple", "church"], Flower),
    Rule(["beach"], Water),
    Rule(["market"], Storefront)
  ]

  /** `getPlaceTypeIcon(type)`: no lower-casing. */
  function GetPlaceTypeIcon(placeType: string): (icon: PlaceIcon)
    ensures icon == Location <==> placeType == ""
  {
    if placeType == "" then Location else FirstMatch(PlaceRules, placeType, Camera)
  }

  /** The first rule wins: a type mentioning "museum" is a library,
      whatever else it mentions ("museum park" included). */
  lemma MuseumWins(placeType: string)
    requires Contains(placeType, "museum")
    ensures GetPlaceTypeIcon(placeType) == Library
  {
    assert MatchesAny(placeType, PlaceRules[0].keywords);
    FirstMatchAt(PlaceRules, placeType, Camera, 0);
  }

  /** A type that is present but matches no rule shows the camera. */
  lemma UnmatchedIsCamera(placeType: string)
    requires placeType != ""
    requires forall j :: 0 <= j < |PlaceRules| ==> !MatchesAny(placeType, PlaceRules[j].keywords)
    ensures GetPlaceTypeIcon(placeType) == Camera
  {
    NoMatchGivesDefault(PlaceRules, placeType, Camera);
  }

  /** Matching is case-sensitive: "Museum" matches no rule and shows the camera. */
  lemma CapitalisedMuseumIsCamera()
    ensures GetPlaceTypeIcon("Museum") == Camera
  {
    var t := "Museum";
    ContainsSameLength(t, "museum");
    AbsentCharExcludes(t, "park", 0);
    AbsentCharExcludes(t, "monument", 2);
    AbsentCharExcludes(t, "temple", 0);
    AbsentCharExcludes(t, "church", 0);
    AbsentCharExcludes(t, "beach", 0);
    AbsentCharExcludes(t, "market", 1);
    NoMatchGivesDefault(PlaceRules, t, Camera);
  }

  /** `formatPlaceType(type)`: "Attraction" for a missing type, otherwise the
      first two comma-separated parts, title-cased; never more than one comma.
      The services screen has the same helper with "Service" as its default
      (`ServicesScreen.FormatServiceType`). */
  function FormatPlaceType(placeType: string): (r: string)
    ensures placeType == "" ==> r == "Attraction"
    ensures CountChar(r, ',') <= 1
  {
    CountCharAbsent("Attraction", ',');
    TypeListAtMostOneComma(placeType, "Attraction");
    FormatTypeList(placeType, "Attraction")
  }

  // ---------------------------------------------------------------------
  // Statistics

  /** `place.rating && place.rating >= 4` */
  predicate TopRated(p: Place) {
    RatedAtLeast(p.details.rating, 4.0)
  }

  /** `place.type?.toLowerCase().includes('museum')` */
  predicate IsMuseum(p: Place) {
    Contains(Lower(p.details.placeType), "museum")
  }

  function TopRatedCount(places: seq<Place>): (n: nat)
    ensures n <= |places|
  {
    Count(places, TopRated)
  }

  function MuseumCount(places: seq<Place>): (n: nat)
    ensures n <= |places|
  {
    Count(places, IsMuseum)
  }

  lemma TopRatedCountPositive(places: seq<Place>)
    ensures TopRatedCount(places) > 0 <==> exists i :: 0 <= i < |places| && RatedAtLeast(places[i].details.rating, 4.0)
  {
    CountPositive(places, TopRated);
  }

  /** The museum count ignores case while the icon does not: a place typed
      "Museum" is counted as a museum yet shows the camera icon. */
  lemma MuseumCountIgnoresCase(p: Place)
    requires p.details.placeType == "Museum"
    ensures MuseumCount([p]) == 1 && GetPlaceTypeIcon(p.details.placeType) == Camera
  {
    CapitalisedMuseumIsCamera();
    assert Lower("Museum") == "museum";
    assert StartsWith("museum", "museum");
    assert [p][..0] == [];
  }
}
