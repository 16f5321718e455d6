/** The normalised records the location service hands to the screens. Each
    list entry is a `Dedupe.Item` (name, rounded coordinates) whose `details`
    hold the fields the rest of the app reads; fields no modelled rule reads
    (addresses for display, phone numbers, websites, coordinates as floats)
    are not carried. A missing string is "" and a missing number is `None`. */
module Records {
  import opened Common
  import opened Dedupe
  import opened Classify

  datatype NewsArticle = NewsArticle(title: string, description: string, source: string)

  datatype PlaceInfo = PlaceInfo(placeType: string, distance: Option<real>, rating: Option<real>)

  datatype RestaurantInfo = RestaurantInfo(categories: Option<seq<string>>, address: string, rating: Option<real>)

  datatype HolyPlaceInfo = HolyPlaceInfo(religion: string, placeType: string)

  datatype AccommodationInfo = AccommodationInfo(
    accommodationType: AccommodationType,
    amenities: seq<Amenity>,
    priceRange: PriceRange,
    rating: Option<real>)

  /** `serviceType` is `None` when the provider gave no `type` at all. */
  datatype ServiceInfo = ServiceInfo(serviceType: Option<string>, distance: Option<real>)

  datatype WikipediaSummary = WikipediaSummary(title: string, extract: string)

  datatype AirQuality = AirQuality(aqi: int, level: AqiLevel)

  type Place = Item<PlaceInfo>
  type Restaurant = Item<RestaurantInfo>
  type HolyPlace = Item<HolyPlaceInfo>
  type Lodging = Item<AccommodationInfo>
  type Service = Item<ServiceInfo>
}
