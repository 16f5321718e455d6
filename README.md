# CurioCity location core, modelled in Dafny

CurioCity is a React Native travel app. For the place the user is in, it
gathers news, places to visit, restaurants, holy places, accommodation,
local services, a Wikipedia summary and the air quality, and shows them on
a home screen and on one detail screen per section. This project models
the parts of the app that decide *what* is shown, and proves properties
of them:

- **Deduplication** (`dedupe.dfy`). The four `deduplicate*` functions of
  the location service are one stable filter over items keyed by the
  lower-cased name and the coordinates multiplied by 1000 and rounded. They
  differ only in the names they reject. The filter is a loop over a
  `seen` set (`Dedupe.Deduplicate`), proved equal to a recursive
  specification and to an index-based "first occurrence" description.
- **Classifiers and normalisers** (`classify.dfy`):
  - the accommodation type rules of OpenTripMap and of Geoapify;
  - the price-range estimate and the three amenity extractors;
  - the AQI bands and service display names;
  - the address formatter and the coordinate and radius guards.
- **Aggregation** (`aggregate.dfy`):
  - how the provider lists are combined: `Promise.all` versus
    `Promise.allSettled`, source order and deduplication;
  - the staged Geoapify → Overpass → OpenTripMap fallback for
    accommodation;
  - the bundle `getComprehensiveLocationData` builds.
- **The 30-minute service cache** (`cache.dfy`) is a class over a
  key-value store with the `cache_` prefix.
- **The performance utilities** (`performance.dfy`):
  - the `CacheManager` class;
  - `batchRequests` (a loop over batches, against `Promise.all` of the
    whole list);
  - `fetchWithTimeout` (a retry loop with exponential back-off, against
    a recursive specification);
  - `optimizeListItem`.
- **The screen helpers** (`home.dfy`, `services_screen.dfy`,
  `holy_places_screen.dfy`, `places_screen.dfy`, `restaurants_screen.dfy`):
  - icon and colour choice;
  - label formatting, the first sentence of a description, subtitles and
    routes;
  - the preview of a section, the star rating and the statistics bars.

Shared pieces live in `common.dfy` (`Option`, `Result`, and `Settled`,
the outcome of one promise) and `text.dfy` (ASCII case mapping,
substring search, keyword rule tables, trim, split, join, the two
display rewrites, counting). Provider record types live in `records.dfy`.

Conventions of the model:

- JavaScript's `undefined`/`null` is `None` or `""`. A falsy value is
  `""`, `None` or `0.0`, so the source's `!x` tests are written out.
- `Math.round` is rounding half up (`Text.Round`).
- Clocks, the network and storage failures are parameters. `now` is the
  value of `Date.now()`. A `Settled` value is what a provider's promise
  did, and flags such as `readFails` say whether storage threw.

## Model

| member | source | states |
|---|---|---|
| Dedupe.Deduplicate | src/services/LocationService.js:432-447 | The `seen`-set loop returns exactly `Dedup(cat, items)`: an item is kept iff its name passes the category's test and its key was not seen before. |
| Dedupe.DeduplicatePlaces | src/services/LocationService.js:432-447 | Places deduplication is the filter that rejects "", "Tourist Attraction" and "Cultural Site". |
| Dedupe.DeduplicateRestaurants | src/services/LocationService.js:607-622 | Restaurant deduplication only rejects a missing name. |
| Dedupe.DeduplicateServices | src/services/LocationService.js:796-811 | Service deduplication rejects names that are blank after trimming. |
| Dedupe.DeduplicateAccommodation | src/services/LocationService.js:973-988 | Accommodation deduplication rejects "" and "Hotel". |
| Dedupe.DedupKeys | src/services/LocationService.js:436-444 | The keys kept are exactly the keys of the accepted input items. |
| Dedupe.DedupIsFirstOccurrences | src/services/LocationService.js:436-444 | The result is the input filtered, in order, to the first accepted item of each key. |
| Dedupe.DedupWellFormed | src/services/LocationService.js:436-444 | Every kept item is accepted and comes from the input; no two kept items share a key. |
| Dedupe.PlaceholdersDropped | src/services/LocationService.js:440 | No placeholder or missing name survives its category's deduplication. |
| Dedupe.DefaultNamesByCategory | src/services/LocationService.js:615 | The restaurant default name "Restaurant" passes its filter, while "Hotel", "Tourist Attraction" and "Cultural Site" do not; "Accommodation" passes the accommodation filter. |
| Dedupe.DedupOfDeduplicated | src/services/LocationService.js:436-444 | A list with accepted names and distinct keys is returned unchanged. |
| Dedupe.DedupIdempotent | src/services/LocationService.js:432-447 | Deduplicating twice equals deduplicating once. |
| Dedupe.DedupPrefix | src/services/LocationService.js:436-444 | The result for `a + b` starts with the result for `a`. |
| Dedupe.EarlierSourceWins | src/services/LocationService.js:436-444 | On a key clash between two concatenated sources the earlier source's item is kept. |
| Dedupe.RejectedIsTransparent | src/services/LocationService.js:440 | A rejected item never enters `seen`, so removing it changes nothing. |
| Dedupe.AcceptedKeysMembership | src/services/LocationService.js:436-444 | A key is accepted iff some accepted item carries it. |
| Classify.AccommodationTypeIsEarliestRule | src/services/LocationService.js:918-933 | The OpenTripMap classifier returns the type of the earliest rule whose keyword occurs in the lower-cased kinds, or Hotel. |
| Classify.GeoapifyTypeIsEarliestRule | src/services/LocationService.js:1200-1215 | The Geoapify classifier returns the type of the earliest rule whose keyword occurs in the lower-cased, space-joined categories, or Hotel. |
| Classify.AccommodationTypeIgnoresCase | src/services/LocationService.js:919 | Both classifiers depend only on the lower-cased input. |
| Classify.OpenTripMapNeverMotel | src/services/LocationService.js:918-933 | The OpenTripMap classifier never reports a motel. |
| Classify.GeoapifyMotel | src/services/LocationService.js:1200-1215 | The Geoapify classifier reports a motel iff "motel" is the first rule that matches the joined categories. |
| Classify.PriceRangeRatingMonotone | src/services/LocationService.js:961-970 | For fixed kinds, a higher non-zero rating never gives a lower price tier. |
| Classify.LuxuryKeywordWins | src/services/LocationService.js:963 | "luxury" in the kinds gives Luxury whatever the rating. |
| Classify.PremiumBeforeBudget | src/services/LocationService.js:961-970 | The range is Premium iff no Luxury rule applies and either "resort" occurs or the rating is at least 4, whatever Budget keywords are present: the Premium rating rule is checked before the Budget keywords. |
| Classify.NoKeywordNoRatingIsStandard | src/services/LocationService.js:961-970 | The range is Standard iff none of "luxury", "resort", "budget", "hostel" occurs and the rating is missing, zero or below 3.5. |
| Classify.ExtractAmenities | src/services/LocationService.js:936-958 | No kinds gives []; otherwise the kind tests in source order, or StandardRooms, Reception and Housekeeping when none passes. |
| Classify.ExtractOverpassAmenities | src/services/LocationService.js:1186-1197 | Never empty: the five `yes` tags in order, or StandardRooms. |
| Classify.ExtractGeoapifyAmenities | src/services/LocationService.js:1218-1233 | Never empty: the five truthy properties in order, or StandardRooms and Reception. |
| Classify.GetAqiLevel | src/services/LocationService.js:1278-1285 | The level is that of the band `bounds[i-1] < aqi <= bounds[i]`. |
| Classify.AqiBandExists | src/services/LocationService.js:1278-1285 | Every reading falls in some band. |
| Classify.BandsOrdered | src/services/LocationService.js:1278-1285 | Bands are ordered like the readings they hold. |
| Classify.AqiMonotone | src/services/LocationService.js:1278-1285 | A worse reading never gets a milder level. |
| Classify.AqiLevelOf | src/services/LocationService.js:1258-1285 | A numeric reading gets the level of its band; a reading that is not a number fails every comparison and is Hazardous. |
| Classify.NotNumericIsWorst | src/services/LocationService.js:1278-1285 | A missing or malformed reading is reported as the most severe level, at least as severe as any number. |
| Classify.GetServiceNameFromType | src/services/LocationService.js:767-782 | A known type maps to its display name, which differs from it; an unknown type is returned as is. |
| Classify.ServiceNameIdempotent | src/services/LocationService.js:767-782 | Naming twice changes nothing. |
| Classify.AddressParts | src/services/LocationService.js:138-144 | The address parts are the present fields, none of them empty. |
| Classify.FormatAddress | src/services/LocationService.js:137-146 | "Unknown Location" when no field is present; otherwise the present fields joined by ", ", which is non-empty. |
| Classify.ClampRadius | src/services/LocationService.js:401 | The radius sent lies in [1000, 50000] and is the nearest such value to the one asked for. |
| Classify.ClampRadiusIdempotent | src/services/LocationService.js:401 | Clamping is idempotent and leaves a radius already in range alone. |
| Classify.OpenTripMapRadius | src/services/LocationService.js:395-401 | A request is made iff both coordinates are present and non-zero, and then with a clamped radius. |
| Classify.ZeroCoordinateRejected | src/services/LocationService.js:395 | A zero latitude or longitude is refused. |
| Aggregate.GetPlacesToVisit | src/services/LocationService.js:341-361 | One rejected query empties the list (`Promise.all`); otherwise the result is the first occurrences of tourist then cultural results, with no placeholder names. |
| Aggregate.GetLocalRestaurants | src/services/LocationService.js:451-482 | The result is the first occurrences of Foursquare, OpenTripMap and Overpass results in that order, a rejected source counting as []; every item is named and comes from a source. |
| Aggregate.RestaurantSourcePriority | src/services/LocationService.js:469-476 | On a key clash Foursquare beats both other sources and OpenTripMap beats Overpass. |
| Aggregate.GetLocalServices | src/services/LocationService.js:672-700 | The result is the first occurrences of OpenTripMap then Overpass results; every item has a non-blank name and comes from a source. |
| Aggregate.ServiceSourcePriority | src/services/LocationService.js:686-692 | On a key clash the OpenTripMap service is kept. |
| Aggregate.ClashGoesToEarlier | src/services/LocationService.js:469-476 | Any kept item whose key was offered by the earlier source is that source's item. |
| Aggregate.DedupFromSources | src/services/LocationService.js:469-476 | Every item of a union comes from one of its parts. |
| Aggregate.UnionKeepsEveryKey | src/services/LocationService.js:469-476 | Every accepted key offered by a source is represented in the union. |
| Aggregate.GetAccommodation | src/services/LocationService.js:852-873 | A rejected OpenTripMap query gives []; a fulfilled one gives the first occurrences of its list, so every item is named, not "Hotel", and comes from OpenTripMap. |
| Aggregate.GeoapifyResults | src/services/LocationService.js:1088-1103 | A Geoapify feature is kept iff its name is present and not the placeholder "Accommodation"; a single feature gives itself when kept and nothing otherwise. |
| Aggregate.GeoapifyResultsAppend | src/services/LocationService.js:1088-1103 | The result for `a + b` is the result for `a` followed by the result for `b`: the kept features in input order, repeats included. |
| Aggregate.GetAccommodationFromGeoapify | src/services/LocationService.js:1075-1121 | The method reassigning `results` stage by stage computes the fallback chain. |
| Aggregate.FallbackStages | src/services/LocationService.js:1075-1121 | Case by case: a Geoapify throw gives OpenTripMap's list; else a non-empty Geoapify list is the answer; else a non-empty Overpass list; else OpenTripMap's. The result is empty iff every stage it reached gave nothing. |
| Aggregate.ThrowSkipsOverpass | src/services/LocationService.js:1117-1119 | After a Geoapify throw the Overpass outcome makes no difference. |
| Aggregate.NoKeyIgnoresGeoapify | src/services/LocationService.js:1080 | Without an API key the Geoapify outcome is never looked at. |
| Aggregate.GeoapifyAnswerFiltered | src/services/LocationService.js:1088-1116 | A Geoapify answer with a surviving item is returned filtered, and nothing else is asked. |
| Aggregate.HistoryOrTemplate | src/services/LocationService.js:1056 | The history is never empty: the generated text, or the location name followed by the fixed template. |
| Aggregate.GetComprehensiveLocationData | src/services/LocationService.js:1022-1057 | For each of the eight sections: a fulfilled provider's value is shown as it is, and a rejected one gives [] (or null for Wikipedia and air quality); the history is the generated text or the template, never empty. |
| Aggregate.FailureIsIsolated | src/services/LocationService.js:1047-1057 | For each of the eight providers, its failing resets its own section to [] or null and leaves every other section as it was. |
| Common.OrEmpty | src/services/LocationService.js:471-473 | A rejected source contributes []. |
| Common.OrNull | src/services/LocationService.js:1054-1055 | A rejected optional provider gives null. |
| ServiceCache.CacheKey | src/services/LocationService.js:1290 | A storage key is `cache_` followed by the key itself. |
| ServiceCache.CacheKeyInjective | src/services/LocationService.js:1290 | Distinct keys use distinct storage keys. |
| ServiceCache.CachedData | src/services/LocationService.js:1288-1302 | A read finds the data iff the entry exists and is younger than 30 minutes (strict `<`). |
| ServiceCache.LocationCache.GetCachedData | src/services/LocationService.js:1288-1302 | A storage error gives null; otherwise the read is `CachedData` of the current store. |
| ServiceCache.LocationCache.SetCachedData | src/services/LocationService.js:1304-1313 | The store gains the entry stamped with `now`, or is unchanged when the write throws. |
| ServiceCache.LocationCache.ClearCache | src/services/LocationService.js:1315-1323 | Every `cache_` key is removed and every other key kept, or nothing changes when storage throws. |
| ServiceCache.WithCached | src/services/LocationService.js:1306-1309 | A write adds or replaces one key and leaves every other key as it was. |
| ServiceCache.WithoutCached | src/services/LocationService.js:1317-1319 | Clearing keeps exactly the keys without the `cache_` prefix, with their values. |
| ServiceCache.ReadAfterWrite | src/services/LocationService.js:1288-1313 | Reading a key just written gives the data while it is fresh. |
| ServiceCache.ExpiresAtDuration | src/services/LocationService.js:1293 | Data is found 30 minutes minus 1 ms after the write and gone at exactly 30 minutes. |
| ServiceCache.WriteIsolated | src/services/LocationService.js:1304-1313 | Writing one key never changes what another key reads. |
| ServiceCache.ClearMissesEverything | src/services/LocationService.js:1315-1323 | After a clear every read misses and every foreign key survives. |
| ServiceCache.ClearIdempotent | src/services/LocationService.js:1315-1323 | Clearing twice equals clearing once. |
| Performance.Lookup | src/utils/performance.js:98-108 | `get` yields a value iff the key is present, not older than `maxAge` (strict `>` expires), and not null. |
| Performance.AfterLookup | src/utils/performance.js:102-105 | `get` deletes the looked-up key iff it has expired, and nothing else. |
| Performance.CacheManager.constructor | src/utils/performance.js:86-89 | A new cache is empty and keeps the given maximum age (5 minutes by default). |
| Performance.CacheManager.Set | src/utils/performance.js:91-96 | `set` stores the value stamped with `now`, replacing any entry. |
| Performance.CacheManager.Get | src/utils/performance.js:98-108 | `get` returns `Lookup` of the old cache and leaves `AfterLookup` of it. |
| Performance.CacheManager.Clear | src/utils/performance.js:110-112 | `clear` empties the cache. |
| Performance.CacheManager.Has | src/utils/performance.js:114-116 | `has` is true iff `get` would return a non-null value, with the same eviction. |
| Performance.SetThenLookup | src/utils/performance.js:91-108 | A value set is found up to `maxAge` inclusive and not after; other keys are unaffected. |
| Performance.StoredNullIsAbsent | src/utils/performance.js:114-116 | A stored null is indistinguishable from a missing key. |
| Performance.LookupStable | src/utils/performance.js:98-108 | The eviction done by `get` does not change any later answer at the same time. |
| Performance.All | src/utils/performance.js:78 | `Promise.all` succeeds iff every promise fulfilled, with their values in order. |
| Performance.AllAppend | src/utils/performance.js:79 | Results of consecutive successful batches concatenate to the result of the whole. |
| Performance.ChunksShape | src/utils/performance.js:76-77 | Batches concatenate back to the requests; each batch has 1..`maxConcurrent` items, all but the last exactly `maxConcurrent`; their number is the ceiling. |
| Performance.BatchRequests | src/utils/performance.js:74-82 | The batch loop gives exactly `Promise.all` of the whole list; on success it awaited every chunk, on failure a prefix of them. |
| Performance.EffectiveTimeout | src/utils/performance.js:44 | The timeout is the given one unless it is missing or 0, and then exactly 8000 ms; it is never 0. |
| Performance.FetchWithTimeout | src/utils/performance.js:43-71 | The retry loop computes `FetchFrom`; the k-th back-off waits 2^(k+1) seconds; a returned response is the last attempt's; a throw comes from attempt `retries`; no attempt means undefined. |
| Performance.FetchReturns | src/utils/performance.js:46-66 | A response is returned iff it is the first successful one, or the answer of the last attempt when none before succeeded. |
| Performance.FetchThrows | src/utils/performance.js:58-66 | The call throws iff no earlier attempt succeeded and the last attempt threw. |
| Performance.FetchDefined | src/utils/performance.js:46 | The call resolves to undefined iff no attempt is allowed (`retries < 1`). |
| Performance.OptimizeListItem | src/utils/performance.js:8-11 | An item is rendered iff the range is a window and the index lies in it, both ends inclusive. |
| Performance.DefaultRangeShowsNothing | src/utils/performance.js:8-11 | With the default range (the number 5) no item is rendered. |
| Home.FirstPieceLength | src/screens/HomeScreen.js:70 | The first piece of `split(/[.!?]+/)` is the longest prefix without a terminator. |
| Home.GetFirstSentence | src/screens/HomeScreen.js:67-72 | The result is empty iff the text is empty or starts with a terminator; otherwise it is the text up to the first terminator, followed by ".". |
| Home.FirstSentenceIdempotent | src/screens/HomeScreen.js:67-72 | The first sentence of a first sentence is itself. |
| Home.ParseDataType | src/screens/HomeScreen.js:92-116 | Any string other than the six section names selects the default branch. |
| Home.ItemTitle | src/screens/HomeScreen.js:142 | The row title is the name, else the title, else "Unknown", and never empty. |
| Home.GetItemSubtitle | src/screens/HomeScreen.js:184-200 | Every section's subtitle is non-empty; an unknown section gives the description; news gives the source or "News source". |
| Home.HolySubtitleFallback | src/screens/HomeScreen.js:193 | The holy subtitle falls back from religion to type to "Place of worship" exactly as those fields are missing. |
| Home.AccommodationSubtitleParts | src/screens/HomeScreen.js:195 | The accommodation subtitle is the formatted type or "Hotel", a bullet, and the price range or "Standard rates". |
| Home.PlaceSubtitleDistance | src/screens/HomeScreen.js:191 | A non-zero distance is shown rounded half up, followed by "m away". |
| Home.HandleSectionPress | src/screens/HomeScreen.js:90-117 | Nothing happens without a location; otherwise each section opens its own screen and unknown sections open LocationDetail. |
| Home.RoutesDistinct | src/screens/HomeScreen.js:92-116 | Distinct sections open distinct screens. |
| Home.RenderContentSection | src/screens/HomeScreen.js:86-169 | A spinner until real data exists; then the first three rows, or all of them when there are fewer, with "View all N" iff there are more than three; "no data" iff the list is missing or empty. |
| ServicesScreen.IconIgnoresCase | src/screens/ServicesDetailScreen.js:33-62 | Icon and colour depend only on the lower-cased type. |
| ServicesScreen.MedicalWins | src/screens/ServicesDetailScreen.js:33-62 | "hospital" or "medical" decides both icon and colour, whatever else the type says. |
| ServicesScreen.TrainIcon | src/screens/ServicesDetailScreen.js:33-45 | The train icon is shown iff "transport" or "station" is the earliest matching rule. |
| ServicesScreen.StationBeatsGas | src/screens/ServicesDetailScreen.js:40-41 | A type with both "station" and "gas" shows a train, never a car, when no earlier rule matched. |
| ServicesScreen.PharmacyIcon | src/screens/ServicesDetailScreen.js:33-62 | A pharmacy not caught earlier shows the medical icon but the default colour. |
| ServicesScreen.UnmatchedIsBusiness | src/screens/ServicesDetailScreen.js:33-62 | No match gives the business icon and the default colour. |
| ServicesScreen.FormatServiceType | src/screens/ServicesDetailScreen.js:47-52 | "Service" for a missing type; otherwise a label with at most one comma. |
| ServicesScreen.ServiceTypesCount | src/screens/ServicesDetailScreen.js:124 | The count is the size of the set of trimmed first type segments over all services (a missing type counting as one value); it is at most the number of services, and at least 1 when there is one. |
| ServicesScreen.SameFirstSegment | src/screens/ServicesDetailScreen.js:124 | Types that agree before the first comma count as one kind. |
| ServicesScreen.NearbyCount | src/screens/ServicesDetailScreen.js:131 | The "Within 1km" count is at most the number of services. |
| ServicesScreen.NearbyCountPositive | src/screens/ServicesDetailScreen.js:131 | The count is positive iff some service has a non-zero distance of at most 1000 m. |
| HolyPlacesScreen.ReligionIconIsEarliestRule | src/screens/HolyPlacesDetailScreen.js:28-37 | A religion shows a rule's icon iff that rule is the earliest to match its lower-cased text. |
| HolyPlacesScreen.FlowerIsDefault | src/screens/HolyPlacesDetailScreen.js:28-37 | The flower is shown iff the religion is missing or no rule matches. |
| HolyPlacesScreen.FormatReligion | src/screens/HolyPlacesDetailScreen.js:39-42 | "Place of Worship" for a missing religion; otherwise only the first character is upper-cased. |
| HolyPlacesScreen.FormatReligionIdempotent | src/screens/HolyPlacesDetailScreen.js:39-42 | Formatting a religion twice changes nothing more. |
| HolyPlacesScreen.FormatTypeShape | src/screens/HolyPlacesDetailScreen.js:44-47 | `formatType` keeps the length, removes every underscore and is empty only for an empty type. |
| HolyPlacesScreen.FaithsCount | src/screens/HolyPlacesDetailScreen.js:113 | "Different Faiths" counts places with a religion, at most all of them. |
| HolyPlacesScreen.FaithsCountPositive | src/screens/HolyPlacesDetailScreen.js:113 | The count is positive iff some place names a religion. |
| HolyPlacesScreen.FaithsCountRepeats | src/screens/HolyPlacesDetailScreen.js:113 | Two places of the same faith count twice: the figure is not a number of distinct faiths. |
| HolyPlacesScreen.PlaceTypesCount | src/screens/HolyPlacesDetailScreen.js:120 | "Place Types" counts places with a type, at most all of them. |
| PlacesScreen.GetPlaceTypeIcon | src/screens/PlacesDetailScreen.js:33-42 | The location icon is shown iff the type is missing. |
| PlacesScreen.UnmatchedIsCamera | src/screens/PlacesDetailScreen.js:41 | A present type that matches no rule shows the camera. |
| PlacesScreen.MuseumWins | src/screens/PlacesDetailScreen.js:35 | A type containing "museum" shows the library icon whatever else it contains. |
| PlacesScreen.CapitalisedMuseumIsCamera | src/screens/PlacesDetailScreen.js:33-42 | Matching is case-sensitive: "Museum" matches no rule and shows the camera. |
| PlacesScreen.FormatPlaceType | src/screens/PlacesDetailScreen.js:43-48 | "Attraction" for a missing type; otherwise a label with at most one comma. |
| PlacesScreen.TopRatedCount | src/screens/PlacesDetailScreen.js:115 | "Top Rated" is at most the number of places. |
| PlacesScreen.TopRatedCountPositive | src/screens/PlacesDetailScreen.js:115 | The count is positive iff some place has a non-zero rating of at least 4. |
| PlacesScreen.MuseumCount | src/screens/PlacesDetailScreen.js:122 | "Museums" is at most the number of places. |
| PlacesScreen.MuseumCountIgnoresCase | src/screens/PlacesDetailScreen.js:33-122 | A place typed "Museum" is counted as a museum but shows the camera icon. |
| RestaurantsScreen.StarString | src/screens/RestaurantsDetailScreen.js:35 | `repeat` throws iff the star count is outside 0..5; otherwise five characters, full exactly before the count. |
| RestaurantsScreen.GetRatingStars | src/screens/RestaurantsDetailScreen.js:32-36 | A missing or zero rating shows five empty stars; otherwise the stars of the rating rounded half up. |
| RestaurantsScreen.RatingStarsFailure | src/screens/RestaurantsDetailScreen.js:32-36 | The call throws iff the rating is non-zero and below -0.5 or at least 5.5; otherwise it returns five stars. |
| RestaurantsScreen.FullStarsAreRounded | src/screens/RestaurantsDetailScreen.js:34-35 | The number of full stars is the rounded rating. |
| RestaurantsScreen.FullStarsMonotone | src/screens/RestaurantsDetailScreen.js:34-35 | A higher rating never shows fewer full stars. |
| RestaurantsScreen.TenPointRatingThrows | src/screens/RestaurantsDetailScreen.js:32-35 | A ten-point rating of 8.5 makes the star string throw. |
| RestaurantsScreen.ClampedRatingStars | src/screens/RestaurantsDetailScreen.js:32-35 | Always five stars; equal to `getRatingStars` wherever that returns; five full stars from 5.5 up and five empty ones below -0.5. |
| RestaurantsScreen.StarStringFullStars | src/screens/RestaurantsDetailScreen.js:35 | A count in 0..5 gives a star string with exactly that many full stars. |
| RestaurantsScreen.ClampedFullStarsMonotone | src/screens/RestaurantsDetailScreen.js:34-35 | With the clamp, a higher non-zero rating never shows fewer full stars, for every rating. |
| RestaurantsScreen.HighlyRatedCount | src/screens/RestaurantsDetailScreen.js:103 | "Highly Rated" is at most the number of restaurants. |
| RestaurantsScreen.HighlyRatedCountPositive | src/screens/RestaurantsDetailScreen.js:103 | The count is positive iff some restaurant has a non-zero rating of at least 4. |
| RestaurantsScreen.FineDiningCount | src/screens/RestaurantsDetailScreen.js:110 | "Fine Dining" is at most the number of restaurants. |
| RestaurantsScreen.FineDiningCountPositive | src/screens/RestaurantsDetailScreen.js:110 | The count is positive iff some restaurant has a category containing "fine", in any case. |
| Text.FirstMatchUniqueLabel | src/screens/ServicesDetailScreen.js:33-45 | An if-chain of keyword tests returns a rule's value iff that rule is the earliest match, when values are unique. |
| Text.FormatWordsShape | src/screens/HomeScreen.js:170-175 | `formatText` keeps the length, leaves no underscore and upper-cases each word start. |
| Text.FormatWordsIdempotent | src/screens/HomeScreen.js:170-175 | Formatting twice equals formatting once. |
| Text.TypeListParts | src/screens/HomeScreen.js:177-182 | A type list shows its first part, then ", " and the second part when there is one, each trimmed and title-cased. |
| Text.TypeListAtMostOneComma | src/screens/HomeScreen.js:177-182 | A formatted type list contains at most one comma. |
| Text.SplitJoin | src/screens/HomeScreen.js:177-182 | Splitting on a separator and joining back with it restores the string. |
| Text.Round | src/screens/HomeScreen.js:191 | `Math.round` lies within half a unit of its argument. |
| Text.CountPositive | src/screens/PlacesDetailScreen.js:115 | A filter count is positive iff some element passes. |

## Findings

| source | as written | input that shows it | evidently intended | confidence | as-written member | corrected member |
|---|---|---|---|---|---|---|
| src/screens/RestaurantsDetailScreen.js:32-35 | The star string repeats the full star `Math.round(rating)` times and the empty star 5 minus that; `repeat` throws a RangeError for a negative count, so any rating of 5.5 or more throws. Foursquare ratings (src/services/LocationService.js:561) are passed on unchanged and are on a ten-point scale, which src/screens/PlacesDetailScreen.js:76 displays as "/10". | a restaurant rated 8.5: the empty star is repeated -4 times and the screen throws while rendering the list | five stars whatever the rating, full stars held to 0..5 | medium, not executed | RestaurantsScreen.TenPointRatingThrows | RestaurantsScreen.ClampedRatingStars |

## Left out

- Provider adapters. The HTTP requests, JSON decoding and field
  mapping of OpenTripMap, Overpass, Foursquare, Geoapify, GNews,
  Wikipedia, Gemini and the air-quality API are not modelled. Their
  outcomes are inputs (`Settled` lists, `GeoapifyResponse`), because they
  are network I/O.
- Device location, permissions, reverse geocoding, search and the default
  location are left out. They are device and network I/O.
  `formatAddress` is modelled on the fields it reads.
- `calculateDistance` and the distances and ratings providers report
  are left out. They are floating-point haversine arithmetic; distances
  and ratings are `real` inputs.
- Dedupe.KeyOf: the rounded coordinates `Math.round(x * 1000)` are
  given integers. Missing coordinates, which give `NaN` in the source's
  key string, are not modelled.
- Case mapping is ASCII only (`Text.Lower`, `Text.UpperChar`).
  JavaScript's `toLowerCase`/`toUpperCase` map all of Unicode, and `\b\w`
  word starts are taken over ASCII word characters.
- Timers and the abort controller. `fetchWithTimeout`'s per-attempt
  abort and back-off sleeps are an outcome function and a list of delays.
  `debounce`, `throttle`, `withLoadingState`, `measurePerformance`,
  `memoComponent` and `getOptimizedImageUrl` are not part of this model;
  they are timers and React glue.
- Performance.BatchRequests: the model awaits the batches in order but
  not the concurrency. The requests are promises created before the call,
  so `maxConcurrent` does not bound how many run at once. The model
  requires `maxConcurrent >= 1`: with 0 or a negative value the source's
  loop (`i += maxConcurrent`, src/utils/performance.js:76) never ends on a
  non-empty list. The default `maxConcurrent = 3` (line 74) is not
  modelled; the model always takes `maxConcurrent` as an argument.
- Performance.FetchWithTimeout: the default `retries = 2`
  (src/utils/performance.js:43) is not modelled; the model always takes
  `retries` as an argument.
- Classify.GetAqiLevel: readings are integers. A fractional number is not
  modelled; a value that converts to `NaN` is, through
  `Classify.AqiLevelOf`.
- Classify.GetServiceNameFromType: the table is a map of its eleven
  entries. In the source it is a plain object, so a type such as
  "constructor" or "toString" finds an `Object.prototype` member and
  returns that function instead of the type; such keys are not modelled.
  A missing type is "" and is returned as it is.
- Performance.CacheManager: keys are strings, and a stored value is
  `Option` (`None` for `null`). A stored `undefined`, which `has` reports
  as present, is not modelled.
- ServiceCache.LocationCache.GetCachedData: the cached data is returned as
  stored. A stored `null` payload and a corrupt JSON string (a parse
  error, which the source reports as null) collapse into `readFails`.
- ServiceCache.LocationCache.ClearCache: `multiRemove` is treated as all
  or nothing; a partial removal is not modelled.
- Aggregate.GetComprehensiveLocationData: its `catch` is not modelled,
  because every awaited call is inside `Promise.allSettled` and so
  cannot throw. That branch would return every section empty and
  `generatedHistory` "".
- Aggregate.GetComprehensiveLocationData: the Gemini prompt and text are
  an input, `generated`.
- `formatDistance` and the other `toFixed`/template renderings on the
  detail screens are left out: they are decimal display of floating-point
  numbers.
- React rendering, styles, theming, navigation parameters and the
  accommodation, news and history screens are not part of this model.
