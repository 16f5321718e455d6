/** The display helpers of the home screen: the first sentence of a
    description, the subtitle and title of a preview row, the route a
    section opens, and how many rows a section previews. */
module Home {
  import opened Common
  import opened Text

  // ---------------------------------------------------------------------
  // getFirstSentence

  /** A character of the class `[.!?]`. */
  predicate IsTerminator(c: char) {
    c == '.' || c == '!' || c == '?'
  }

  /** The length of `text.split(/[.!?]+/)[0]`: the longest prefix without a terminator. */
  function FirstPieceLength(s: string): (n: nat)
    ensures n <= |s|
    ensures forall i :: 0 <= i < n ==> !IsTerminator(s[i])
    ensures n < |s| ==> IsTerminator(s[n])
    decreases |s|
  {
    if |s| == 0 || IsTerminator(s[0]) then 0 else 1 + FirstPieceLength(s[1..])
  }

  /** `getFirstSentence(text)`; a missing text is "". */
  function GetFirstSentence(text: string): (r: string)
    ensures r == "" <==> text == "" || IsTerminator(text[0])
    ensures r != "" ==> var n := |r| - 1;
      r[n] == '.' && n <= |text| && r[..n] == text[..n]
      && (forall i :: 0 <= i < n ==> !IsTerminator(text[i]))
      && (n == |text| || IsTerminator(text[n]))
  {
    if text == "" then ""
    else
      var first := text[..FirstPieceLength(text)];
      first + (if first != "" then "." else "")
  }

  lemma {:induction false} FirstPieceOfSentence(p: string)
    requires forall i :: 0 <= i < |p| ==> !IsTerminator(p[i])
    ensures FirstPieceLength(p + ".") == |p|
    decreases |p|
  {
    if |p| > 0 {
      assert (p + ".")[1..] == p[1..] + ".";
      FirstPieceOfSentence(p[1..]);
    }
  }

  /** The first sentence of a first sentence is itself. */
  lemma FirstSentenceIdempotent(text: string)
    ensures GetFirstSentence(GetFirstSentence(text)) == GetFirstSentence(text)
  {
    var r := GetFirstSentence(text);
    if r != "" {
      var p := r[..|r| - 1];
      assert r == p + ".";
      FirstPieceOfSentence(p);
      assert r[..|p|] == p;
    }
  }

  // ---------------------------------------------------------------------
  // Preview rows

  /** The `dataType` argument of `renderContentSection`. */
  datatype DataType = News | Restaurants | Places | Holy | Accommodation | Services | Other

  function ParseDataType(s: string): (d: DataType)
    ensures d == Other <==> s !in {"news", "restaurants", "places", "holy", "accommodation", "services"}
  {
    if s == "news" then News
    else if s == "restaurants" then Restaurants
    else if s == "places" then Places
    else if s == "holy" then Holy
    else if s == "accommodation" then Accommodation
    else if s == "services" then Services
    else Other
  }

  /** The fields `getItemSubtitle` and the row title read off an item of
      any section; a field the item lacks is "" or `None`. */
  datatype ListItem = ListItem(
    name: string,
    title: string,
    source: string,
    categories: Option<seq<string>>,
    address: string,
    distance: Option<real>,
    religion: string,
    itemType: string,
    priceRange: string,
    description: string)

  /** `item.name || item.title || 'Unknown'` */
  function ItemTitle(item: ListItem): (t: string)
    ensures t != ""
    ensures item.name != "" ==> t == item.name
    ensures item.name == "" ==> t == if item.title != "" then item.title else "Unknown"
  {
    if item.name != "" then item.name else if item.title != "" then item.title else "Unknown"
  }

  /** `item.categories?.join(', ')`, "" when there are none. */
  function JoinedCategories(categories: Option<seq<string>>): string {
    match categories
    case Some(cs) => Join(cs, ", ")
    case None => ""
  }

  function HolySubtitle(item: ListItem): string {
    if FormatWords(item.religion) != "" then FormatWords(item.religion)
    else if FormatWords(item.itemType) != "" then FormatWords(item.itemType)
    else "Place of worship"
  }

  function AccommodationSubtitle(item: ListItem): string {
    var kind := if FormatWords(item.itemType) != "" then FormatWords(item.itemType) else "Hotel";
    var price := if item.priceRange != "" then item.priceRange else "Standard rates";
    kind + " • " + price
  }

  /** `getItemSubtitle(item, dataType)` */
  function GetItemSubtitle(item: ListItem, dataType: DataType): (r: string)
    ensures dataType != Other ==> r != ""
    ensures dataType == Other ==> r == item.description
    ensures dataType == News ==> r == if item.source != "" then item.source else "News source"
  {
    match dataType
    case News => if item.source != "" then item.source else "News source"
    case Restaurants =>
      var joined := JoinedCategories(item.categories);
      if joined != "" then joined else if item.address != "" then item.address else "Restaurant"
    case Places =>
      if item.distance.Some? && item.distance.value != 0.0 then IntToString(Round(item.distance.value)) + "m away"
      else "Tourist spot"
    case Holy => HolySubtitle(item)
    case Accommodation => AccommodationSubtitle(item)
    case Services =>
      var t := FormatTypeList(item.itemType, "Service");
      if t != "" then t else "Service"
    case Other => item.description
  }

  /** `formatText` returns "" only for "", so the holy-place subtitle falls
      back from the religion to the type to "Place of worship" exactly
      when those fields are missing. */
  lemma HolySubtitleFallback(item: ListItem)
    ensures GetItemSubtitle(item, Holy) ==
      if item.religion != "" then FormatWords(item.religion)
      else if item.itemType != "" then FormatWords(item.itemType)
      else "Place of worship"
  {
    FormatWordsShape(item.religion);
    FormatWordsShape(item.itemType);
  }

  /** The accommodation subtitle is the formatted type (or "Hotel"), a
      bullet, and the price range (or "Standard rates"). */
  lemma AccommodationSubtitleParts(item: ListItem)
    ensures GetItemSubtitle(item, Accommodation) ==
      (if item.itemType != "" then FormatWords(item.itemType) else "Hotel")
      + " • " + (if item.priceRange != "" then item.priceRange else "Standard rates")
  {
    FormatWordsShape(item.itemType);
  }

  /** A place row with a non-zero distance shows it rounded, in metres. */
  lemma PlaceSubtitleDistance(item: ListItem)
    requires item.distance.Some? && item.distance.value != 0.0
    ensures var r := GetItemSubtitle(item, Places);
      var n := Round(item.distance.value);
      StartsWith(r, IntToString(n)) && r[|IntToString(n)|..] == "m away"
      && item.distance.value - 0.5 < n as real <= item.distance.value + 0.5
  {
    var r := GetItemSubtitle(item, Places);
    var d := IntToString(Round(item.distance.value));
    assert r == d + "m away";
    assert r[..|d|] == d;
  }

  // ---------------------------------------------------------------------
  // handleSectionPress

  datatype Route =
    NewsDetail | RestaurantsDetail | PlacesDetail | HolyPlacesDetail
    | AccommodationDetail | ServicesDetail | LocationDetail

  /** The screen a section opens; nothing happens without a current location. */
  function HandleSectionPress(hasLocation: bool, dataType: DataType): (r: Option<Route>)
    ensures r.None? <==> !hasLocation
    ensures r == Some(LocationDetail) <==> hasLocation && dataType == Other
  {
    if !hasLocation then None
    else Some(match dataType
      case News => NewsDetail
      case Restaurants => RestaurantsDetail
      case Places => PlacesDetail
      case Holy => HolyPlacesDetail
      case Accommodation => AccommodationDetail
      case Services => ServicesDetail
      case Other => LocationDetail)
  }

  /** Distinct sections open distinct screens. */
  lemma RoutesDistinct(a: DataType, b: DataType)
    requires a != b
    ensures HandleSectionPress(true, a) != HandleSectionPress(true, b)
  {
  }

  // ---------------------------------------------------------------------
  // renderContentSection

  datatype Footer = ViewAll(count: nat) | ViewDetails

  /** What a section card shows: a spinner while the location has no real
      data yet, up to three rows and a footer, or the "No … available" text. */
  datatype SectionView<T> = Loading | Preview(rows: seq<T>, footer: Footer) | NoData

  function RenderContentSection<T>(hasLocation: bool, hasRealData: bool, data: Option<seq<T>>): (v: SectionView<T>)
    ensures v.Loading? <==> !(hasLocation && hasRealData)
    ensures v.Preview? ==> data.Some? && 1 <= |v.rows| <= 3 && v.rows <= data.value
    ensures v.Preview? ==> (v.footer.ViewAll? <==> |data.value| > 3)
    ensures v.Preview? && v.footer.ViewAll? ==> v.footer.count == |data.value|
    ensures v.Preview? && |data.value| <= 3 ==> v.rows == data.value
    ensures v.Preview? && |data.value| > 3 ==> v.rows == data.value[..3]
    ensures v.NoData? <==> hasLocation && hasRealData && (data.None? || data.value == [])
  {
    if !(hasLocation && hasRealData) then Loading
    else if data.Some? && |data.value| > 0 then
      var d := data.value;
      Preview(d[..if |d| < 3 then |d| else 3], if |d| > 3 then ViewAll(|d|) else ViewDetails)
    else NoData
  }
}
