/** The services detail screen: the icon and colour chosen from a service's
    type, and the three numbers of its statistics bar. */
module ServicesScreen {
  import opened Common
  import opened Text
  import opened Dedupe
  import opened Records

  datatype ServiceIcon = Medical | Card | Bed | Storefront | Train | Car | Mail | Business {
    function Name(): string {
      match this
      case Medical => "medical"
      case Card => "card"
      case Bed => "bed"
      case Storefront => "storefront"
      case Train => "train"
      case Car => "car"
      case Mail => "mail"
      case Business => "business"
    }
  }

  /** The `if` chain of `getServiceIcon`, in source order; "pharmacy" comes
      after "hospital"/"medical" and gives the same icon. */
  const IconRules: seq<Rule<ServiceIcon>> := [
    Rule(["hospital", "medical"], Medical),
    Rule(["bank", "atm"], Card),
    Rule(["hotel", "accommodation"], Bed),
    Rule(["shop", "store"], Storefront),
    Rule(["transport", "station"], Train),
    Rule(["fuel", "gas"], Car),
    Rule(["pharmacy"], Medical),
    Rule(["post"], Mail)
  ]

  /** `getServiceIcon(type)`; a missing type is "". */
  function GetServiceIcon(serviceType: string): ServiceIcon {
    if serviceType == "" then Business else FirstMatch(IconRules, Lower(serviceType), Business)
  }

  /** `formatServiceType(type)`: "Service" for a missing type, otherwise the
      first two comma-separated parts, title-cased; never more than one comma.
      The places screen has the same helper with "Attraction" as its default
      (`PlacesScreen.FormatPlaceType`); both share `Text.FormatTypeList`. */
  function FormatServiceType(serviceType: string): (r: string)
    ensures serviceType == "" ==> r == "Service"
    ensures CountChar(r, ',') <= 1
  {
    CountCharAbsent("Service", ',');
    TypeListAtMostOneComma(serviceType, "Service");
    FormatTypeList(serviceType, "Service")
  }

  datatype ServiceColor = HospitalRed | BankOrange | HotelPurple | ShopGreen | DefaultBlue {
    function Hex(): string {
      match this
      case HospitalRed => "#e74c3c"
      case BankOrange => "#f39c12"
      case HotelPurple => "#9b59b6"
      case ShopGreen => "#2ecc71"
      case DefaultBlue => "#45B7D1"
    }
  }

  const ColorRules: seq<Rule<ServiceColor>> := [
    Rule(["hospital", "medical"], HospitalRed),
    Rule(["bank"], BankOrange),
    Rule(["hotel"], HotelPurple),
    Rule(["shop"], ShopGreen)
  ]

  /** `getServiceColor(type)` */
  function GetServiceColor(serviceType: string): ServiceColor {
    if serviceType == "" then DefaultBlue else FirstMatch(ColorRules, Lower(serviceType), DefaultBlue)
  }

  /** Matching ignores ASCII case: icon and colour depend on the lower-cased type only. */
  lemma IconIgnoresCase(a: string, b: string)
    requires Lower(a) == Lower(b)
    ensures GetServiceIcon(a) == GetServiceIcon(b) && GetServiceColor(a) == GetServiceColor(b)
  {
    assert |a| == |b|;
  }

  /** "hospital" or "medical" anywhere decides both the icon and the colour,
      whatever else the type mentions. */
  lemma MedicalWins(serviceType: string)
    requires MatchesAny(Lower(serviceType), ["hospital", "medical"])
    ensures GetServiceIcon(serviceType) == Medical && GetServiceColor(serviceType) == HospitalRed
  {
    FirstMatchAt(IconRules, Lower(serviceType), Business, 0);
    FirstMatchAt(ColorRules, Lower(serviceType), DefaultBlue, 0);
  }

  /** The train icon is given exactly when "transport" or "station" is the
      earliest match; in particular a "station" type is never a car, even
      when it also says "gas" or "fuel". */
  lemma TrainIcon(serviceType: string)
    requires serviceType != ""
    ensures var t := Lower(serviceType);
      GetServiceIcon(serviceType) == Train
      <==> MatchesAny(t, ["transport", "station"]) && forall j :: 0 <= j < 4 ==> !MatchesAny(t, IconRules[j].keywords)
  {
    FirstMatchUniqueLabel(IconRules, Lower(serviceType), Business, 4);
  }

  /** "station" is checked before "gas": a type mentioning both, such as
      "gas station", shows a train and never a car once the first four
      rules have not matched. */
  lemma StationBeatsGas(serviceType: string)
    requires var t := Lower(serviceType);
      Contains(t, "station") && Contains(t, "gas") && forall j :: 0 <= j < 4 ==> !MatchesAny(t, IconRules[j].keywords)
    ensures GetServiceIcon(serviceType) == Train
  {
    var t := Lower(serviceType);
    assert MatchesAny(t, IconRules[4].keywords);
    FirstMatchAt(IconRules, t, Business, 4);
  }

  /** A pharmacy shows the medical icon only when no rule before it matched,
      and then keeps the default colour: the colour table has no pharmacy rule. */
  lemma PharmacyIcon(serviceType: string)
    requires serviceType != ""
    requires var t := Lower(serviceType);
      Contains(t, "pharmacy") && forall j :: 0 <= j < 6 ==> !MatchesAny(t, IconRules[j].keywords)
    ensures GetServiceIcon(serviceType) == Medical && GetServiceColor(serviceType) == DefaultBlue
  {
    var t := Lower(serviceType);
    assert MatchesAny(t, IconRules[6].keywords);
    FirstMatchAt(IconRules, t, Business, 6);
    assert !MatchesAny(t, IconRules[1].keywords) && !MatchesAny(t, IconRules[2].keywords) && !MatchesAny(t, IconRules[3].keywords);
    NoMatchGivesDefault(ColorRules, t, DefaultBlue);
  }

  /** Nothing matched, or no type at all, gives the business icon and the default colour. */
  lemma UnmatchedIsBusiness(serviceType: string)
    requires forall j :: 0 <= j < |IconRules| ==> !MatchesAny(Lower(serviceType), IconRules[j].keywords)
    ensures GetServiceIcon(serviceType) == Business && GetServiceColor(serviceType) == DefaultBlue
  {
    var t := Lower(serviceType);
    NoMatchGivesDefault(IconRules, t, Business);
    assert !MatchesAny(t, IconRules[0].keywords) && !MatchesAny(t, IconRules[1].keywords)
        && !MatchesAny(t, IconRules[2].keywords) && !MatchesAny(t, IconRules[3].keywords);
    NoMatchGivesDefault(ColorRules, t, DefaultBlue);
  }

  // ---------------------------------------------------------------------
  // Statistics

  /** `s.type?.split(',')[0]?.trim()`: `None` for a service without a type. */
  function FirstTypeSegment(serviceType: Option<string>): Option<string> {
    match serviceType
    case Some(t) => Some(Trim(Split(t, ',')[0]))
    case None => None
  }

  /** "Service Types": the number of distinct first segments. */
  function ServiceTypesCount(services: seq<Service>): (n: nat)
    ensures n == |set i | 0 <= i < |services| :: FirstTypeSegment(services[i].details.serviceType)|
    ensures n <= |services|
    ensures |services| > 0 ==> n >= 1
  {
    var f := (s: Service) => FirstTypeSegment(s.details.serviceType);
    var kinds := DistinctImage(services, f);
    var segments := set i | 0 <= i < |services| :: FirstTypeSegment(services[i].details.serviceType);
    assert kinds == segments by {
      forall k | k in kinds ensures k in segments {
        var i :| 0 <= i < |services| && f(services[i]) == k;
      }
      forall k | k in segments ensures k in kinds {
        var i :| 0 <= i < |services| && FirstTypeSegment(services[i].details.serviceType) == k;
        assert f(services[i]) in kinds;
      }
    }
    assert |services| > 0 ==> FirstTypeSegment(services[0].details.serviceType) in kinds;
    |kinds|
  }

  /** `s.distance && s.distance <= 1000` */
  predicate WithinOneKm(s: Service) {
    s.details.distance.Some? && s.details.distance.value != 0.0 && s.details.distance.value <= 1000.0
  }

  /** "Within 1km" */
  function NearbyCount(services: seq<Service>): (n: nat)
    ensures n <= |services|
  {
    Count(services, WithinOneKm)
  }

  /** The nearby count is positive exactly when some service has a non-zero
      distance of at most a kilometre. */
  lemma NearbyCountPositive(services: seq<Service>)
    ensures NearbyCount(services) > 0 <==> exists i :: 0 <= i < |services| && WithinOneKm(services[i])
  {
    CountPositive(services, WithinOneKm);
  }

  /** Two services whose types agree before the first comma count as one type. */
  lemma SameFirstSegment(t1: string, rest: string)
    requires ',' !in t1
    ensures FirstTypeSegment(Some(t1 + "," + rest)) == FirstTypeSegment(Some(t1))
  {
    SplitPrefix(t1, rest);
    SplitWithoutSeparator(t1, ',');
  }

  lemma {:induction false} SplitPrefix(a: string, rest: string)
    requires ',' !in a
    ensures Split(a + "," + rest, ',')[0] == a
    decreases |a|
  {
    if |a| == 0 {
      assert a + "," + rest == [','] + rest;
    } else {
      assert (a + "," + rest)[1..] == a[1..] + "," + rest;
      SplitPrefix(a[1..], rest);
      assert a == [a[0]] + a[1..];
    }
  }
}
