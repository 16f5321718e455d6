/** The holy places detail screen: the icon chosen from a religion, the
    religion and type labels, and the statistics bar. */
module HolyPlacesScreen {
  import opened Common
  import opened Text
  import opened Dedupe
  import opened Records

  datatype ReligionIcon = Cross | Moon | Flame | Leaf | Star | Flower {
    function Name(): string {
      match this
      case Cross => "cross"
      case Moon => "moon"
      case Flame => "flame"
      case Leaf => "leaf"
      case Star => "star"
      case Flower => "flower"
    }
  }

  const ReligionRules: seq<Rule<ReligionIcon>> := [
    Rule(["christian", "catholic"], Cross),
    Rule(["islam", "muslim"], Moon),
    Rule(["hindu"], Flame),
    Rule(["buddhist"], Leaf),
    Rule(["jewish"], Star)
  ]

  /** `getReligionIcon(religion)`; a missing religion is "". */
  function GetReligionIcon(religion: string): ReligionIcon {
    if religion == "" then Flower else FirstMatch(ReligionRules, Lower(religion), Flower)
  }

  /** Each icon but the default belongs to one rule, so a religion shows
      rule `i`'s icon exactly when rule `i` is the earliest that matches
      its lower-cased text. */
  lemma ReligionIconIsEarliestRule(religion: string, i: nat)
    requires religion != "" && i < |ReligionRules|
    ensures var t := Lower(religion);
      GetReligionIcon(religion) == ReligionRules[i].gives
      <==> MatchesAny(t, ReligionRules[i].keywords) && forall j :: 0 <= j < i ==> !MatchesAny(t, ReligionRules[j].keywords)
  {
    FirstMatchUniqueLabel(ReligionRules, Lower(religion), Flower, i);
  }

  /** The flower is shown exactly for a missing religion or one no rule matches. */
  lemma FlowerIsDefault(religion: string)
    ensures GetReligionIcon(religion) == Flower
      <==> religion == "" || forall j :: 0 <= j < |ReligionRules| ==> !MatchesAny(Lower(religion), ReligionRules[j].keywords)
  {
    if religion != "" {
      FirstMatchIsEarliest(ReligionRules, Lower(religion), Flower);
    }
  }

  /** `formatReligion(religion)`: the first character upper-cased, the rest as given. */
  function FormatReligion(religion: string): (r: string)
    ensures religion == "" ==> r == "Place of Worship"
    ensures religion != "" ==> |r| == |religion| && r[0] == UpperChar(religion[0]) && r[1..] == religion[1..]
  {
    if religion == "" then "Place of Worship" else [UpperChar(religion[0])] + religion[1..]
  }

  /** Unlike the word-by-word `formatType`, only the first character can change,
      and formatting twice changes nothing more. */
  lemma FormatReligionIdempotent(religion: string)
    ensures FormatReligion(FormatReligion(religion)) == FormatReligion(religion)
  {
    if religion != "" {
      var r := FormatReligion(religion);
      assert UpperChar(r[0]) == r[0];
      assert r == [r[0]] + r[1..];
    }
  }

  /** `formatType` is the shared display rewrite: "" stays "" and the result
      has the input's length and no underscore. */
  lemma FormatTypeShape(placeType: string)
    ensures var r := FormatWords(placeType);
      |r| == |placeType| && '_' !in r && (r == "" <==> placeType == "")
  {
    FormatWordsShape(placeType);
  }

  // ---------------------------------------------------------------------
  // Statistics

  predicate HasReligion(p: HolyPlace) {
    p.details.religion != ""
  }

  predicate HasType(p: HolyPlace) {
    p.details.placeType != ""
  }

  /** "Different Faiths": the places that name a religion (not the number of
      distinct religions). */
  function FaithsCount(places: seq<HolyPlace>): (n: nat)
    ensures n <= |places|
  {
    Count(places, HasReligion)
  }

  /** "Place Types": the places that have a type. */
  function PlaceTypesCount(places: seq<HolyPlace>): (n: nat)
    ensures n <= |places|
  {
    Count(places, HasType)
  }

  lemma FaithsCountPositive(places: seq<HolyPlace>)
    ensures FaithsCount(places) > 0 <==> exists i :: 0 <= i < |places| && places[i].details.religion != ""
  {
    CountPositive(places, HasReligion);
  }

  /** Two places of the same religion are counted twice: the figure is not
      a number of distinct faiths. */
  lemma FaithsCountRepeats(p: HolyPlace)
    requires p.details.religion != ""
    ensures FaithsCount([p, p]) == 2
  {
    assert HasReligion(p);
    assert [p][..0] == [];
    assert Count([p], HasReligion) == 1;
    assert [p, p][..1] == [p];
    assert Count([p, p], HasReligion) == Count([p], HasReligion) + 1;
  }
}
