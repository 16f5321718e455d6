/** The four `deduplicate*` functions of the location service: a stable
    "first occurrence wins" filter keyed on the lower-cased name and the
    coordinates rounded to three decimals, each category with its own rule
    for placeholder names. */
module Dedupe {
  import opened Text

  /** Which `deduplicate*` function is meant; they differ only in the names they reject. */
  datatype Category = Places | Restaurants | Services | Accommodation

  /** A normalised result item. `name` is "" when the provider gave none;
      `latKey` and `lonKey` stand for `Math.round(latitude * 1000)` and
      `Math.round(longitude * 1000)`; `details` is the rest of the record. */
  datatype Item<D> = Item(name: string, latKey: int, lonKey: int, details: D)

  /** The source builds the string `${lowerName}_${latKey}_${lonKey}`; the two
      numeric fields contain no underscore, so that string determines the triple. */
  type Key = (string, int, int)

  function KeyOf<D>(x: Item<D>): Key {
    (Lower(x.name), x.latKey, x.lonKey)
  }

  /** The name test each deduper applies besides `!seen.has(key)`. */
  predicate Accepts(cat: Category, name: string) {
    match cat
    case Places => name != "" && name != "Tourist Attraction" && name != "Cultural Site"
    case Restaurants => name != ""
    case Services => name != "" && Trim(name) != ""
    case Accommodation => name != "" && name != "Hotel"
  }

  function Keys<D>(s: seq<Item<D>>): set<Key> {
    set i | 0 <= i < |s| :: KeyOf(s[i])
  }

  lemma KeysAppend<D>(s: seq<Item<D>>, x: Item<D>)
    ensures Keys(s + [x]) == Keys(s) + {KeyOf(x)}
  {
    var t := s + [x];
    assert forall i :: 0 <= i < |s| ==> t[i] == s[i];
    assert t[|s|] == x;
  }

  /** What a deduper returns, one input item at a time: an item is kept when
      its name is accepted and no kept item has its key yet. */
  function Dedup<D>(cat: Category, s: seq<Item<D>>): seq<Item<D>>
    decreases |s|
  {
    if |s| == 0 then []
    else
      var prev := Dedup(cat, s[..|s| - 1]);
      var x := s[|s| - 1];
      if Accepts(cat, x.name) && KeyOf(x) !in Keys(prev) then prev + [x] else prev
  }

  /** The loop of `deduplicatePlaces` and its three siblings: `seen` holds
      exactly the keys of the items kept so far. */
  method Deduplicate<D>(cat: Category, items: seq<Item<D>>) returns (unique: seq<Item<D>>)
    ensures unique == Dedup(cat, items)
  {
    unique := [];
    var seen: set<Key> := {};
    for i := 0 to |items|
      invariant unique == Dedup(cat, items[..i])
      invariant seen == Keys(unique)
    {
      var x := items[i];
      var key := KeyOf(x);
      assert items[..i + 1][..i] == items[..i];
      if key !in seen && Accepts(cat, x.name) {
        KeysAppend(unique, x);
        seen := seen + {key};
        unique := unique + [x];
      }
    }
    assert items[..|items|] == items;
  }

  method DeduplicatePlaces<D>(places: seq<Item<D>>) returns (r: seq<Item<D>>)
    ensures r == Dedup(Places, places)
  {
    r := Deduplicate(Places, places);
  }

  method DeduplicateRestaurants<D>(restaurants: seq<Item<D>>) returns (r: seq<Item<D>>)
    ensures r == Dedup(Restaurants, restaurants)
  {
    r := Deduplicate(Restaurants, restaurants);
  }

  method DeduplicateServices<D>(services: seq<Item<D>>) returns (r: seq<Item<D>>)
    ensures r == Dedup(Services, services)
  {
    r := Deduplicate(Services, services);
  }

  method DeduplicateAccommodation<D>(accommodation: seq<Item<D>>) returns (r: seq<Item<D>>)
    ensures r == Dedup(Accommodation, accommodation)
  {
    r := Deduplicate(Accommodation, accommodation);
  }

  // ---------------------------------------------------------------------
  // An independent description: keep item i exactly when it is accepted and
  // no earlier accepted item has the same key.

  predicate IsFirst<D>(cat: Category, s: seq<Item<D>>, i: int)
    requires 0 <= i < |s|
  {
    Accepts(cat, s[i].name)
    && forall j :: 0 <= j < i && Accepts(cat, s[j].name) ==> KeyOf(s[j]) != KeyOf(s[i])
  }

  /** The input filtered, in input order, to its first occurrences. */
  function FirstOccurrences<D>(cat: Category, s: seq<Item<D>>): seq<Item<D>>
    decreases |s|
  {
    if |s| == 0 then []
    else FirstOccurrences(cat, s[..|s| - 1]) + (if IsFirst(cat, s, |s| - 1) then [s[|s| - 1]] else [])
  }

  /** The keys of the accepted items of `s`. */
  function AcceptedKeys<D>(cat: Category, s: seq<Item<D>>): set<Key>
    decreases |s|
  {
    if |s| == 0 then {}
    else AcceptedKeys(cat, s[..|s| - 1]) + (if Accepts(cat, s[|s| - 1].name) then {KeyOf(s[|s| - 1])} else {})
  }

  lemma {:induction false} AcceptedKeysMembership<D>(cat: Category, s: seq<Item<D>>, k: Key)
    ensures k in AcceptedKeys(cat, s) <==> exists j :: 0 <= j < |s| && Accepts(cat, s[j].name) && KeyOf(s[j]) == k
    decreases |s|
  {
    if |s| > 0 {
      var n := |s| - 1;
      var p := s[..n];
      AcceptedKeysMembership(cat, p, k);
      if k in AcceptedKeys(cat, s) {
        if k in AcceptedKeys(cat, p) {
          var j :| 0 <= j < |p| && Accepts(cat, p[j].name) && KeyOf(p[j]) == k;
          assert s[j] == p[j];
        } else {
          assert Accepts(cat, s[n].name) && KeyOf(s[n]) == k;
        }
      } else {
        forall j | 0 <= j < |s| && Accepts(cat, s[j].name)
          ensures KeyOf(s[j]) != k
        {
          if j < n {
            assert s[j] == p[j];
          }
        }
      }
    }
  }

  /** The keys a deduper has seen are exactly the keys of the accepted input items. */
  lemma {:induction false} DedupKeys<D>(cat: Category, s: seq<Item<D>>)
    ensures Keys(Dedup(cat, s)) == AcceptedKeys(cat, s)
    decreases |s|
  {
    if |s| > 0 {
      var p := s[..|s| - 1];
      var x := s[|s| - 1];
      var prev := Dedup(cat, p);
      DedupKeys(cat, p);
      if Accepts(cat, x.name) && KeyOf(x) !in Keys(prev) {
        KeysAppend(prev, x);
      }
    }
  }

  /** The last item is a first occurrence iff it is accepted and its key is
      not among the accepted keys before it. */
  lemma IsFirstLast<D>(cat: Category, s: seq<Item<D>>)
    requires |s| > 0
    ensures IsFirst(cat, s, |s| - 1)
      <==> Accepts(cat, s[|s| - 1].name) && KeyOf(s[|s| - 1]) !in AcceptedKeys(cat, s[..|s| - 1])
  {
    var n := |s| - 1;
    var p := s[..n];
    var x := s[n];
    AcceptedKeysMembership(cat, p, KeyOf(x));
    if KeyOf(x) in AcceptedKeys(cat, p) {
      var j :| 0 <= j < |p| && Accepts(cat, p[j].name) && KeyOf(p[j]) == KeyOf(x);
      assert s[j] == p[j];
    } else {
      forall j | 0 <= j < n && Accepts(cat, s[j].name)
        ensures KeyOf(s[j]) != KeyOf(x)
      {
        assert s[j] == p[j];
      }
    }
  }

  /** Every deduper keeps exactly the first accepted item of each key, in input order. */
  lemma {:induction false} DedupIsFirstOccurrences<D>(cat: Category, s: seq<Item<D>>)
    ensures Dedup(cat, s) == FirstOccurrences(cat, s)
    decreases |s|
  {
    if |s| > 0 {
      var p := s[..|s| - 1];
      DedupIsFirstOccurrences(cat, p);
      DedupKeys(cat, p);
      IsFirstLast(cat, s);
    }
  }

  /** Every kept item is accepted, comes from the input, and no two kept items share a key. */
  lemma {:induction false} DedupWellFormed<D>(cat: Category, s: seq<Item<D>>)
    ensures forall k :: 0 <= k < |Dedup(cat, s)| ==> Accepts(cat, Dedup(cat, s)[k].name) && Dedup(cat, s)[k] in s
    ensures forall k, l :: 0 <= k < l < |Dedup(cat, s)| ==> KeyOf(Dedup(cat, s)[k]) != KeyOf(Dedup(cat, s)[l])
    decreases |s|
  {
    if |s| > 0 {
      var p := s[..|s| - 1];
      var x := s[|s| - 1];
      DedupWellFormed(cat, p);
      var prev := Dedup(cat, p);
      var r := Dedup(cat, s);
      assert forall y :: y in p ==> y in s;
      if Accepts(cat, x.name) && KeyOf(x) !in Keys(prev) {
        assert r == prev + [x];
        forall k, l | 0 <= k < l < |r| ensures KeyOf(r[k]) != KeyOf(r[l]) {
          assert r[k] == prev[k];
          if l == |prev| {
            assert r[l] == x;
            assert KeyOf(prev[k]) in Keys(prev);
          } else {
            assert r[l] == prev[l];
          }
        }
        forall k | 0 <= k < |r| ensures Accepts(cat, r[k].name) && r[k] in s {
          if k < |prev| {
            assert r[k] == prev[k];
            assert prev[k] in p;
          } else {
            assert r[k] == x == s[|s| - 1];
          }
        }
      } else {
        assert r == prev;
      }
    }
  }

  /** Placeholder names never survive: no "Tourist Attraction" among places,
      no "Hotel" among accommodation, no blank service name, no empty name. */
  lemma PlaceholdersDropped<D>(s: seq<Item<D>>)
    ensures forall x :: x in Dedup(Places, s) ==> x.name !in {"", "Tourist Attraction", "Cultural Site"}
    ensures forall x :: x in Dedup(Accommodation, s) ==> x.name !in {"", "Hotel"}
    ensures forall x :: x in Dedup(Services, s) ==> Trim(x.name) != ""
    ensures forall x :: x in Dedup(Restaurants, s) ==> x.name != ""
  {
    DedupWellFormed(Places, s);
    DedupWellFormed(Accommodation, s);
    DedupWellFormed(Services, s);
    DedupWellFormed(Restaurants, s);
  }

  /** The restaurant deduper only drops missing names, so the OpenTripMap
      default name "Restaurant" survives, while the same default for a place
      or accommodation category would not ("Tourist Attraction", "Hotel"). */
  lemma DefaultNamesByCategory()
    ensures Accepts(Restaurants, "Restaurant")
    ensures !Accepts(Places, "Tourist Attraction") && !Accepts(Places, "Cultural Site")
    ensures !Accepts(Accommodation, "Hotel") && Accepts(Accommodation, "Accommodation")
    ensures !Accepts(Services, " \t")
  {
  }

  predicate AllAccepted<D>(cat: Category, t: seq<Item<D>>) {
    forall k :: 0 <= k < |t| ==> Accepts(cat, t[k].name)
  }

  predicate DistinctKeys<D>(t: seq<Item<D>>) {
    forall k, l :: 0 <= k < l < |t| ==> KeyOf(t[k]) != KeyOf(t[l])
  }

  lemma DropLastKeepsShape<D>(cat: Category, t: seq<Item<D>>)
    requires |t| > 0 && AllAccepted(cat, t) && DistinctKeys(t)
    ensures AllAccepted(cat, t[..|t| - 1]) && DistinctKeys(t[..|t| - 1])
    ensures KeyOf(t[|t| - 1]) !in Keys(t[..|t| - 1])
  {
    var p := t[..|t| - 1];
    assert forall k :: 0 <= k < |p| ==> p[k] == t[k];
    forall y | y in Keys(p)
      ensures y != KeyOf(t[|t| - 1])
    {
      var i :| 0 <= i < |p| && KeyOf(p[i]) == y;
    }
  }

  /** A list that already has accepted names and distinct keys is left as it is. */
  lemma {:induction false} DedupOfDeduplicated<D>(cat: Category, t: seq<Item<D>>)
    requires AllAccepted(cat, t) && DistinctKeys(t)
    ensures Dedup(cat, t) == t
    decreases |t|
  {
    if |t| > 0 {
      var p := t[..|t| - 1];
      DropLastKeepsShape(cat, t);
      DedupOfDeduplicated(cat, p);
      assert p + [t[|t| - 1]] == t;
    }
  }

  /** Deduplicating twice is the same as deduplicating once. */
  lemma DedupIdempotent<D>(cat: Category, s: seq<Item<D>>)
    ensures Dedup(cat, Dedup(cat, s)) == Dedup(cat, s)
  {
    DedupWellFormed(cat, s);
    DedupOfDeduplicated(cat, Dedup(cat, s));
  }

  /** Deduplicating `a + b` first deduplicates `a`: the items kept from an
      earlier source are kept unchanged and in front. */
  lemma {:induction false} DedupPrefix<D>(cat: Category, a: seq<Item<D>>, b: seq<Item<D>>)
    ensures Dedup(cat, a) <= Dedup(cat, a + b)
    decreases |b|
  {
    if |b| > 0 {
      var b' := b[..|b| - 1];
      DedupPrefix(cat, a, b');
      assert (a + b)[..|a + b| - 1] == a + b';
    } else {
      assert a + b == a;
    }
  }

  /** On a key clash between sources the earlier source's item wins: nothing
      kept after the earlier source's items shares a key with one of them. */
  lemma EarlierSourceWins<D>(cat: Category, a: seq<Item<D>>, b: seq<Item<D>>)
    ensures var r := Dedup(cat, a + b);
      var n := |Dedup(cat, a)|;
      n <= |r| && r[..n] == Dedup(cat, a)
      && forall k :: n <= k < |r| ==> KeyOf(r[k]) !in Keys(Dedup(cat, a))
  {
    DedupPrefix(cat, a, b);
    var r := Dedup(cat, a + b);
    var n := |Dedup(cat, a)|;
    DedupWellFormed(cat, a + b);
    forall k | n <= k < |r| ensures KeyOf(r[k]) !in Keys(Dedup(cat, a)) {
      forall i | 0 <= i < n ensures KeyOf(Dedup(cat, a)[i]) != KeyOf(r[k]) {
        assert Dedup(cat, a)[i] == r[i];
      }
    }
  }

  /** A rejected item never enters `seen`: removing it changes nothing, even
      for a later item with the same key. */
  lemma {:induction false} RejectedIsTransparent<D>(cat: Category, a: seq<Item<D>>, x: Item<D>, b: seq<Item<D>>)
    requires !Accepts(cat, x.name)
    ensures Dedup(cat, a + [x] + b) == Dedup(cat, a + b)
    decreases |b|
  {
    if |b| == 0 {
      assert (a + [x] + b)[..|a|] == a;
      assert a + b == a;
    } else {
      var b' := b[..|b| - 1];
      RejectedIsTransparent(cat, a, x, b');
      assert (a + [x] + b)[..|a + [x] + b| - 1] == a + [x] + b';
      assert (a + b)[..|a + b| - 1] == a + b';
    }
  }
}
