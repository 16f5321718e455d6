/** The restaurants detail screen: the five-star rating string and the
    statistics bar. */
module RestaurantsScreen {
  import opened Common
  import opened Text
  import opened Dedupe
  import opened Classify
  import opened Records

  const FullStar: char := '★'
  const EmptyStar: char := '☆'

  /** `String.prototype.repeat` throws a RangeError for a negative count. */
  datatype RangeError = InvalidCount(count: int)

  /** `c.repeat(n)` for a count that is not negative. */
  function Repeat(c: char, n: nat): (s: string)
    ensures |s| == n && forall i :: 0 <= i < n ==> s[i] == c
  {
    if n == 0 then "" else [c] + Repeat(c, n - 1)
  }

  /** `'★'.repeat(stars) + '☆'.repeat(5 - stars)`: either count may be negative. */
  function StarString(stars: int): (r: Result<string, RangeError>)
    ensures r.Failure? <==> stars < 0 || stars > 5
    ensures r.Success? ==> |r.value| == 5 && forall i :: 0 <= i < 5 ==> r.value[i] == if i < stars then FullStar else EmptyStar
  {
    if stars < 0 then Failure(InvalidCount(stars))
    else if 5 - stars < 0 then Failure(InvalidCount(5 - stars))
    else Success(Repeat(FullStar, stars) + Repeat(EmptyStar, 5 - stars))
  }

  /** `getRatingStars(rating)`; a missing rating is `None`. A falsy rating
      (missing or zero) shows five empty stars; otherwise the rating is
      rounded half up and a count outside 0..5 makes `repeat` throw. */
  function GetRatingStars(rating: Option<real>): (r: Result<string, RangeError>)
    ensures rating.None? || rating.value == 0.0 ==> r == Success(Repeat(EmptyStar, 5))
    ensures rating.Some? && rating.value != 0.0 ==> r == StarString(Round(rating.value))
  {
    if rating.None? || rating.value == 0.0 then Success(Repeat(EmptyStar, 5))
    else StarString(Round(rating.value))
  }

  /** The star string throws exactly for a non-zero rating below -0.5 or at
      least 5.5; every other rating gives five stars. */
  lemma RatingStarsFailure(rating: Option<real>)
    ensures GetRatingStars(rating).Failure?
      <==> rating.Some? && rating.value != 0.0 && (rating.value < -0.5 || rating.value >= 5.5)
    ensures GetRatingStars(rating).Success? ==> |GetRatingStars(rating).value| == 5
  {
    if rating.Some? && rating.value != 0.0 {
      var n := Round(rating.value);
      assert n < 0 <==> rating.value < -0.5;
      assert n > 5 <==> rating.value >= 5.5;
    }
  }

  /** Foursquare rates on a ten-point scale, so a rating such as 8.5 rounds
      to 9 stars and `repeat` throws while the screen renders. */
  lemma TenPointRatingThrows()
    ensures GetRatingStars(Some(8.5)).Failure?
  {
    RatingStarsFailure(Some(8.5));
  }

  /** The star string with the rounded rating held to 0..5: no rating throws,
      and every rating the source can show is shown the same way. */
  function ClampedRatingStars(rating: Option<real>): (r: string)
    ensures |r| == 5
    ensures GetRatingStars(rating).Success? ==> r == GetRatingStars(rating).value
    ensures rating.Some? && rating.value >= 5.5 ==> r == Repeat(FullStar, 5)
    ensures rating.Some? && rating.value < -0.5 ==> r == Repeat(EmptyStar, 5)
  {
    RatingStarsFailure(rating);
    if rating.None? || rating.value == 0.0 then Repeat(EmptyStar, 5)
    else
      assert Repeat(FullStar, 5) + Repeat(EmptyStar, 0) == Repeat(FullStar, 5);
      assert Repeat(FullStar, 0) + Repeat(EmptyStar, 5) == Repeat(EmptyStar, 5);
      StarString(ClampStars(rating.value)).value
  }

  /** The rounded rating held to 0..5. */
  function ClampStars(rating: real): (n: int)
    ensures 0 <= n <= 5
  {
    var n := Round(rating);
    if n < 0 then 0 else if n > 5 then 5 else n
  }

  /** A star string for a count in 0..5 has that many full stars. */
  lemma StarStringFullStars(n: int)
    requires 0 <= n <= 5
    ensures StarString(n).Success? && FullStars(StarString(n).value) == n
  {
    RepeatCount(FullStar, FullStar, n);
    RepeatCount(EmptyStar, FullStar, 5 - n);
    CountCharAppend(Repeat(FullStar, n), Repeat(EmptyStar, 5 - n), FullStar);
  }

  /** With the clamp, a higher non-zero rating never shows fewer full stars,
      over every rating and not only the ones the source can show. */
  lemma ClampedFullStarsMonotone(a: real, b: real)
    requires a != 0.0 && b != 0.0 && a <= b
    ensures FullStars(ClampedRatingStars(Some(a))) <= FullStars(ClampedRatingStars(Some(b)))
  {
    StarStringFullStars(ClampStars(a));
    StarStringFullStars(ClampStars(b));
    assert (a + 0.5).Floor <= (b + 0.5).Floor;
  }

  /** The number of full stars in a star string. */
  function FullStars(s: string): nat {
    CountChar(s, FullStar)
  }

  lemma {:induction false} RepeatCount(c: char, d: char, n: nat)
    ensures CountChar(Repeat(c, n), d) == if c == d then n else 0
    decreases n
  {
    if n > 0 {
      assert Repeat(c, n)[1..] == Repeat(c, n - 1);
      RepeatCount(c, d, n - 1);
    }
  }

  /** A rating that shows shows its rounded value as full stars. */
  lemma FullStarsAreRounded(rating: real)
    requires rating != 0.0 && GetRatingStars(Some(rating)).Success?
    ensures FullStars(GetRatingStars(Some(rating)).value) == Round(rating)
  {
    var n := Round(rating);
    RepeatCount(FullStar, FullStar, n);
    RepeatCount(EmptyStar, FullStar, 5 - n);
    CountCharAppend(Repeat(FullStar, n), Repeat(EmptyStar, 5 - n), FullStar);
  }

  /** A higher non-zero rating never shows fewer full stars. */
  lemma FullStarsMonotone(a: real, b: real)
    requires a != 0.0 && b != 0.0 && a <= b
    requires GetRatingStars(Some(a)).Success? && GetRatingStars(Some(b)).Success?
    ensures FullStars(GetRatingStars(Some(a)).value) <= FullStars(GetRatingStars(Some(b)).value)
  {
    FullStarsAreRounded(a);
    FullStarsAreRounded(b);
    assert (a + 0.5).Floor <= (b + 0.5).Floor;
  }

  // ---------------------------------------------------------------------
  // Statistics

  /** `restaurant.rating && restaurant.rating >= 4` */
  predicate HighlyRated(r: Restaurant) {
    RatedAtLeast(r.details.rating, 4.0)
  }

  /** `restaurant.categories?.some(cat => cat.toLowerCase().includes('fine'))` */
  predicate FineDining(r: Restaurant) {
    r.details.categories.Some?
    && exists i :: 0 <= i < |r.details.categories.value| && Contains(Lower(r.details.categories.value[i]), "fine")
  }

  function HighlyRatedCount(restaurants: seq<Restaurant>): (n: nat)
    ensures n <= |restaurants|
  {
    Count(restaurants, HighlyRated)
  }

  function FineDiningCount(restaurants: seq<Restaurant>): (n: nat)
    ensures n <= |restaurants|
  {
    Count(restaurants, FineDining)
  }

  lemma HighlyRatedCountPositive(restaurants: seq<Restaurant>)
    ensures HighlyRatedCount(restaurants) > 0
      <==> exists i :: 0 <= i < |restaurants| && RatedAtLeast(restaurants[i].details.rating, 4.0)
  {
    CountPositive(restaurants, HighlyRated);
  }

  lemma FineDiningCountPositive(restaurants: seq<Restaurant>)
    ensures FineDiningCount(restaurants) > 0 <==> exists i :: 0 <= i < |restaurants| && FineDining(restaurants[i])
  {
    CountPositive(restaurants, FineDining);
  }
}
