/** The trip orchestrator (`plan_trip`): geocode the region, abort when that
    yields no latitude, search attractions (falling back to the encyclopedia
    title search), recommend stays, search restaurants, average the stay
    prices and estimate the cost. Every outbound call is a function of its
    query, and the calls made are returned in order beside the response. */
module Planner {
  import opened Wrappers
  import opened Text
  import opened Records
  import opened Lookups
  import opened Stays
  import opened Costs

  /** The request body: `region`, and the optional `days` and `mood`. */
  datatype Request = Request(region: string, days: Option<int>, mood: Option<string>)

  /** The outside world for one request: the three services and the random
      draws. `stayDraw(i)` is the i-th price draw of the recommender,
      `travelDraw` the cost estimator's draw, `roundFood(a)` the value of
      `round(a * 0.3)`. */
  datatype Env = Env(geocoder: string -> Option<GeoResponse>, places: Search,
                     titles: string -> Option<seq<WikiPage>>,
                     stayDraw: nat -> int, travelDraw: int, roundFood: int -> int)

  /** An outbound call. */
  datatype Call = Geocoding(text: string)
                | PlaceSearch(lat: real, lon: real, categories: seq<string>)
                | TitleSearch(text: string)

  /** The JSON answer: the 400 error, or the plan. */
  datatype Response =
    | Rejected(status: int, error: string)
    | Planned(region: string, coordinates: Coord, mood: string, days: int,
              stays: seq<Place>, attractions: seq<Place>, restaurants: seq<Place>,
              estimatedCost: Cost)

  datatype Exchange = Exchange(response: Response, calls: seq<Call>)

  const RestaurantCategories: seq<string> := ["catering.restaurant"]

  /** `d.get("mood", "relaxed").lower()`: lower-cased but not stripped. */
  function RequestMood(req: Request): (m: string)
    ensures |m| == |req.mood.GetOr("relaxed")|
    ensures forall c :: c in m ==> !IsUpper(c)
    ensures req.mood.None? ==> m == "relaxed"
  {
    var raw := req.mood.GetOr("relaxed");
    LowerHasNoUpper(raw);
    assert req.mood.None? ==> Lower(raw) == "relaxed" by {
      if req.mood.None? {
        forall k | 0 <= k < |raw| ensures Lower(raw)[k] == "relaxed"[k] {
          assert Lower(raw)[k] == ToLower(raw[k]);
        }
      }
    }
    Lower(raw)
  }

  /** `int(d.get("days", 3))` */
  function RequestDays(req: Request): (d: int)
    ensures req.days.None? ==> d == 3
    ensures req.days.Some? ==> d == req.days.value
  {
    req.days.GetOr(3)
  }

  /** Places of worship for the spiritual mood, sights and parks otherwise. */
  function AttractionCategories(mood: string): (cats: seq<string>)
    ensures cats == ["religion.place_of_worship"] <==> mood == "spiritual"
    ensures mood != "spiritual" ==> cats == ["tourism.attraction", "leisure.park"]
  {
    if mood == "spiritual" then ["religion.place_of_worship"]
    else ["tourism.attraction", "leisure.park"]
  }

  predicate AllPriced(stays: seq<Place>) {
    forall i :: 0 <= i < |stays| ==> stays[i].priceInr.Some?
  }

  /** `sum(s["price_inr"] for s in stays)` */
  function PriceSum(stays: seq<Place>): int
    requires AllPriced(stays)
  {
    if stays == [] then 0 else stays[0].priceInr.value + PriceSum(stays[1..])
  }

  /** `int(a / n)`: the quotient truncated toward zero. */
  function TruncDiv(a: int, n: int): int
    requires n > 0
  {
    if a >= 0 then a / n else -((-a) / n)
  }

  /** `int(a / n)` is the integer next to the exact quotient on the side of
      zero: below it for a non-negative sum, above it for a negative one. */
  lemma TruncDivBounds(a: int, n: int)
    requires n > 0
    ensures a >= 0 ==> n * TruncDiv(a, n) <= a < n * (TruncDiv(a, n) + 1)
    ensures a < 0 ==> n * (TruncDiv(a, n) - 1) < a <= n * TruncDiv(a, n)
  {
    if a >= 0 {
      DivBounds(a, n);
    } else {
      var q := (-a) / n;
      DivBounds(-a, n);
      assert TruncDiv(a, n) == -q;
      assert n * (-q) == -(n * q);
      assert n * (-q - 1) == -(n * (q + 1));
    }
  }

  lemma DivBounds(a: int, n: int)
    requires a >= 0 && n > 0
    ensures n * (a / n) <= a < n * (a / n + 1)
  {
    var q, r := a / n, a % n;
    assert a == n * q + r && 0 <= r < n;
    assert n * (q + 1) == n * q + n;
  }

  /** The average stay price fed to the estimator: 4000 with no stays, the
      first stay's price when its name starts with "Default", else the
      truncated mean. */
  function AveragePrice(stays: seq<Place>): (avg: int)
    requires AllPriced(stays)
    ensures stays == [] ==> avg == 4000
    ensures stays != [] && StartsWith(stays[0].name, "Default") ==> avg == stays[0].priceInr.value
  {
    if stays == [] then 4000
    else if !StartsWith(stays[0].name, "Default") then TruncDiv(PriceSum(stays), |stays|)
    else stays[0].priceInr.value
  }

  /** Otherwise the average is the mean of the prices truncated toward zero. */
  lemma AverageIsTruncatedMean(stays: seq<Place>)
    requires stays != [] && AllPriced(stays) && !StartsWith(stays[0].name, "Default")
    ensures var avg, sum, n := AveragePrice(stays), PriceSum(stays), |stays|;
            && (sum >= 0 ==> n * avg <= sum < n * (avg + 1))
            && (sum < 0 ==> n * (avg - 1) < sum <= n * avg)
  {
    TruncDivBounds(PriceSum(stays), |stays|);
  }

  lemma {:induction false} PriceSumBounds(stays: seq<Place>, band: Band)
    requires forall i :: 0 <= i < |stays| ==> stays[i].priceInr.Some? && InBand(stays[i].priceInr.value, band)
    ensures AllPriced(stays)
    ensures |stays| * band.lo <= PriceSum(stays) <= |stays| * band.hi
  {
    if stays != [] {
      var rest := stays[1..];
      assert forall i :: 0 <= i < |rest| ==> rest[i] == stays[i + 1];
      PriceSumBounds(rest, band);
      assert PriceSum(stays) == stays[0].priceInr.value + PriceSum(rest);
      assert |stays| * band.lo == band.lo + |rest| * band.lo;
      assert |stays| * band.hi == band.hi + |rest| * band.hi;
    }
  }

  /** A sum of n values in [lo, hi], with lo non-negative, divided by n
      lies in [lo, hi]. */
  lemma QuotientWithin(s: int, n: int, lo: int, hi: int)
    requires n > 0 && 0 <= lo && n * lo <= s <= n * hi
    ensures lo <= s / n <= hi
  {
    var q, r := s / n, s % n;
    assert s == q * n + r && 0 <= r < n;
    assert lo * n < (q + 1) * n;
    LessByFactor(lo, q + 1, n);
    assert q * n < (hi + 1) * n;
    LessByFactor(q, hi + 1, n);
  }

  lemma LessByFactor(a: int, b: int, n: int)
    requires n > 0 && a * n < b * n
    ensures a < b
  {
  }

  /** The average of prices drawn from a band of non-negative prices lies in
      that band, on either branch. */
  lemma AverageWithinBand(stays: seq<Place>, band: Band)
    requires stays != [] && 0 <= band.lo
    requires forall i :: 0 <= i < |stays| ==> stays[i].priceInr.Some? && InBand(stays[i].priceInr.value, band)
    ensures AllPriced(stays) && InBand(AveragePrice(stays), band)
  {
    PriceSumBounds(stays, band);
    QuotientWithin(PriceSum(stays), |stays|, band.lo, band.hi);
    assert InBand(stays[0].priceInr.value, band);
  }

  /** For a single stay the two branches agree: the average is its price,
      placeholder or not. */
  lemma SingleStayAverage(stay: Place)
    requires stay.priceInr.Some?
    ensures AllPriced([stay]) && AveragePrice([stay]) == stay.priceInr.value
  {
    assert [stay][1..] == [];
    assert PriceSum([stay]) == stay.priceInr.value + PriceSum([]);
  }

  /** The "Default" test looks only at the name, so a real first stay named
      "Default Inn" makes the average its own price rather than the mean. */
  lemma DefaultNamedFirstStayIsNotAveraged()
    ensures var stays := [Place("Default Inn", "", MapsSearch(1.0, 2.0), Some(5000), Some(MidRange)),
                          Place("Lake View", "", MapsSearch(1.0, 2.0), Some(7000), Some(MidRange))];
            AllPriced(stays) && AveragePrice(stays) == 5000 && PriceSum(stays) / |stays| == 6000
  {
    var stays := [Place("Default Inn", "", MapsSearch(1.0, 2.0), Some(5000), Some(MidRange)),
                  Place("Lake View", "", MapsSearch(1.0, 2.0), Some(7000), Some(MidRange))];
    assert stays[0].name[..7] == "Default";
    assert stays[1..][1..] == [];
  }

  /** The draws lie in the ranges the source draws them from. */
  ghost predicate DrawsInRange(req: Request, env: Env) {
    && (forall i: nat :: InBand(env.stayDraw(i), PriceBand(NormaliseMood(RequestMood(req)))))
    && 500 <= env.travelDraw <= 2000
  }

  /** The searches the recommender made, as calls. */
  function StaySearches(lat: real, lon: real, searched: seq<seq<string>>): (calls: seq<Call>)
    ensures |calls| == |searched|
    ensures forall i :: 0 <= i < |calls| ==> calls[i] == PlaceSearch(lat, lon, searched[i])
  {
    seq(|searched|, i requires 0 <= i < |searched| => PlaceSearch(lat, lon, searched[i]))
  }

  /** The part of `plan_trip` after a usable geocode: the three searches,
      the average and the estimate, with the calls they make. */
  function Proceed(req: Request, env: Env, lat: real, lon: real): (x: Exchange)
    requires DrawsInRange(req, env)
    ensures x.response.Planned?
    ensures x.response.region == req.region && x.response.coordinates == Coord(lat, lon)
    ensures x.response.mood == RequestMood(req) && x.response.days == RequestDays(req)
    ensures 1 <= |x.response.stays| <= MaxStays
    ensures |x.calls| >= 3 && x.calls[0] == PlaceSearch(lat, lon, AttractionCategories(RequestMood(req)))
    ensures x.calls[|x.calls| - 1] == PlaceSearch(lat, lon, RestaurantCategories)
  {
    var mood := RequestMood(req);
    var attractionCats := AttractionCategories(mood);
    var sights := PlacesOf(env.places(lat, lon, attractionCats));
    var attractions := if sights != [] then sights else WikiFallback(req.region, env.titles(WikiQuery(req.region)));
    var fallbackCalls := if sights != [] then [] else [TitleSearch(WikiQuery(req.region))];
    var rec := Recommend(lat, lon, mood, env.places, env.stayDraw);
    var restaurants := PlacesOf(env.places(lat, lon, RestaurantCategories));
    var avg := AveragePrice(rec.stays);
    var cost := EstimateCost(RequestDays(req), avg, env.roundFood(avg), env.travelDraw);
    var calls := [PlaceSearch(lat, lon, attractionCats)] + fallbackCalls
                 + StaySearches(lat, lon, rec.searched) + [PlaceSearch(lat, lon, RestaurantCategories)];
    Exchange(Planned(req.region, Coord(lat, lon), mood, RequestDays(req), rec.stays, attractions, restaurants, cost), calls)
  }

  /** `plan_trip` for one request: a missing or zero latitude rejects the
      request before any search is made. */
  function PlanTrip(req: Request, env: Env): (x: Exchange)
    requires DrawsInRange(req, env)
    ensures var c := Geocode(env.geocoder(GeocodeQuery(req.region)));
            x.response.Rejected? <==> c.None? || c.value.lat == 0.0
    ensures x.response.Rejected? ==>
              x.response == Rejected(400, "Could not geocode region") &&
              x.calls == [Geocoding(GeocodeQuery(req.region))]
    ensures x.response.Planned? ==>
              && x.response.region == req.region
              && x.response.mood == RequestMood(req)
              && x.response.days == RequestDays(req)
              && 1 <= |x.response.stays| <= MaxStays
              && |x.calls| >= 4
              && x.calls[0] == Geocoding(GeocodeQuery(req.region))
              && x.calls[|x.calls| - 1] == PlaceSearch(x.response.coordinates.lat, x.response.coordinates.lon, RestaurantCategories)
  {
    var query := GeocodeQuery(req.region);
    var coord := Geocode(env.geocoder(query));
    if coord.None? || coord.value.lat == 0.0 then
      Exchange(Rejected(400, "Could not geocode region"), [Geocoding(query)])
    else
      var rest := Proceed(req, env, coord.value.lat, coord.value.lon);
      Exchange(rest.response, [Geocoding(query)] + rest.calls)
  }

  /** A latitude of exactly zero is taken for a failed lookup. */
  lemma EquatorIsRejected(req: Request, env: Env, lon: real)
    requires DrawsInRange(req, env)
    requires env.geocoder(GeocodeQuery(req.region)) == Some(GeoResponse(Some([GeoResult(Some(0.0), Some(lon))]), None))
    ensures PlanTrip(req, env).response == Rejected(400, "Could not geocode region")
  {
  }

  /** After the geocode, the attraction search comes first; the title
      search runs right after it exactly when it found nothing, and then
      supplies the attractions. */
  lemma ProceedSearchesAttractionsFirst(req: Request, env: Env, lat: real, lon: real)
    requires DrawsInRange(req, env)
    ensures var x := Proceed(req, env, lat, lon);
      var sights := PlacesOf(env.places(lat, lon, AttractionCategories(RequestMood(req))));
      && (x.calls[1] == TitleSearch(WikiQuery(req.region)) <==> sights == [])
      && x.response.attractions == (if sights != [] then sights else WikiFallback(req.region, env.titles(WikiQuery(req.region))))
  {
    var rec := Recommend(lat, lon, RequestMood(req), env.places, env.stayDraw);
    BroadSearchOnlyWhenPrimaryEmpty(lat, lon, RequestMood(req), env.places, env.stayDraw);
    assert StaySearches(lat, lon, rec.searched)[0].PlaceSearch?;
  }

  /** The attraction search uses places of worship exactly for the spiritual
      mood, and the title search runs exactly when that search is empty and
      then supplies the attractions. */
  lemma AttractionsFollowMood(req: Request, env: Env)
    requires DrawsInRange(req, env)
    ensures var x := PlanTrip(req, env);
      x.response.Planned? ==>
        var lat, lon := x.response.coordinates.lat, x.response.coordinates.lon;
        var cats := AttractionCategories(RequestMood(req));
        var sights := PlacesOf(env.places(lat, lon, cats));
        && x.calls[1] == PlaceSearch(lat, lon, cats)
        && (cats == ["religion.place_of_worship"] <==> RequestMood(req) == "spiritual")
        && (x.calls[2] == TitleSearch(WikiQuery(req.region)) <==> sights == [])
        && x.response.attractions == (if sights != [] then sights else WikiFallback(req.region, env.titles(WikiQuery(req.region))))
  {
    var x := PlanTrip(req, env);
    if x.response.Planned? {
      var lat, lon := x.response.coordinates.lat, x.response.coordinates.lon;
      var rest := Proceed(req, env, lat, lon);
      assert x.calls == [Geocoding(GeocodeQuery(req.region))] + rest.calls;
      ProceedSearchesAttractionsFirst(req, env, lat, lon);
    }
  }

  /** The mood is lower-cased but not stripped before the attraction test, so
      " Spiritual" searches sights and parks while its stays are searched as
      lodges and guest houses. */
  lemma PaddedMoodSplitsPolicies()
    ensures var mood := RequestMood(Request("Varanasi", None, Some(" Spiritual")));
            AttractionCategories(mood) == ["tourism.attraction", "leisure.park"] &&
            StayCategories(NormaliseMood(mood)) == ["accommodation.lodge", "accommodation.guest_house"]
  {
    LowerPaddedSpiritual();
    LowerIdempotent(" Spiritual");
    StripPaddedSpiritual();
    assert NormaliseMood(" spiritual") == "spiritual";
  }

  lemma LowerPaddedSpiritual()
    ensures Lower(" Spiritual") == " spiritual"
  {
    var raw := " Spiritual";
    forall i | 0 <= i < |raw| ensures Lower(raw)[i] == " spiritual"[i] {
      assert Lower(raw)[i] == ToLower(raw[i]);
    }
  }

  lemma StripPaddedSpiritual()
    ensures Strip(" spiritual") == "spiritual"
  {
    var word := "spiritual";
    assert " spiritual"[1..] == word;
    assert !IsSpace(word[0]) && !IsSpace(word[|word| - 1]);
    assert StripStart(" spiritual") == 1;
    assert StripEnd(" spiritual") == 10;
  }

  /** The stay price passed to the estimator is the average of the returned
      stays and lies in the mood's band, the travel amount lies in
      [500, 2000], and the estimate is `estimate_cost` of the days, that
      price, its rounded food amount and the travel draw. */
  lemma CostFollowsStays(req: Request, env: Env)
    requires DrawsInRange(req, env)
    ensures var x := PlanTrip(req, env);
      x.response.Planned? ==>
        var c := x.response.estimatedCost;
        && AllPriced(x.response.stays)
        && c.stayPerDay == AveragePrice(x.response.stays)
        && InBand(c.stayPerDay, PriceBand(NormaliseMood(req.mood.GetOr("relaxed"))))
        && 500 <= c.travelPerDay <= 2000
        && c == EstimateCost(x.response.days, c.stayPerDay, env.roundFood(c.stayPerDay), env.travelDraw)
  {
    var x := PlanTrip(req, env);
    if x.response.Planned? {
      var lat, lon := x.response.coordinates.lat, x.response.coordinates.lon;
      assert x.response == Proceed(req, env, lat, lon).response;
      NormaliseMoodAbsorbsLower(req.mood.GetOr("relaxed"));
      ProceedCost(req, env, lat, lon);
    }
  }

  /** A plan reports the geocoded coordinate, the recommender's stays, each
      priced in the band of the request's mood with the tier of its price,
      and the restaurant search's results. */
  lemma PlanFollowsRecommender(req: Request, env: Env)
    requires DrawsInRange(req, env)
    ensures var x := PlanTrip(req, env);
      var c := Geocode(env.geocoder(GeocodeQuery(req.region)));
      x.response.Planned? ==>
        && c.Some?
        && x.response.coordinates == c.value
        && x.response.stays == Recommend(c.value.lat, c.value.lon, RequestMood(req), env.places, env.stayDraw).stays
        && x.response.restaurants == PlacesOf(env.places(c.value.lat, c.value.lon, RestaurantCategories))
        && forall i :: 0 <= i < |x.response.stays| ==>
             var p := x.response.stays[i];
             && p.priceInr.Some?
             && InBand(p.priceInr.value, PriceBand(NormaliseMood(RequestMood(req))))
             && p.tier == Some(TierOf(p.priceInr.value))
  {
    var x := PlanTrip(req, env);
    var c := Geocode(env.geocoder(GeocodeQuery(req.region)));
    if x.response.Planned? {
      assert x.response == Proceed(req, env, c.value.lat, c.value.lon).response;
    }
  }

  /** `CostFollowsStays` for the searching half of `plan_trip`. */
  lemma ProceedCost(req: Request, env: Env, lat: real, lon: real)
    requires DrawsInRange(req, env)
    ensures var x := Proceed(req, env, lat, lon);
      var c := x.response.estimatedCost;
      && AllPriced(x.response.stays)
      && c.stayPerDay == AveragePrice(x.response.stays)
      && InBand(c.stayPerDay, PriceBand(NormaliseMood(RequestMood(req))))
      && 500 <= c.travelPerDay <= 2000
      && c == EstimateCost(x.response.days, c.stayPerDay, env.roundFood(c.stayPerDay), env.travelDraw)
  {
    var rec := Recommend(lat, lon, RequestMood(req), env.places, env.stayDraw);
    var avg := AveragePrice(rec.stays);
    assert Proceed(req, env, lat, lon).response.estimatedCost ==
           EstimateCost(RequestDays(req), avg, env.roundFood(avg), env.travelDraw);
    AverageWithinBand(rec.stays, PriceBand(NormaliseMood(RequestMood(req))));
  }

  /** When every places search comes back empty the plan still holds exactly
      the placeholder stay, priced from the first draw, takes its attractions
      from the title search and has no restaurants. */
  lemma EverySearchEmpty(req: Request, env: Env)
    requires DrawsInRange(req, env)
    requires forall la: real, lo: real, cats: seq<string> :: PlacesOf(env.places(la, lo, cats)) == []
    ensures var x := PlanTrip(req, env);
      x.response.Planned? ==>
        && |x.response.stays| == 1
        && StartsWith(x.response.stays[0].name, "Default")
        && x.response.stays[0].address == "City Center"
        && x.response.stays[0].priceInr == Some(env.stayDraw(0))
        && x.response.attractions == WikiFallback(req.region, env.titles(WikiQuery(req.region)))
        && x.response.restaurants == []
        && x.response.estimatedCost.stayPerDay == env.stayDraw(0)
  {
    var x := PlanTrip(req, env);
    if x.response.Planned? {
      var lat, lon := x.response.coordinates.lat, x.response.coordinates.lon;
      StaysArePricedPrefix(lat, lon, RequestMood(req), env.places, env.stayDraw);
    }
  }
}
