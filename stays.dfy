/** The stay recommender (`mood_stays`): a mood picks a price band and a
    category list, a places search (with a broad fallback) supplies the
    candidates, each is stamped in place with a drawn price and its tier, a
    placeholder stands in when nothing was found, and at most five are
    returned. */
module Stays {
  import opened Wrappers
  import opened Text
  import opened Records
  import opened Lookups

  /** A places search: the decoded response for a point and a category list. */
  type Search = (real, real, seq<string>) -> Option<seq<Feature>>

  /** The inclusive range `random.randint` draws a price from. */
  datatype Band = Band(lo: int, hi: int)

  const HighBand := Band(5000, 25000)
  const LowBand := Band(800, 7000)

  /** The broad category searched when the mood's own categories find nothing. */
  const BroadCategories: seq<string> := ["accommodation"]

  /** At most this many stays are returned. */
  const MaxStays := 5

  predicate InBand(x: int, b: Band) {
    b.lo <= x <= b.hi
  }

  /** `mood.lower().strip()` */
  function NormaliseMood(mood: string): (m: string)
    ensures m == [] || (!IsSpace(m[0]) && !IsSpace(m[|m| - 1]))
  {
    Strip(Lower(mood))
  }

  /** The normalised mood holds no upper-case letter. */
  lemma NormaliseMoodHasNoUpper(mood: string)
    ensures forall c :: c in NormaliseMood(mood) ==> !IsUpper(c)
  {
    LowerHasNoUpper(mood);
    StripKeepsCharacters(Lower(mood));
  }

  /** Lower-casing a mood before handing it over changes nothing: the
      recommender lower-cases it again. */
  lemma NormaliseMoodAbsorbsLower(mood: string)
    ensures NormaliseMood(Lower(mood)) == NormaliseMood(mood)
  {
    LowerIdempotent(mood);
  }

  /** `mood in ["relaxed", "cultural"]` */
  predicate HighValueMood(mood: string) {
    mood in ["relaxed", "cultural"]
  }

  /** The mood's price band. */
  function PriceBand(mood: string): (b: Band)
    ensures b == Band(5000, 25000) <==> mood in ["relaxed", "cultural"]
    ensures b == Band(800, 7000) <==> mood !in ["relaxed", "cultural"]
  {
    if HighValueMood(mood) then HighBand else LowBand
  }

  /** The per-band category dictionaries; `None` when the mood is not a key. */
  function CategoryLookup(mood: string): Option<seq<string>> {
    if HighValueMood(mood) then
      if mood == "relaxed" then Some(["accommodation.resort", "accommodation.hotel"])
      else if mood == "cultural" then Some(["accommodation.home_stay", "accommodation.guest_house", "accommodation.apartment"])
      else None
    else
      if mood == "adventurous" then Some(["accommodation.hostel", "camping"])
      else if mood == "spiritual" then Some(["accommodation.lodge", "accommodation.guest_house"])
      else None
  }

  /** `mood_categories or ["accommodation.hotel"]` */
  function StayCategories(mood: string): (cats: seq<string>)
    ensures cats != []
    ensures CategoryLookup(mood).None? ==> cats == ["accommodation.hotel"]
  {
    match CategoryLookup(mood)
    case Some(cats) => if cats != [] then cats else ["accommodation.hotel"]
    case None => ["accommodation.hotel"]
  }

  /** The mood policy table: band and categories for the four known moods,
      the low band and the generic hotel category for any other. */
  lemma MoodPolicyTable(mood: string)
    ensures mood == "relaxed" ==>
              PriceBand(mood) == Band(5000, 25000) &&
              StayCategories(mood) == ["accommodation.resort", "accommodation.hotel"]
    ensures mood == "cultural" ==>
              PriceBand(mood) == Band(5000, 25000) &&
              StayCategories(mood) == ["accommodation.home_stay", "accommodation.guest_house", "accommodation.apartment"]
    ensures mood == "adventurous" ==>
              PriceBand(mood) == Band(800, 7000) &&
              StayCategories(mood) == ["accommodation.hostel", "camping"]
    ensures mood == "spiritual" ==>
              PriceBand(mood) == Band(800, 7000) &&
              StayCategories(mood) == ["accommodation.lodge", "accommodation.guest_house"]
    ensures mood !in ["relaxed", "cultural", "adventurous", "spiritual"] ==>
              PriceBand(mood) == Band(800, 7000) && StayCategories(mood) == ["accommodation.hotel"]
  {
  }

  /** The tier of a price; the thresholds do not depend on the mood. */
  function TierOf(price: int): (t: Tier)
    ensures t == Budget <==> price < 2500
    ensures t == MidRange <==> 2500 <= price < 10000
    ensures t == Luxury <==> 10000 <= price
  {
    if price < 2500 then Budget else if price < 10000 then MidRange else Luxury
  }

  /** The `tier` strings written into a stay record. */
  lemma TierLabels(price: int)
    ensures TierOf(price).Label() == "Budget" <==> price < 2500
    ensures TierOf(price).Label() == "Mid-range" <==> 2500 <= price < 10000
    ensures TierOf(price).Label() == "Luxury" <==> 10000 <= price
  {
  }

  /** A mood in any case and with surrounding whitespace gets its band:
      " RELAXED\n" is the relaxed mood and gets the high band. */
  lemma ShoutedPaddedMoodIsRelaxed()
    ensures NormaliseMood(" RELAXED\n") == "relaxed"
    ensures PriceBand(NormaliseMood(" RELAXED\n")) == Band(5000, 25000)
  {
    var raw := " RELAXED\n";
    var low := " relaxed\n";
    forall i | 0 <= i < |raw| ensures Lower(raw)[i] == low[i] {
      assert Lower(raw)[i] == ToLower(raw[i]);
    }
    assert Lower(raw) == low;
    assert StripStart(low) == 1;
    assert IsSpace(low[8]) && !IsSpace(low[7]);
    assert BackFrom(low, 1, 8) == 8;
    assert StripEnd(low) == BackFrom(low, 1, 9) == 8;
    assert low[1..8] == "relaxed";
  }

  /** A dearer stay is never in a cheaper tier. */
  lemma TierMonotone(p: int, q: int)
    requires p <= q
    ensures TierOf(p) == Luxury ==> TierOf(q) == Luxury
    ensures TierOf(q) == Budget ==> TierOf(p) == Budget
  {
  }

  /** A high-band stay is never Budget, and a low-band stay never Luxury. */
  lemma BandTiers(mood: string, price: int)
    requires InBand(price, PriceBand(mood))
    ensures HighValueMood(mood) ==> TierOf(price) != Budget
    ensures !HighValueMood(mood) ==> TierOf(price) != Luxury
  {
  }

  /** The pricing pass on one record: it adds `price_inr` and `tier` and
      leaves the other keys alone. */
  function Stamp(p: Place, price: int): (q: Place)
    ensures q.name == p.name && q.address == p.address && q.mapUrl == p.mapUrl
    ensures q.priceInr == Some(price) && q.tier == Some(TierOf(price))
  {
    p.(priceInr := Some(price), tier := Some(TierOf(price)))
  }

  /** The placeholder stay returned when both searches found nothing. */
  function Placeholder(lat: real, lon: real, mood: string, price: int): (s: Place)
    ensures StartsWith(s.name, "Default")
    ensures s.address == "City Center" && s.mapUrl == MapsSearch(lat, lon)
    ensures s.priceInr == Some(price) && s.tier == Some(TierOf(price))
  {
    Place("Default " + Title(mood) + " Stay (No Geoapify Results)", "City Center",
          MapsSearch(lat, lon), Some(price), Some(TierOf(price)))
  }

  /** `stays[:n]` */
  function Prefix<T>(s: seq<T>, n: nat): (r: seq<T>)
    ensures |r| == if |s| < n then |s| else n
    ensures forall i :: 0 <= i < |r| ==> r[i] == s[i]
  {
    if |s| <= n then s else s[..n]
  }

  /** The loop that stamps every record in place; `draw(i)` is the price the
      i-th `random.randint` call returns. */
  method PriceInPlace(stays: array<Place>, band: Band, draw: nat -> int)
    requires forall i: nat :: InBand(draw(i), band)
    modifies stays
    ensures forall i :: 0 <= i < stays.Length ==> stays[i] == Stamp(old(stays[i]), draw(i))
    ensures forall i :: 0 <= i < stays.Length ==> stays[i].priceInr.Some? && InBand(stays[i].priceInr.value, band)
  {
    var i := 0;
    while i < stays.Length
      invariant 0 <= i <= stays.Length
      invariant forall k :: 0 <= k < i ==> stays[k] == Stamp(old(stays[k]), draw(k))
      invariant forall k :: i <= k < stays.Length ==> stays[k] == old(stays[k])
    {
      var price := draw(i);
      var tier: Tier;
      if price < 2500 {
        tier := Budget;
      } else if price < 10000 {
        tier := MidRange;
      } else {
        tier := Luxury;
      }
      stays[i] := stays[i].(priceInr := Some(price), tier := Some(tier));
      i := i + 1;
    }
  }

  /** The pricing pass over all candidates: the i-th is stamped with the
      i-th draw. */
  function PriceAll(found: seq<Place>, draw: nat -> int): (priced: seq<Place>)
    ensures |priced| == |found|
    ensures forall i :: 0 <= i < |found| ==>
              && priced[i].name == found[i].name
              && priced[i].address == found[i].address
              && priced[i].mapUrl == found[i].mapUrl
              && priced[i].priceInr == Some(draw(i))
              && priced[i].tier == Some(TierOf(draw(i)))
  {
    var priced := seq(|found|, i requires 0 <= i < |found| => Stamp(found[i], draw(i)));
    assert forall i :: 0 <= i < |found| ==> priced[i] == Stamp(found[i], draw(i));
    priced
  }

  /** The outcome of one recommendation: the stays and the category lists
      searched, in order. */
  datatype Recommendation = Recommendation(stays: seq<Place>, searched: seq<seq<string>>)

  /** What `mood_stays` returns. The placeholder's price is the first draw,
      since no record was priced before it. */
  function Recommend(lat: real, lon: real, mood: string, places: Search, draw: nat -> int): (r: Recommendation)
    requires forall i: nat :: InBand(draw(i), PriceBand(NormaliseMood(mood)))
    ensures 1 <= |r.stays| <= MaxStays
    ensures forall i :: 0 <= i < |r.stays| ==>
              r.stays[i].priceInr.Some? && InBand(r.stays[i].priceInr.value, PriceBand(NormaliseMood(mood))) &&
              r.stays[i].tier == Some(TierOf(r.stays[i].priceInr.value))
  {
    var m := NormaliseMood(mood);
    var primary := PlacesOf(places(lat, lon, StayCategories(m)));
    var found := if primary != [] then primary else PlacesOf(places(lat, lon, BroadCategories));
    var searched := if primary != [] then [StayCategories(m)] else [StayCategories(m), BroadCategories];
    var priced := PriceAll(found, draw);
    var all := if priced != [] then priced else [Placeholder(lat, lon, m, draw(0))];
    Recommendation(Prefix(all, MaxStays), searched)
  }

  /** The candidates `mood_stays` prices: the primary results, or the broad
      ones when the primary search found nothing. */
  function Candidates(lat: real, lon: real, mood: string, places: Search): seq<Place> {
    var primary := PlacesOf(places(lat, lon, StayCategories(NormaliseMood(mood))));
    if primary != [] then primary else PlacesOf(places(lat, lon, BroadCategories))
  }

  /** The broad search runs exactly when the mood's own search is empty. */
  lemma BroadSearchOnlyWhenPrimaryEmpty(lat: real, lon: real, mood: string, places: Search, draw: nat -> int)
    requires forall i: nat :: InBand(draw(i), PriceBand(NormaliseMood(mood)))
    ensures var r := Recommend(lat, lon, mood, places, draw);
      r.searched[0] == StayCategories(NormaliseMood(mood)) &&
      (|r.searched| == 2 <==> PlacesOf(places(lat, lon, StayCategories(NormaliseMood(mood)))) == []) &&
      (|r.searched| == 2 ==> r.searched[1] == BroadCategories) &&
      1 <= |r.searched| <= 2
  {
  }

  /** With candidates, the stays are the first five of them, in order, with
      only `price_inr` and `tier` added; without, the one placeholder. */
  lemma StaysArePricedPrefix(lat: real, lon: real, mood: string, places: Search, draw: nat -> int)
    requires forall i: nat :: InBand(draw(i), PriceBand(NormaliseMood(mood)))
    ensures var found := Candidates(lat, lon, mood, places);
      var stays := Recommend(lat, lon, mood, places, draw).stays;
      (found != [] ==>
        |stays| == (if |found| < MaxStays then |found| else MaxStays) &&
        forall i :: 0 <= i < |stays| ==>
          stays[i].name == found[i].name && stays[i].address == found[i].address &&
          stays[i].mapUrl == found[i].mapUrl && stays[i].priceInr == Some(draw(i))) &&
      (found == [] ==>
        stays == [Placeholder(lat, lon, NormaliseMood(mood), draw(0))] &&
        stays[0].address == "City Center" && StartsWith(stays[0].name, "Default"))
  {
  }

  /** The price band of every stay is the high one exactly for the relaxed
      and cultural moods, whatever case and padding the mood arrives in. */
  lemma StayPricesFollowMood(lat: real, lon: real, mood: string, places: Search, draw: nat -> int)
    requires forall i: nat :: InBand(draw(i), PriceBand(NormaliseMood(mood)))
    ensures var stays := Recommend(lat, lon, mood, places, draw).stays;
      forall i :: 0 <= i < |stays| ==>
        if NormaliseMood(mood) in ["relaxed", "cultural"] then 5000 <= stays[i].priceInr.value <= 25000
        else 800 <= stays[i].priceInr.value <= 7000
  {
  }

  /** The search half of `mood_stays`: the mood's categories, then the broad
      search when they found nothing. */
  method SearchStays(lat: real, lon: real, m: string, places: Search)
    returns (found: seq<Place>, searched: seq<seq<string>>)
    ensures found == (if PlacesOf(places(lat, lon, StayCategories(m))) != [] then PlacesOf(places(lat, lon, StayCategories(m)))
                      else PlacesOf(places(lat, lon, BroadCategories)))
    ensures searched == (if PlacesOf(places(lat, lon, StayCategories(m))) != [] then [StayCategories(m)]
                         else [StayCategories(m), BroadCategories])
  {
    var categories := StayCategories(m);
    searched := [categories];
    found := GeoapifyPlaces(places(lat, lon, categories));
    if found == [] {
      searched := searched + [BroadCategories];
      found := GeoapifyPlaces(places(lat, lon, BroadCategories));
    }
  }

  /** `mood_stays` after its outbound calls: pick band and categories, search,
      fall back to the broad search, stamp every result in place, fall back
      to the placeholder, and keep the first five. */
  method MoodStays(lat: real, lon: real, mood: string, places: Search, draw: nat -> int)
    returns (stays: seq<Place>, searched: seq<seq<string>>)
    requires forall i: nat :: InBand(draw(i), PriceBand(NormaliseMood(mood)))
    ensures Recommendation(stays, searched) == Recommend(lat, lon, mood, places, draw)
  {
    var m := NormaliseMood(mood);
    var found;
    found, searched := SearchStays(lat, lon, m, places);
    var records := new Place[|found|](i requires 0 <= i < |found| => found[i]);
    PriceInPlace(records, PriceBand(m), draw);
    var all := records[..];
    assert all == PriceAll(found, draw);
    if all == [] {
      var price := draw(0);
      var tier := if price < 2500 then Budget else if price < 10000 then MidRange else Luxury;
      all := [Place("Default " + Title(m) + " Stay (No Geoapify Results)", "City Center",
                    MapsSearch(lat, lon), Some(price), Some(tier))];
    }
    stays := Prefix(all, MaxStays);
  }
}
