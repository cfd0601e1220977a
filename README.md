# Trip planner core: stays, costs and result normalisation

This project models the decision-and-arithmetic layer of a trip-planning web
backend (`app2.py`). The backend takes a region, a number of days and a mood.
It geocodes the region and searches a places service for attractions, stays and
restaurants. Stays get a synthetic price and a tier, and a cost estimate is
built from their average price.

Every outbound call is a parameter of the model:

- The geocoder, the places search and the encyclopedia title search are
  functions from their query to a decoded response. A response is `None` when
  the request or its JSON decoding failed, and for the geocoder and the places
  search also when the status check failed. The title search has no status
  check: an error reply with a JSON body is decoded and its `pages` are used.
- The random draws are inputs: `stayDraw(i)` is the i-th price drawn by the
  recommender, and `travelDraw` is the estimator's travel amount. Each carries
  a precondition that it lies in the range the code draws it from.
- `plan_trip` returns the calls it made, in order, beside its response. This
  is how the model states which searches run and which do not.

Modules, one file each:

- `Wrappers`: `Option`.
- `Text`: `lower`, `strip`, `title` and `startswith`.
- `Records`: the JSON shapes and the returned records. A `map_url` is a `Link`
  value, not a formatted string.
- `Lookups`: `geoapify_geocode`, `geoapify_places` and `wikipedia_fallback`
  after their HTTP call.
- `Stays`: `mood_stays`.
- `Costs`: `estimate_cost`.
- `Planner`: `plan_trip`.

`geoapify_places` is an imperative loop that appends records (`GeoapifyPlaces`).
It is proved equal to `PlacesOf`. When every named feature has readable
coordinates, `PlacesOf` is in turn proved equal to a reference
filter-then-map (`Kept`). Otherwise the loop raises and the result is the
empty list. The pricing pass stamps an array of records in place
(`PriceInPlace`). `MoodStays` runs both and is proved equal to the pure
`Recommend`, which the orchestrator uses.

Quirks of `app2.py` that the model keeps:

- A geocoded latitude of exactly `0` is rejected like a failed geocode
  (`if not lat`).
- A property `lat`/`lon` of `0` counts as missing, so the geometry pair is read
  instead.
- A named feature whose coordinates cannot be read raises inside the loop of
  `geoapify_places`. The whole call then returns the empty list, not just that
  feature's slot.
- The average price takes the first stay's price whenever that stay's name
  starts with "Default". This is not limited to the synthesised placeholder, so
  a real place named "Default Inn" also takes that branch
  (`DefaultNamedFirstStayIsNotAveraged`).
- `plan_trip` lower-cases the mood but does not strip it. So `" Spiritual"`
  searches sights and parks as attractions, while `mood_stays` strips it and
  searches lodges (`PaddedMoodSplitsPolicies`).
- Category lists are ordered, and a search is keyed by the list in that order,
  as it is joined in order into the search query.

## Model

| member | source | states |
|---|---|---|
| `Text.Strip` | app2.py:82 | `strip()` leaves a result that neither starts nor ends with whitespace |
| `Text.StripDropsOnlyOuterSpace` | app2.py:82 | the stripped mood is the slice of the input between its leading and its trailing whitespace: every character dropped before or after it is whitespace |
| `Text.LowerMapsOnlyUpper` | app2.py:82 | `lower()` keeps the length, keeps every character that is not an upper-case letter, and maps each upper-case letter to its own lower-case letter |
| `Stays.NormaliseMood` | app2.py:82 | `mood.lower().strip()` neither starts nor ends with whitespace; with `Text.LowerMapsOnlyUpper` and `Text.StripDropsOnlyOuterSpace` its content is the lower-cased mood between its outer whitespace |
| `Stays.NormaliseMoodHasNoUpper` | app2.py:82 | the normalised mood holds no upper-case letter |
| `Stays.ShoutedPaddedMoodIsRelaxed` | app2.py:82-86 | the mood " RELAXED\n" normalises to "relaxed" and gets the 5000-25000 band |
| `Stays.NormaliseMoodAbsorbsLower` | app2.py:798 | lower-casing the mood in `plan_trip` before `mood_stays` lower-cases and strips it again gives the same normalised mood |
| `Lookups.GeocodeQuery` | app2.py:22 | the geocoder is asked for the place followed by ", India" |
| `Lookups.Geocode` | app2.py:23-34 | a coordinate is returned exactly when the response decoded and either its non-empty `results` list has `lat` and `lon` on its first entry, or (with no results) its non-empty `features` list has a coordinate pair on its first entry; otherwise absent |
| `Lookups.GeocodePrefersResults` | app2.py:27-28 | a non-empty `results` list decides the answer whatever `features` holds, and the answer is its first entry's `lat`/`lon` |
| `Lookups.GeocodeSwapsGeometry` | app2.py:29-31 | from a feature the [lon, lat] geometry pair is read swapped |
| `Lookups.Normalise` | app2.py:53-64 | a kept record is named by the properties' `name` (non-empty), addressed by `formatted` or "" when absent, and linked to the property `lat`/`lon` when truthy, else to geometry `[1]`/`[0]`; it carries no `price_inr` or `tier` |
| `Lookups.ZeroCoordinatesFallBackToGeometry` | app2.py:54-55 | property coordinates of 0 count as missing and the swapped geometry pair is used; a missing `formatted` gives the address "" |
| `Lookups.Kept` | app2.py:50-64 | the reference output has no more entries than features, and each has a non-empty name and no price or tier |
| `Lookups.Scan` | app2.py:49-65 | when the loop completes, its output has at most one record per feature, each with a non-empty name and no price or tier |
| `Lookups.PlacesOf` | app2.py:45-68 | a failed request gives `[]`; otherwise the output has at most one record per feature, each named and unpriced |
| `Lookups.ScanFailsOnward` | app2.py:66-68 | once the loop has raised on some feature, the whole call fails whatever follows |
| `Lookups.ScanIsFilterMap` | app2.py:49-65 | the loop succeeds exactly when every named feature has readable coordinates, and then yields the named features in input order, normalised |
| `Lookups.GeoapifyPlaces` | app2.py:45-68 | the imperative loop returns exactly `PlacesOf` of the response: empty on a failed request or a raising feature, else the appended records |
| `Lookups.PlacesKeepNamedInOrder` | app2.py:49-68 | on well-formed features the search returns the named ones in order; on a malformed one it returns the empty list |
| `Lookups.WikiQuery` | app2.py:73 | the title search asks for "Tourist attractions in " followed by the region and " India" |
| `Lookups.WikiFallback` | app2.py:76-79 | a failed request, or any page without a title, gives the empty list; otherwise there is one record per page, in order, named by the title, addressed with the region and linked to the article |
| `Stays.MoodPolicyTable` | app2.py:85-99 | relaxed and cultural get the 5000-25000 band, and every other mood gets 800-7000; each of the four known moods gets its category list, and any other mood gets `["accommodation.hotel"]` |
| `Stays.PriceBand` | app2.py:85-96 | the band is 5000-25000 exactly for "relaxed" and "cultural", and 800-7000 exactly for every other mood |
| `Stays.StayCategories` | app2.py:87-99 | the category list searched is never empty, and a mood missing from the dictionaries gets `["accommodation.hotel"]` |
| `Stays.TierOf` | app2.py:127 | Budget iff price < 2500, Mid-range iff 2500 <= price < 10000, and Luxury iff price >= 10000 |
| `Stays.TierLabels` | app2.py:116-121 | the record's `tier` string is "Budget" iff price < 2500, "Mid-range" iff 2500 <= price < 10000, and "Luxury" iff price >= 10000 |
| `Stays.TierMonotone` | app2.py:116-121 | a dearer stay is never in a cheaper tier |
| `Stays.BandTiers` | app2.py:85-96 | a stay priced in the high band is never Budget, and one in the low band is never Luxury |
| `Stays.Stamp` | app2.py:113-121 | pricing a record keeps its name, address and link, and sets `price_inr` to the draw and `tier` to that price's tier |
| `Stays.Placeholder` | app2.py:124-134 | the placeholder's name starts with "Default", its address is "City Center", its link is the query point, and its tier is the tier of its price |
| `Stays.Prefix` | app2.py:136 | `stays[:5]` keeps the first min(n, length) entries unchanged |
| `Stays.PriceInPlace` | app2.py:111-121 | the in-place loop gives record i the i-th draw as `price_inr` and that price's tier, changes no other key, and every price lies in the band |
| `Stays.PriceAll` | app2.py:111-121 | the pricing pass keeps the length, and record i keeps its name, address and link and gets draw i as `price_inr` with that price's tier |
| `Stays.Recommend` | app2.py:81-136 | the recommender returns between 1 and 5 stays, each priced in the mood's band with the tier of its price |
| `Stays.BroadSearchOnlyWhenPrimaryEmpty` | app2.py:103-108 | the mood's categories are searched first; the broad `["accommodation"]` search runs second, exactly when the first found nothing |
| `Stays.StaysArePricedPrefix` | app2.py:111-136 | with candidates, the stays are the first min(5, n) candidates in order, with name, address and link unchanged and the i-th draw as price; without, they are exactly the one placeholder priced from the first draw |
| `Stays.StayPricesFollowMood` | app2.py:82-96 | every stay price lies in [5000, 25000] when the lower-cased, stripped mood is relaxed or cultural, and in [800, 7000] otherwise |
| `Stays.SearchStays` | app2.py:99-108 | the candidates are the mood-category results when these are non-empty, else the broad `["accommodation"]` results; the searched lists are the mood's, then the broad one exactly when the first was empty |
| `Stays.MoodStays` | app2.py:81-136 | the imperative recommender returns exactly the stays and the searches of `Recommend` |
| `Costs.EstimateCost` | app2.py:138-146 | the stay amount is the average price, travel lies in [500, 2000], and the total is the daily sum times the days |
| `Costs.TotalAddsOverDays` | app2.py:145 | the total is additive in the number of days |
| `Costs.TotalBounds` | app2.py:139-145 | with food the rounding of 0.3 times the average, ten times the total lies between days·(13·avg + 4995) and days·(13·avg + 20005) |
| `Planner.RequestMood` | app2.py:798 | the mood defaults to "relaxed", keeps its length and holds no upper-case letter; `Text.LowerMapsOnlyUpper` gives each character |
| `Planner.RequestDays` | app2.py:798 | the days default to 3 and are otherwise the request's value |
| `Planner.AttractionCategories` | app2.py:803-806 | places of worship iff the mood is exactly "spiritual", else tourist attractions and parks |
| `Planner.AveragePrice` | app2.py:816-822 | no stays give 4000, and a first stay named "Default…" gives its own price |
| `Planner.TruncDivBounds` | app2.py:820 | `int(a / n)` is the integer next to a/n on the side of zero |
| `Planner.AverageIsTruncatedMean` | app2.py:819-820 | otherwise the average is the mean of the stay prices truncated toward zero: n·avg ≤ sum < n·(avg + 1) for a non-negative sum, and the mirror image for a negative one |
| `Planner.AverageWithinBand` | app2.py:817-822 | for non-empty stays priced in a non-negative band, the average fed to the estimator lies in that band on either branch |
| `Planner.SingleStayAverage` | app2.py:818-822 | for a single stay both branches give its own price |
| `Planner.DefaultNamedFirstStayIsNotAveraged` | app2.py:819-822 | a first stay named "Default Inn" at 5000 next to one at 7000 gives the average 5000, not the mean 6000 |
| `Planner.Proceed` | app2.py:803-833 | after a usable geocode the response is a plan that echoes the region, coordinates, lower-cased mood and days, with 1 to 5 stays; the attraction search is the first call and the restaurant search the last |
| `Planner.PlanTrip` | app2.py:796-833 | the request is rejected with 400 "Could not geocode region" iff the geocode is absent or its latitude is 0, and then the geocode is the only call; otherwise the plan has 1 to 5 stays, the geocode comes first and the restaurant search last |
| `Planner.PlanFollowsRecommender` | app2.py:799-831 | a plan reports the geocoded coordinate, exactly the recommender's stays for it (each priced in the band of the request's mood with the tier of its price), and exactly the restaurant search's results |
| `Planner.EquatorIsRejected` | app2.py:800 | a geocoded latitude of 0 rejects the request |
| `Planner.ProceedSearchesAttractionsFirst` | app2.py:808 | the title search follows the attraction search exactly when that search was empty, and then supplies the attractions |
| `Planner.AttractionsFollowMood` | app2.py:803-808 | in a plan the second call is the attraction search, with places of worship iff the mood is "spiritual"; the title search is the third call iff the attraction search was empty; the attractions are the search results or the title-search records |
| `Planner.PaddedMoodSplitsPolicies` | app2.py:798-806 | the mood " Spiritual" searches tourist attractions and parks, while its stays are searched as lodges and guest houses |
| `Planner.CostFollowsStays` | app2.py:816-824 | the estimate's stay amount is the average of the returned stays and lies in the band of the request's mood; travel lies in [500, 2000]; the estimate is `estimate_cost` of the days, that amount, its rounded food amount and the travel draw |
| `Planner.EverySearchEmpty` | app2.py:808-824 | when every places search is empty, the plan holds exactly the placeholder stay priced from the first draw, with address "City Center"; its attractions come from the title search, it has no restaurants, and the stay amount is the placeholder's price |

## Left out

- The HTTP requests, their timeouts, `raise_for_status`, JSON decoding and the `except` handlers. Each becomes an `Option` response; `None` is the failure path. The search radius (15000) and limit (30) are not part of a search's key.
- JSON values of an unexpected type are not modelled: a string `lat`, a `null` properties object, a non-list `features`. Absent and `null` keys are both `None`.
- Flask routing, `request.get_json`, `jsonify`, `make_response` and the API-key constant. A request body without `region` or a non-numeric `days` is also left out: `region` is always a string and `days` an optional integer.
- The embedded HTML/CSS/JS page, `haversine_km` (floating-point trigonometry, unused by the request path) and the `print` logging.
- `random.randint` itself. Each draw is an input with a range precondition.
- The float rounding `round(avg_price*0.3)`. It is the opaque `Env.roundFood`; `Costs.TotalBounds` assumes only that it is within half a rupee of 0.3 times the average.
- The float division in `int(sum/len)` is modelled as exact division truncated toward zero. For at most five prices of at most 25000 the float quotient truncates to the same integer.
- Coordinates are `real` values, and map links are `Link` values rather than formatted URL strings.
- Text.Strip: `lower`, `title` and `strip` follow Python only on ASCII letters and on whitespace below U+0100. Other Unicode case mappings and spaces are not modelled.
