/** The JSON shapes the trip planner reads from its three outbound services,
    and the records it returns to the browser. A JSON key that is absent or
    null is `None`. */
module Records {
  import opened Wrappers

  /** The `properties` object of a places-search feature. */
  datatype Props = Props(name: Option<string>, formatted: Option<string>,
                         lat: Option<real>, lon: Option<real>)

  const NoProps := Props(None, None, None, None)

  /** One GeoJSON feature: its `properties` (absent means `{}`) and its
      geometry's `coordinates` array, ordered [longitude, latitude]; `None`
      when the geometry or its coordinates are missing. */
  datatype Feature = Feature(properties: Option<Props>, coordinates: Option<seq<real>>)

  /** One entry of a geocoder `results` list. */
  datatype GeoResult = GeoResult(lat: Option<real>, lon: Option<real>)

  /** A decoded geocoder response: its `results` and `features` keys. */
  datatype GeoResponse = GeoResponse(results: Option<seq<GeoResult>>,
                                     features: Option<seq<Feature>>)

  /** One hit of the encyclopedia title search. */
  datatype WikiPage = WikiPage(title: Option<string>)

  datatype Coord = Coord(lat: real, lon: real)

  /** A `map_url`: a maps search centred on a point
      (`https://www.google.com/maps/search/?api=1&query={lat},{lon}`) or an
      encyclopedia article (`https://en.wikipedia.org/wiki/{title}`). */
  datatype Link = MapsSearch(lat: real, lon: real) | WikiArticle(title: string)

  /** A stay's price bucket. */
  datatype Tier = Budget | MidRange | Luxury {
    /** The `tier` string of the JSON record. */
    function Label(): (s: string)
      ensures s in ["Budget", "Mid-range", "Luxury"]
      ensures this == Budget <==> s == "Budget"
      ensures this == MidRange <==> s == "Mid-range"
    {
      match this
      case Budget => "Budget"
      case MidRange => "Mid-range"
      case Luxury => "Luxury"
    }
  }

  /** A result record as the planner returns it: `name`, `address`,
      `map_url`, and for stays the two keys the pricing pass adds,
      `price_inr` and `tier`. */
  datatype Place = Place(name: string, address: string, mapUrl: Link,
                         priceInr: Option<int>, tier: Option<Tier>)

  predicate Unpriced(p: Place) {
    p.priceInr.None? && p.tier.None?
  }
}
