/** The three outbound lookups, reduced to what they do with a decoded
    response: the geocoder (`geoapify_geocode`), the places search
    (`geoapify_places`) and the encyclopedia title search
    (`wikipedia_fallback`). A response is `None` when the request or its
    JSON decoding failed, and for the geocoder and the places search also
    when the status check failed; the title search has no status check. */
module Lookups {
  import opened Wrappers
  import opened Records

  // ---------------------------------------------------------------- geocoder

  /** The text the geocoder is asked for: the region biased to the country. */
  function GeocodeQuery(place: string): (q: string)
    ensures |q| == |place| + 7 && q[..|place|] == place
    ensures q[|place|..] == ", India"
  {
    place + ", India"
  }

  /** The coordinate extracted from a geocoder response: the first entry of a
      non-empty `results` list, else the swapped [lon, lat] pair of the first
      of a non-empty `features` list. A missing key on the chosen entry raises
      inside the try-block and gives `None`, as does a response with neither
      list. */
  function Geocode(response: Option<GeoResponse>): (c: Option<Coord>)
    ensures c.Some? <==>
      response.Some? &&
      (if response.value.results.Some? && response.value.results.value != [] then
         response.value.results.value[0].lat.Some? && response.value.results.value[0].lon.Some?
       else
         response.value.features.Some? && response.value.features.value != [] &&
         response.value.features.value[0].coordinates.Some? &&
         |response.value.features.value[0].coordinates.value| >= 2)
  {
    match response
    case None => None
    case Some(data) =>
      if data.results.Some? && data.results.value != [] then
        var first := data.results.value[0];
        if first.lat.Some? && first.lon.Some? then Some(Coord(first.lat.value, first.lon.value))
        else None
      else if data.features.Some? && data.features.value != [] then
        var coords := data.features.value[0].coordinates;
        if coords.Some? && |coords.value| >= 2 then Some(Coord(coords.value[1], coords.value[0]))
        else None
      else None
  }

  /** A non-empty `results` list decides the answer: `features` is never
      consulted then. */
  lemma GeocodePrefersResults(data: GeoResponse, other: Option<seq<Feature>>)
    requires data.results.Some? && data.results.value != []
    ensures Geocode(Some(data)) == Geocode(Some(data.(features := other)))
    ensures Geocode(Some(data)).Some? ==>
      Geocode(Some(data)).value == Coord(data.results.value[0].lat.value, data.results.value[0].lon.value)
  {
  }

  /** From a feature the coordinate is read swapped: geometry order is
      [longitude, latitude]. */
  lemma GeocodeSwapsGeometry(results: Option<seq<GeoResult>>, f: Feature, rest: seq<Feature>,
                             lon: real, lat: real, more: seq<real>)
    requires results.None? || results.value == []
    requires f.coordinates == Some([lon, lat] + more)
    ensures Geocode(Some(GeoResponse(results, Some([f] + rest)))) == Some(Coord(lat, lon))
  {
  }

  // ---------------------------------------------------------- places search

  /** `f.get("properties", {})` */
  function PropsOf(f: Feature): Props {
    f.properties.GetOr(NoProps)
  }

  /** A JSON number is truthy unless it is zero; absent or null is falsy. */
  predicate Truthy(x: Option<real>) {
    x.Some? && x.value != 0.0
  }

  /** The feature carries a truthy (non-empty) name and is kept. */
  predicate Named(f: Feature) {
    PropsOf(f).name.Some? && PropsOf(f).name.value != ""
  }

  /** `p.get("lat") or f["geometry"]["coordinates"][1]`; `None` when the
      geometry lookup raises. */
  function PickLat(f: Feature): Option<real> {
    if Truthy(PropsOf(f).lat) then PropsOf(f).lat
    else if f.coordinates.Some? && |f.coordinates.value| >= 2 then Some(f.coordinates.value[1])
    else None
  }

  /** `p.get("lon") or f["geometry"]["coordinates"][0]`; `None` when the
      geometry lookup raises. */
  function PickLon(f: Feature): Option<real> {
    if Truthy(PropsOf(f).lon) then PropsOf(f).lon
    else if f.coordinates.Some? && |f.coordinates.value| >= 1 then Some(f.coordinates.value[0])
    else None
  }

  /** Both coordinates of the feature can be read without raising. */
  predicate Resolvable(f: Feature) {
    PickLat(f).Some? && PickLon(f).Some?
  }

  /** The record built for one kept feature. */
  function Normalise(f: Feature): (p: Place)
    requires Named(f) && Resolvable(f)
    ensures p.name != "" && Unpriced(p)
    ensures p.name == PropsOf(f).name.value
    ensures PropsOf(f).formatted.Some? ==> p.address == PropsOf(f).formatted.value
    ensures PropsOf(f).formatted.None? ==> p.address == ""
    ensures p.mapUrl.MapsSearch?
    ensures Truthy(PropsOf(f).lat) ==> p.mapUrl.lat == PropsOf(f).lat.value
    ensures !Truthy(PropsOf(f).lat) ==>
              |f.coordinates.value| >= 2 && p.mapUrl.lat == f.coordinates.value[1]
    ensures Truthy(PropsOf(f).lon) ==> p.mapUrl.lon == PropsOf(f).lon.value
    ensures !Truthy(PropsOf(f).lon) ==>
              |f.coordinates.value| >= 1 && p.mapUrl.lon == f.coordinates.value[0]
  {
    Place(PropsOf(f).name.value, PropsOf(f).formatted.GetOr(""),
          MapsSearch(PickLat(f).value, PickLon(f).value), None, None)
  }

  /** A property coordinate of zero counts as missing: the geometry pair is
      read instead, swapped; the address defaults to the empty string. */
  lemma ZeroCoordinatesFallBackToGeometry(name: string, lon: real, lat: real)
    requires name != ""
    ensures var f := Feature(Some(Props(Some(name), None, Some(0.0), Some(0.0))), Some([lon, lat]));
            Named(f) && Resolvable(f) &&
            Normalise(f) == Place(name, "", MapsSearch(lat, lon), None, None)
  {
  }

  /** Every named feature can be normalised. */
  predicate WellFormed(feats: seq<Feature>) {
    forall i :: 0 <= i < |feats| && Named(feats[i]) ==> Resolvable(feats[i])
  }

  /** Reference definition of the output: the named features, in input
      order, each normalised. */
  function Kept(feats: seq<Feature>): (out: seq<Place>)
    requires WellFormed(feats)
    ensures |out| <= |feats|
    ensures forall p :: p in out ==> p.name != "" && Unpriced(p)
  {
    if feats == [] then []
    else
      assert WellFormed(feats[1..]) by {
        forall i | 0 <= i < |feats[1..]| && Named(feats[1..][i])
          ensures Resolvable(feats[1..][i])
        {
          assert feats[1..][i] == feats[i + 1];
        }
      }
      (if Named(feats[0]) then [Normalise(feats[0])] else []) + Kept(feats[1..])
  }

  /** The append loop of `geoapify_places`, one feature at a time from the
      front: a named feature whose coordinates cannot be read raises, and the
      whole call yields `None`. */
  function Scan(feats: seq<Feature>): (r: Option<seq<Place>>)
    ensures r.Some? ==> |r.value| <= |feats|
    ensures r.Some? ==> forall p :: p in r.value ==> p.name != "" && Unpriced(p)
  {
    if feats == [] then Some([])
    else
      var f := feats[|feats| - 1];
      match Scan(feats[..|feats| - 1])
      case None => None
      case Some(out) =>
        if !Named(f) then Some(out)
        else if !Resolvable(f) then None
        else Some(out + [Normalise(f)])
  }

  /** What `geoapify_places` returns for a response. A missing `features`
      key is the same as an empty list. */
  function PlacesOf(response: Option<seq<Feature>>): (out: seq<Place>)
    ensures response.None? ==> out == []
    ensures response.Some? ==> |out| <= |response.value|
    ensures forall p :: p in out ==> p.name != "" && Unpriced(p)
  {
    match response
    case None => []
    case Some(feats) =>
      match Scan(feats)
      case None => []
      case Some(out) => out
  }

  /** Both parts of a well-formed concatenation are well formed. */
  lemma WellFormedSplit(a: seq<Feature>, b: seq<Feature>)
    requires WellFormed(a + b)
    ensures WellFormed(a) && WellFormed(b)
  {
    assert forall i :: 0 <= i < |a| ==> a[i] == (a + b)[i];
    assert forall i :: 0 <= i < |b| ==> b[i] == (a + b)[|a| + i];
  }

  lemma {:induction false} KeptAppend(a: seq<Feature>, b: seq<Feature>)
    requires WellFormed(a + b)
    ensures WellFormed(a) && WellFormed(b)
    ensures Kept(a + b) == Kept(a) + Kept(b)
  {
    WellFormedSplit(a, b);
    if a != [] {
      var head := if Named(a[0]) then [Normalise(a[0])] else [];
      assert (a + b)[0] == a[0];
      assert (a + b)[1..] == a[1..] + b;
      KeptAppend(a[1..], b);
      assert Kept(a + b) == head + Kept(a[1..] + b);
      assert Kept(a) == head + Kept(a[1..]);
    } else {
      assert a + b == b;
    }
  }

  /** Once the loop has raised on a prefix, the whole call fails. */
  lemma {:induction false} ScanFailsOnward(feats: seq<Feature>, k: nat)
    requires k <= |feats| && Scan(feats[..k]) == None
    ensures Scan(feats) == None
    decreases |feats|
  {
    if k == |feats| {
      assert feats[..k] == feats;
    } else {
      var init := feats[..|feats| - 1];
      assert init[..k] == feats[..k];
      ScanFailsOnward(init, k);
    }
  }

  /** The loop succeeds exactly when every named feature has readable
      coordinates, and then its output is the named features, in order,
      normalised. */
  lemma {:induction false} ScanIsFilterMap(feats: seq<Feature>)
    ensures Scan(feats).Some? <==> WellFormed(feats)
    ensures WellFormed(feats) ==> Scan(feats) == Some(Kept(feats))
    decreases |feats|
  {
    if feats != [] {
      var init, f := feats[..|feats| - 1], feats[|feats| - 1];
      assert feats == init + [f];
      ScanIsFilterMap(init);
      assert forall i :: 0 <= i < |init| ==> init[i] == feats[i];
      if WellFormed(feats) {
        KeptAppend(init, [f]);
        var last := if Named(f) then [Normalise(f)] else [];
        assert [f][1..] == [];
        assert Kept([f]) == last + Kept([]) == last;
        assert Scan(init) == Some(Kept(init));
        if Named(f) {
          assert Resolvable(f);
          assert Scan(feats) == Some(Kept(init) + [Normalise(f)]);
        } else {
          assert Kept(init) + last == Kept(init);
        }
        calc {
          Scan(feats);
          Some(Kept(init) + last);
          Some(Kept(init) + Kept([f]));
          Some(Kept(feats));
        }
      } else if WellFormed(init) {
        assert Named(f) && !Resolvable(f);
      }
    }
  }

  /** `geoapify_places` after the HTTP call: walk the features, skip those
      without a name, read the coordinates from the properties or else from
      the geometry, and append the record; any exception inside the loop
      makes the call return the empty list. */
  method GeoapifyPlaces(response: Option<seq<Feature>>) returns (out: seq<Place>)
    ensures out == PlacesOf(response)
  {
    if response.None? {
      return [];
    }
    var feats := response.value;
    out := [];
    var i := 0;
    while i < |feats|
      invariant 0 <= i <= |feats|
      invariant Scan(feats[..i]) == Some(out)
    {
      var f := feats[i];
      assert feats[..i + 1][..i] == feats[..i] && feats[..i + 1][i] == f;
      var p := f.properties.GetOr(NoProps);
      if p.name.Some? && p.name.value != "" {
        var latp: real, lonp: real;
        if p.lat.Some? && p.lat.value != 0.0 {
          latp := p.lat.value;
        } else if f.coordinates.Some? && |f.coordinates.value| >= 2 {
          latp := f.coordinates.value[1];
        } else {
          ScanFailsOnward(feats, i + 1);
          return [];
        }
        if p.lon.Some? && p.lon.value != 0.0 {
          lonp := p.lon.value;
        } else if f.coordinates.Some? && |f.coordinates.value| >= 1 {
          lonp := f.coordinates.value[0];
        } else {
          ScanFailsOnward(feats, i + 1);
          return [];
        }
        out := out + [Place(p.name.value, p.formatted.GetOr(""), MapsSearch(latp, lonp), None, None)];
      }
      i := i + 1;
    }
    assert feats[..i] == feats;
  }

  /** The output of a places search on well-formed features is the named
      features in input order; on a malformed one it is empty. */
  lemma PlacesKeepNamedInOrder(feats: seq<Feature>)
    ensures WellFormed(feats) ==> PlacesOf(Some(feats)) == Kept(feats)
    ensures !WellFormed(feats) ==> PlacesOf(Some(feats)) == []
  {
    ScanIsFilterMap(feats);
  }

  // -------------------------------------------------- encyclopedia fallback

  /** The query text of the title search. */
  function WikiQuery(region: string): (q: string)
    ensures |q| == |region| + 29
    ensures q[..23] == "Tourist attractions in " && q[|q| - 6..] == " India"
    ensures q[23..|q| - 6] == region
  {
    "Tourist attractions in " + region + " India"
  }

  /** The record built from one page title. */
  function WikiEntry(region: string, title: string): Place {
    Place(title, region, WikiArticle(title), None, None)
  }

  /** `wikipedia_fallback` after the HTTP call: one record per page, in order,
      named by its title, addressed with the region and linked to the
      article; a page without a title raises and the call returns the empty
      list. */
  function WikiFallback(region: string, response: Option<seq<WikiPage>>): (r: seq<Place>)
    ensures response.None? ==> r == []
    ensures response.Some? && (exists i :: 0 <= i < |response.value| && response.value[i].title.None?) ==> r == []
    ensures response.Some? && (forall i :: 0 <= i < |response.value| ==> response.value[i].title.Some?) ==>
      |r| == |response.value| &&
      forall i :: 0 <= i < |r| ==>
        r[i].name == response.value[i].title.value && r[i].address == region &&
        r[i].mapUrl == WikiArticle(r[i].name) && Unpriced(r[i])
  {
    match response
    case None => []
    case Some(pages) =>
      if forall i :: 0 <= i < |pages| ==> pages[i].title.Some? then
        seq(|pages|, i requires 0 <= i < |pages| && pages[i].title.Some? => WikiEntry(region, pages[i].title.value))
      else []
  }
}
