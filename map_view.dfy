/** The map view: which listings get a marker, where the markers go, and how
    the marker icon scales with the zoom level. Coordinates are reals; the
    parsing of string coordinates and the NaN and infinity tests of the
    source have no counterpart here. */
module MapView {
  import opened Common
  import opened Types
  import ListingCard

  /** The map's initial centre and zoom. */
  const DefaultCenter := Location(37.4275, -122.1697)
  const InitialZoom: real := 15.0

  /** `isValidCoordinate`: latitude within [-90, 90] and longitude within
      [-180, 180], bounds included. */
  predicate IsValidCoordinate(lat: real, lng: real)
  {
    -90.0 <= lat <= 90.0 && -180.0 <= lng <= 180.0
  }

  predicate HasValidLocation(l: Listing)
  {
    IsValidCoordinate(l.location.lat, l.location.lng)
  }

  /** `validListings`. */
  function ValidListings(listings: seq<Listing>): seq<Listing>
  {
    Filter(listings, HasValidLocation)
  }

  /** The listings that get a marker are, in order, those with valid
      coordinates; filtering them again changes nothing. */
  lemma ValidListingsSelectsValid(listings: seq<Listing>)
    ensures IsSubsequence(ValidListings(listings), listings)
    ensures forall l :: l in ValidListings(listings) <==> l in listings && HasValidLocation(l)
    ensures ValidListings(ValidListings(listings)) == ValidListings(listings)
  {
    FilterIsSubsequence(listings, HasValidLocation);
    forall l ensures l in ValidListings(listings) <==> l in listings && HasValidLocation(l) {
      FilterMembership(listings, HasValidLocation, l);
    }
    FilterIdempotent(listings, HasValidLocation);
  }

  /** A marker: its React key and its position. */
  datatype Marker = Marker(key: string, lat: real, lng: real)

  /** The element rendered for one listing: `null` (`None`) when the
      re-check of its coordinates fails. */
  function MarkerFor(l: Listing): (m: Option<Marker>)
    ensures m.Some? <==> HasValidLocation(l)
    ensures m.Some? ==> m.value == Marker(l.id, l.location.lat, l.location.lng)
  {
    if IsValidCoordinate(l.location.lat, l.location.lng)
    then Some(Marker(l.id, l.location.lat, l.location.lng))
    else None
  }

  /** The markers on the map: the non-null elements of
      `validListings.map(...)`, in order. */
  function Markers(listings: seq<Listing>): (ms: seq<Marker>)
    ensures |ms| <= |listings|
  {
    if listings == [] then []
    else match MarkerFor(listings[0])
      case Some(m) => [m] + Markers(listings[1..])
      case None => Markers(listings[1..])
  }

  /** Over listings whose coordinates are all valid, the re-check rejects
      none: one marker per listing, in order, at its position, keyed by its
      id. */
  lemma {:induction false} MarkersOfValid(listings: seq<Listing>)
    requires forall i :: 0 <= i < |listings| ==> HasValidLocation(listings[i])
    ensures |Markers(listings)| == |listings|
    ensures forall i :: 0 <= i < |listings| ==>
              Markers(listings)[i] == Marker(listings[i].id, listings[i].location.lat, listings[i].location.lng)
  {
    if listings != [] {
      MarkersOfValid(listings[1..]);
    }
  }

  /** Exactly one marker per valid listing. */
  lemma MarkerPerValidListing(listings: seq<Listing>)
    ensures var vs := ValidListings(listings);
            |Markers(vs)| == |vs| &&
            forall i :: 0 <= i < |vs| ==> Markers(vs)[i] == Marker(vs[i].id, vs[i].location.lat, vs[i].location.lng)
  {
    MarkersOfValid(ValidListings(listings));
  }

  function Min(a: real, b: real): real { if a < b then a else b }
  function Max(a: real, b: real): real { if a < b then b else a }

  /** The icon scale `max(0.5, min(1, zoom / 14))`. */
  function IconScale(zoom: real): (s: real)
    ensures 0.5 <= s <= 1.0
    ensures 7.0 <= zoom <= 14.0 ==> s == zoom / 14.0
    ensures zoom <= 7.0 ==> s == 0.5
    ensures zoom >= 14.0 ==> s == 1.0
  {
    Max(0.5, Min(1.0, zoom / 14.0))
  }

  /** Zooming in never shrinks the icons. */
  lemma IconScaleMonotone(z1: real, z2: real)
    requires z1 <= z2
    ensures IconScale(z1) <= IconScale(z2)
  {
  }

  /** `hasImage`: the icon shows the first image exactly when there is one. */
  function HasImage(images: seq<string>): (b: bool)
    ensures b <==> images != []
  {
    |images| > 0
  }

  /** The marker icon and the card decide differently on an image: exactly
      when the first image is the empty string, the icon draws an image and
      the card the placeholder. Otherwise both show `images[0]`, or neither
      shows an image. */
  lemma MapAndCardDisagree(images: seq<string>)
    ensures HasImage(images) && ListingCard.CardImage(images).None? <==> images != [] && images[0] == ""
    ensures ListingCard.CardImage(images).Some? ==> HasImage(images) && ListingCard.CardImage(images).value == images[0]
    ensures !HasImage(images) ==> ListingCard.CardImage(images).None?
  {
  }

  /** The map's own state: the zoom level reported by the last `zoomend`. */
  class MapState {
    var currentZoom: real

    constructor ()
      ensures currentZoom == InitialZoom && IconScale(currentZoom) == 1.0
    {
      currentZoom := InitialZoom;
    }

    /** The zoom handler. */
    method OnZoomEnd(zoom: real)
      modifies this
      ensures currentZoom == zoom
    {
      currentZoom := zoom;
    }

    /** The scale the icons are drawn at now. */
    method CurrentScale() returns (s: real)
      ensures 0.5 <= s <= 1.0
      ensures s == IconScale(currentZoom)
    {
      s := IconScale(currentZoom);
    }
  }
}
