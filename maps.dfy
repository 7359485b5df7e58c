/**
 * The Google Maps links of a place page: a search link (the place's own
 * link when it has one) and a directions link that always starts at the
 * hotel.
 */
module Maps {
  import opened Wrappers
  import opened Text
  import opened Js
  import opened Collections
  import opened Places

  /** `HOTEL_COORDS` of the Castro's Park Hotel. */
  const HotelLat: real := -16.6799
  const HotelLng: real := -49.254

  const SearchBase := "https://www.google.com/maps/search/"
  const DirectionsBase := "https://www.google.com/maps/dir/"

  /** The query when a place has neither coordinates nor name nor address. */
  const DefaultQuery := "Goiânia"

  /**
   * `new URL(base)` after `searchParams.set("api", "1")`, as text, followed
   * by the name of the next parameter; `encode` is the form encoding of
   * `URLSearchParams`, left abstract.
   */
  function UrlPrefix(base: string, name: string, encode: string -> string): string {
    base + "?api=" + encode("1") + "&" + name + "="
  }

  /** `` `${lat},${lng}` `` */
  function Coordinates(env: Env, lat: real, lng: real): string {
    env.numberText(lat) + "," + env.numberText(lng)
  }

  /** `[name, address].filter(Boolean).join(" ") || "Goiânia"` */
  function NameQuery(p: Place): (q: string)
    ensures q != ""
    ensures p.name != "" && p.address != "" ==> q == p.name + " " + p.address
    ensures p.name != "" && p.address == "" ==> q == p.name
    ensures p.name == "" && p.address != "" ==> q == p.address
    ensures p.name == "" && p.address == "" ==> q == DefaultQuery
  {
    var parts := Compact([p.name, p.address]);
    assert [p.name, p.address][1..] == [p.address];
    assert Compact([p.address]) == (if p.address != "" then [p.address] else []) + Compact([]);
    assert parts == (if p.name != "" then [p.name] else []) + (if p.address != "" then [p.address] else []);
    var joined := Join(parts, " ");
    assert |parts| == 2 ==> joined == parts[0] + " " + Join(parts[1..], " ");
    if joined != "" then joined else DefaultQuery
  }

  /** Where a place is, as a query: its coordinates when both are finite, else its name and address. */
  function PlaceQuery(env: Env, p: Place): string {
    if p.latitude.Some? && p.longitude.Some? then Coordinates(env, p.latitude.value, p.longitude.value)
    else NameQuery(p)
  }

  /** `getGoogleMapsUrl(place)` */
  function GoogleMapsUrl(env: Env, p: Place, encode: string -> string): string {
    if Truthy(p.sourceUrl) then p.sourceUrl.value
    else UrlPrefix(SearchBase, "query", encode) + encode(PlaceQuery(env, p))
  }

  /** The directions link up to its destination: it depends on no place. */
  function DirectionsFromHotelPrefix(env: Env, encode: string -> string): string {
    UrlPrefix(DirectionsBase, "origin", encode) + encode(Coordinates(env, HotelLat, HotelLng)) + "&destination="
  }

  /** `getDirectionsUrl(place)` */
  function DirectionsUrl(env: Env, p: Place, encode: string -> string): string {
    DirectionsFromHotelPrefix(env, encode) + encode(PlaceQuery(env, p))
  }

  /** A place's own link is returned verbatim, and the directions link never uses it. */
  lemma SourceUrlWins(env: Env, p: Place, encode: string -> string, link: Option<string>)
    ensures Truthy(link) ==> GoogleMapsUrl(env, p.(sourceUrl := link), encode) == link.value
    ensures DirectionsUrl(env, p.(sourceUrl := link), encode) == DirectionsUrl(env, p, encode)
  {
  }

  /**
   * Where a place is: "lat,lng" when both coordinates are finite, else its
   * name and address; never empty.
   */
  lemma PlaceQueryFacts(env: Env, p: Place)
    ensures PlaceQuery(env, p) != ""
    ensures p.latitude.Some? && p.longitude.Some? ==>
            PlaceQuery(env, p) == env.numberText(p.latitude.value) + "," + env.numberText(p.longitude.value)
    ensures !(p.latitude.Some? && p.longitude.Some?) ==> PlaceQuery(env, p) == NameQuery(p)
  {
  }

  /**
   * Without its own link, a place's search link and its directions link
   * point at the same query; the directions always start at the hotel.
   */
  lemma LinksAgree(env: Env, p: Place, encode: string -> string)
    ensures DirectionsFromHotelPrefix(env, encode) <= DirectionsUrl(env, p, encode)
    ensures DirectionsUrl(env, p, encode)[|DirectionsFromHotelPrefix(env, encode)|..] == encode(PlaceQuery(env, p))
    ensures !Truthy(p.sourceUrl) ==>
            GoogleMapsUrl(env, p, encode) == UrlPrefix(SearchBase, "query", encode) + encode(PlaceQuery(env, p))
  {
  }
}
