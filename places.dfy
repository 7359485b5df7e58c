/**
 * The place record every script reads and writes (the `Place` shape of the
 * catalogue plus the fields the scripts add), and the environment values the
 * scripts take from the outside world.
 *
 * Conventions: a `string` field holds `""` where the source has `undefined`,
 * `null` or `""` and only tests truthiness; an `Option` field keeps `null`
 * apart from a present value. Numbers are reals: the records come from JSON,
 * which has no NaN or infinities.
 */
module Places {
  import opened Wrappers

  datatype Place = Place(
    id: string,
    sourceId: string,
    name: string,
    category: string,
    rating: real,
    reviewCount: real,
    priceLevel: real,
    priceText: Option<string>,
    description: string,
    image: Option<string>,
    address: string,
    latitude: Option<real>,
    longitude: Option<real>,
    distanceKm: Option<real>,
    phone: Option<string>,
    website: Option<string>,
    email: Option<string>,
    hours: Option<seq<string>>,
    tags: seq<string>,
    sourceUrl: Option<string>,
    openStatusCategory: Option<string>,
    openStatusText: Option<string>,
    menuUrl: Option<string>,
    categories: seq<string>,
    gallery: Option<seq<string>>,
    highlights: Option<seq<string>>,
    notes: Option<string>,
    originQueries: seq<string>,
    subcategories: Option<seq<string>>,
    enrichedAt: Option<string>,
    apifyEnrichedAt: Option<string>,
    discoveredAt: Option<string>,
    hotelScore: real,
    hotelRecommended: bool
  )

  /** A record whose fields are all absent except its id; normalizers fill in the rest. */
  function Blank(id: string): Place {
    Place(id, "", "", "", 0.0, 0.0, 0.0, None, "", None, "", None, None, None, None, None, None, None,
          [], None, None, None, None, [], None, None, None, [], None, None, None, None, 0.0, false)
  }

  /** The rating the deduplicating loops compare. */
  function RatingOf(p: Place): real {
    p.rating
  }

  /**
   * One entry of an overrides file: the fields it sets (`None` where the
   * object has no such key), the lookup keys included.
   */
  datatype Patch = Patch(
    id: Option<string>,
    sourceId: Option<string>,
    name: Option<string>,
    category: Option<string>,
    rating: Option<real>,
    reviewCount: Option<real>,
    description: Option<string>,
    address: Option<string>,
    image: Option<string>,
    latitude: Option<real>,
    longitude: Option<real>,
    phone: Option<string>,
    website: Option<string>,
    tags: Option<seq<string>>,
    gallery: Option<seq<string>>,
    highlights: Option<seq<string>>,
    notes: Option<string>
  )

  /** `{}`: an override object with no keys. */
  const EmptyPatch := Patch(None, None, None, None, None, None, None, None, None, None, None, None, None, None, None, None, None)

  /** `overrides[first] || overrides[second]`: an entry is an object, so it is truthy. */
  function LookupOverride<T>(overrides: map<string, T>, first: string, second: string): (r: Option<T>)
    ensures first in overrides ==> r == Some(overrides[first])
    ensures first !in overrides && second in overrides ==> r == Some(overrides[second])
    ensures r.None? <==> first !in overrides && second !in overrides
  {
    if first in overrides then Some(overrides[first])
    else if second in overrides then Some(overrides[second])
    else None
  }

  /** The lookup keys of the patch over the record. */
  function PatchKeys(p: Place, ov: Patch): (r: Place)
    ensures r.id == (if ov.id.Some? then ov.id.value else p.id)
    ensures r.sourceId == (if ov.sourceId.Some? then ov.sourceId.value else p.sourceId)
    ensures r == p.(id := r.id, sourceId := r.sourceId)
  {
    p.(id := ov.id.GetOr(p.id), sourceId := ov.sourceId.GetOr(p.sourceId))
  }

  /** Name, category and scores of the patch over the record. */
  function PatchScores(p: Place, ov: Patch): (r: Place)
    ensures r.name == (if ov.name.Some? then ov.name.value else p.name)
    ensures r.category == (if ov.category.Some? then ov.category.value else p.category)
    ensures r.rating == (if ov.rating.Some? then ov.rating.value else p.rating)
    ensures r.reviewCount == (if ov.reviewCount.Some? then ov.reviewCount.value else p.reviewCount)
    ensures r == p.(name := r.name, category := r.category, rating := r.rating, reviewCount := r.reviewCount)
  {
    p.(name := ov.name.GetOr(p.name), category := ov.category.GetOr(p.category),
       rating := ov.rating.GetOr(p.rating), reviewCount := ov.reviewCount.GetOr(p.reviewCount))
  }

  /** Description, address, image, position and contacts of the patch over the record. */
  function PatchDetails(p: Place, ov: Patch): (r: Place)
    ensures r.description == (if ov.description.Some? then ov.description.value else p.description)
    ensures r.address == (if ov.address.Some? then ov.address.value else p.address)
    ensures r.image == (if ov.image.Some? then ov.image else p.image)
    ensures r.latitude == (if ov.latitude.Some? then ov.latitude else p.latitude)
    ensures r.longitude == (if ov.longitude.Some? then ov.longitude else p.longitude)
    ensures r.phone == (if ov.phone.Some? then ov.phone else p.phone)
    ensures r.website == (if ov.website.Some? then ov.website else p.website)
    ensures r == p.(description := r.description, address := r.address, image := r.image, latitude := r.latitude,
                    longitude := r.longitude, phone := r.phone, website := r.website)
  {
    p.(description := ov.description.GetOr(p.description), address := ov.address.GetOr(p.address),
       image := if ov.image.Some? then ov.image else p.image,
       latitude := if ov.latitude.Some? then ov.latitude else p.latitude,
       longitude := if ov.longitude.Some? then ov.longitude else p.longitude,
       phone := if ov.phone.Some? then ov.phone else p.phone,
       website := if ov.website.Some? then ov.website else p.website)
  }

  /** Tags, gallery, highlights and notes of the patch over the record. */
  function PatchLists(p: Place, ov: Patch): (r: Place)
    ensures r.tags == (if ov.tags.Some? then ov.tags.value else p.tags)
    ensures r.gallery == (if ov.gallery.Some? then ov.gallery else p.gallery)
    ensures r.highlights == (if ov.highlights.Some? then ov.highlights else p.highlights)
    ensures r.notes == (if ov.notes.Some? then ov.notes else p.notes)
    ensures r == p.(tags := r.tags, gallery := r.gallery, highlights := r.highlights, notes := r.notes)
  {
    p.(tags := ov.tags.GetOr(p.tags), gallery := if ov.gallery.Some? then ov.gallery else p.gallery,
       highlights := if ov.highlights.Some? then ov.highlights else p.highlights,
       notes := if ov.notes.Some? then ov.notes else p.notes)
  }

  /**
   * `{ ...p, ...ov }`: each key of the patch replaces the field, every field
   * the patch does not name is kept.
   */
  function ApplyPatch(p: Place, ov: Patch): (r: Place)
    ensures r.id == (if ov.id.Some? then ov.id.value else p.id)
    ensures r.sourceId == (if ov.sourceId.Some? then ov.sourceId.value else p.sourceId)
    ensures r.name == (if ov.name.Some? then ov.name.value else p.name)
    ensures r.category == (if ov.category.Some? then ov.category.value else p.category)
    ensures r.rating == (if ov.rating.Some? then ov.rating.value else p.rating)
    ensures r.reviewCount == (if ov.reviewCount.Some? then ov.reviewCount.value else p.reviewCount)
    ensures r.description == (if ov.description.Some? then ov.description.value else p.description)
    ensures r.address == (if ov.address.Some? then ov.address.value else p.address)
    ensures r.image == (if ov.image.Some? then ov.image else p.image)
    ensures r.latitude == (if ov.latitude.Some? then ov.latitude else p.latitude)
    ensures r.longitude == (if ov.longitude.Some? then ov.longitude else p.longitude)
    ensures r.phone == (if ov.phone.Some? then ov.phone else p.phone)
    ensures r.website == (if ov.website.Some? then ov.website else p.website)
    ensures r.tags == (if ov.tags.Some? then ov.tags.value else p.tags)
    ensures r.gallery == (if ov.gallery.Some? then ov.gallery else p.gallery)
    ensures r.highlights == (if ov.highlights.Some? then ov.highlights else p.highlights)
    ensures r.notes == (if ov.notes.Some? then ov.notes else p.notes)
    ensures r.priceLevel == p.priceLevel && r.priceText == p.priceText && r.distanceKm == p.distanceKm
    ensures r.email == p.email && r.hours == p.hours && r.sourceUrl == p.sourceUrl && r.menuUrl == p.menuUrl
    ensures r.openStatusCategory == p.openStatusCategory && r.openStatusText == p.openStatusText
    ensures r.categories == p.categories && r.originQueries == p.originQueries && r.subcategories == p.subcategories
    ensures r.enrichedAt == p.enrichedAt && r.apifyEnrichedAt == p.apifyEnrichedAt && r.discoveredAt == p.discoveredAt
    ensures r.hotelScore == p.hotelScore && r.hotelRecommended == p.hotelRecommended
  {
    PatchLists(PatchDetails(PatchScores(PatchKeys(p, ov), ov), ov), ov)
  }

  /** Spreading the same patch twice is spreading it once. */
  lemma PatchTwice(p: Place, ov: Patch)
    ensures ApplyPatch(ApplyPatch(p, ov), ov) == ApplyPatch(p, ov)
  {
  }

  /**
   * What the scripts read from outside: the clock (`Date.now()` and the ISO
   * time of the run), the haversine distance in kilometres from the hotel
   * (-16.6799, -49.254) to a point, and JavaScript's rendering of a number
   * in a template literal.
   */
  datatype Env = Env(
    nowMs: nat,
    nowIso: string,
    distanceFromHotel: (real, real) -> real,
    numberText: real -> string
  )

  /** `Number.isFinite(lat) && Number.isFinite(lng) ? distance(...) : null` */
  function DistanceIfBoth(env: Env, lat: Option<real>, lng: Option<real>): (d: Option<real>)
    ensures d.Some? <==> lat.Some? && lng.Some?
    ensures d.Some? ==> d.value == env.distanceFromHotel(lat.value, lng.value)
  {
    if lat.Some? && lng.Some? then Some(env.distanceFromHotel(lat.value, lng.value)) else None
  }
}
