/**
 * `scripts/ingest-localbusiness.js`: Local Business Data search results
 * become place records, deduplicated by id keeping the best rated.
 */
module IngestLocalBusiness {
  import opened Wrappers
  import opened Text
  import opened Js
  import opened Collections
  import opened Places
  import opened Rules
  import opened CommonRules
  import opened KeyedDedupe

  datatype LbItem = LbItem(
    businessId: string,
    placeId: string,
    googleId: string,
    url: string,
    name: string,
    latitude: Option<real>,
    lat: Option<real>,
    locationLat: Option<real>,
    longitude: Option<real>,
    lng: Option<real>,
    locationLng: Option<real>,
    categories: Option<seq<string>>,
    category: string,
    rating: Option<real>,
    reviewsCount: Option<real>,
    reviewsTotal: Option<real>,
    userRatingsTotal: Option<real>,
    priceLevel: PriceRaw,
    price: string,
    about: string,
    description: string,
    snippet: string,
    thumbnail: string,
    coverPhotoUrl: string,
    fullAddress: string,
    address: string,
    vicinity: string,
    phoneNumber: string,
    internationalPhoneNumber: string,
    website: string,
    domain: string,
    emails: Option<seq<string>>,
    openingStatus: string,
    openNowText: string,
    menuLink: string,
    /** `__originQuery`, the search term that found the item. */
    originQuery: string
  )

  /**
   * `business_id || place_id || google_id || url || name || "<latitude>-<longitude>"`.
   * The last choice always holds a `-`, so the id is never empty.
   */
  function ItemId(item: LbItem, numberText: real -> string): (r: string)
    ensures r != ""
    ensures item.businessId != "" ==> r == item.businessId
    ensures item.businessId == "" && item.placeId == "" && item.googleId == "" && item.url == "" && item.name == "" ==>
      r == TemplateText(item.latitude, numberText) + "-" + TemplateText(item.longitude, numberText)
  {
    Either(item.businessId, Either(item.placeId, Either(item.googleId, Either(item.url, Either(item.name,
      TemplateText(item.latitude, numberText) + "-" + TemplateText(item.longitude, numberText))))))
  }

  /** The items `if (!id) continue;` lets through. */
  function Admitted(items: seq<LbItem>, numberText: real -> string): (r: seq<LbItem>)
    ensures |r| <= |items|
  {
    if items == [] then []
    else (if ItemId(items[0], numberText) != "" then [items[0]] else []) + Admitted(items[1..], numberText)
  }

  /** The `!id` guard never drops an item. */
  lemma {:induction false} GuardNeverFires(items: seq<LbItem>, numberText: real -> string)
    ensures Admitted(items, numberText) == items
    decreases |items|
  {
    if items != [] {
      GuardNeverFires(items[1..], numberText);
      assert [items[0]] + items[1..] == items;
    }
  }

  /** `item.categories`, then `category`, then the search term, each when present. */
  function CategoryList(item: LbItem): (r: seq<string>)
    ensures item.categories.Some? ==> item.categories.value <= r
    ensures item.originQuery != "" ==> |r| > 0 && r[|r| - 1] == item.originQuery
  {
    item.categories.GetOr([])
    + (if item.category != "" then [item.category] else [])
    + (if item.originQuery != "" then [item.originQuery] else [])
  }

  /** `Number(reviews_count ?? reviews_total ?? user_ratings_total ?? 0) || 0` */
  function ReviewCount(item: LbItem): (r: real)
    ensures item.reviewsCount.Some? ==> r == item.reviewsCount.value
    ensures item.reviewsCount.None? && item.reviewsTotal.Some? ==> r == item.reviewsTotal.value
    ensures item.reviewsCount.None? && item.reviewsTotal.None? ==> r == item.userRatingsTotal.GetOr(0.0)
  {
    Nullish(item.reviewsCount, Nullish(item.reviewsTotal, item.userRatingsTotal)).GetOr(0.0)
  }

  /** `item.emails && item.emails[0] ? item.emails[0] : null` */
  function FirstEmail(item: LbItem): (r: Option<string>)
    ensures r.Some? <==> item.emails.Some? && item.emails.value != [] && item.emails.value[0] != ""
    ensures r.Some? ==> r.value == item.emails.value[0]
  {
    if item.emails.Some? && |item.emails.value| > 0 && item.emails.value[0] != "" then Some(item.emails.value[0]) else None
  }

  /** The record built for one item (before deduplication). */
  function NormalizeItem(item: LbItem, env: Env): (r: Place)
    ensures r.id == r.sourceId == ItemId(item, env.numberText) && r.id != ""
    ensures r.name != "" && (item.name != "" ==> r.name == item.name)
    ensures r.rating == item.rating.GetOr(0.0) && r.reviewCount == ReviewCount(item)
    ensures r.priceLevel == DollarPriceLevel(item.priceLevel)
    ensures PriceTruthy(item.priceLevel) ==> r.priceText == PriceRawText(item.priceLevel, env.numberText)
    ensures !PriceTruthy(item.priceLevel) ==> r.priceText == NonEmpty(item.price)
    ensures item.about != "" ==> r.description == item.about
    ensures item.about == "" && item.description != "" ==> r.description == item.description
    ensures item.about == "" && item.description == "" && item.snippet != "" ==> r.description == item.snippet
    ensures item.about == "" && item.description == "" && item.snippet == "" ==>
      r.description == "Descri\U{E7}\U{E3}o n\U{E3}o dispon\U{ED}vel"
    ensures item.fullAddress != "" ==> r.address == item.fullAddress
    ensures item.fullAddress == "" && item.address != "" ==> r.address == item.address
    ensures item.fullAddress == "" && item.address == "" && item.vicinity != "" ==> r.address == item.vicinity
    ensures item.fullAddress == "" && item.address == "" && item.vicinity == "" ==> r.address == "Endere\U{E7}o n\U{E3}o informado"
    ensures r.image == NonEmpty(Either(item.thumbnail, item.coverPhotoUrl))
    ensures r.phone == NonEmpty(Either(item.phoneNumber, item.internationalPhoneNumber))
    ensures r.website == NonEmpty(Either(item.website, item.domain)) && r.email == FirstEmail(item)
    ensures r.sourceUrl == NonEmpty(Either(item.url, item.website)) && r.menuUrl == NonEmpty(item.menuLink)
    ensures r.openStatusCategory == r.openStatusText == NonEmpty(Either(item.openingStatus, item.openNowText))
    ensures r.gallery.None? && r.highlights.None? && r.notes.None? && r.hours.None?
    ensures r.originQueries == if item.originQuery != "" then [item.originQuery] else []
    ensures r.description != "" && r.address != ""
    ensures r.tags == TakeDistinct(CategoryList(item), 8) && r.categories == Distinct(CategoryList(item))
    ensures r.tags <= r.categories && |r.tags| <= 8 && NoDup(r.categories)
  {
    var id := ItemId(item, env.numberText);
    var lat := OrNum(item.latitude, OrNum(item.lat, item.locationLat));
    var lng := OrNum(item.longitude, OrNum(item.lng, item.locationLng));
    var categories := CategoryList(item);
    Blank(id).(
      sourceId := id,
      name := Either(item.name, "Lugar sem nome"),
      category := MapCategoryList(categories),
      rating := item.rating.GetOr(0.0),
      reviewCount := ReviewCount(item),
      priceLevel := DollarPriceLevel(item.priceLevel),
      priceText := if PriceTruthy(item.priceLevel) then PriceRawText(item.priceLevel, env.numberText) else NonEmpty(item.price),
      description := Either(item.about, Either(item.description, Either(item.snippet, "Descri\U{E7}\U{E3}o n\U{E3}o dispon\U{ED}vel"))),
      image := NonEmpty(Either(item.thumbnail, item.coverPhotoUrl)),
      address := Either(item.fullAddress, Either(item.address, Either(item.vicinity, "Endere\U{E7}o n\U{E3}o informado"))),
      latitude := lat,
      longitude := lng,
      distanceKm := DistanceIfBoth(env, lat, lng),
      phone := NonEmpty(Either(item.phoneNumber, item.internationalPhoneNumber)),
      website := NonEmpty(Either(item.website, item.domain)),
      email := FirstEmail(item),
      tags := TakeDistinct(categories, 8),
      sourceUrl := NonEmpty(Either(item.url, item.website)),
      openStatusCategory := NonEmpty(Either(item.openingStatus, item.openNowText)),
      openStatusText := NonEmpty(Either(item.openingStatus, item.openNowText)),
      menuUrl := NonEmpty(item.menuLink),
      categories := Distinct(categories),
      originQueries := if item.originQuery != "" then [item.originQuery] else []
    )
  }

  /** The `(id, record)` pairs the loop offers to its `Map`, in item order. */
  function KeyedItems(items: seq<LbItem>, env: Env): (r: seq<(string, Place)>)
    ensures |r| == |items|
    ensures forall i :: 0 <= i < |items| ==> r[i] == (ItemId(items[i], env.numberText), NormalizeItem(items[i], env))
  {
    seq(|items|, i requires 0 <= i < |items| => (ItemId(items[i], env.numberText), NormalizeItem(items[i], env)))
  }

  /**
   * `normalizeItems(items)`: one record per distinct id, in order of first
   * appearance; each is the best rated record with its id, the first among
   * equals.
   */
  method NormalizeItems(items: seq<LbItem>, env: Env) returns (places: seq<Place>)
    ensures places == Dedupe(KeyedItems(items, env), RatingOf)
    ensures |places| == |Distinct(KeysOf(KeyedItems(items, env)))|
  {
    GuardNeverFires(items, env.numberText);
    places := DedupeLoop(KeyedItems(Admitted(items, env.numberText), env), RatingOf);
  }

  /** Two items with one id end as one record: the second only when strictly better rated. */
  lemma SameIdKeepsBetter(a: LbItem, b: LbItem, env: Env)
    requires ItemId(a, env.numberText) == ItemId(b, env.numberText)
    ensures |Dedupe(KeyedItems([a, b], env), RatingOf)| == 1
    ensures b.rating.GetOr(0.0) > a.rating.GetOr(0.0) ==> Dedupe(KeyedItems([a, b], env), RatingOf)[0] == NormalizeItem(b, env)
    ensures b.rating.GetOr(0.0) <= a.rating.GetOr(0.0) ==> Dedupe(KeyedItems([a, b], env), RatingOf)[0] == NormalizeItem(a, env)
  {
    SameKeyTwo(KeyedItems([a, b], env), RatingOf);
  }

  /** The category is `mapCategory` over the category list: provider categories, then the search term. */
  lemma CategoryOfItem(item: LbItem, env: Env)
    ensures NormalizeItem(item, env).category == MapCategoryList(CategoryList(item))
    ensures NormalizeItem(item, env).categories == Distinct(CategoryList(item))
  {
  }

  /**
   * Coordinates are `latitude || lat || location.lat` (and the same for the
   * longitude); the distance from the hotel exists exactly when both are
   * numbers, since `computeDistanceKm` gives `undefined` for a non-finite one.
   */
  lemma DistanceNeedsBothCoordinates(item: LbItem, env: Env)
    ensures var r := NormalizeItem(item, env);
      && r.latitude == OrNum(item.latitude, OrNum(item.lat, item.locationLat))
      && r.longitude == OrNum(item.longitude, OrNum(item.lng, item.locationLng))
      && (r.distanceKm.Some? <==> r.latitude.Some? && r.longitude.Some?)
      && (r.distanceKm.Some? ==> r.distanceKm.value == env.distanceFromHotel(r.latitude.value, r.longitude.value))
  {
  }

  /**
   * `parsePriceLevel(item.price_level)`: 0 when the field is falsy, the count
   * of `$` signs in a text that holds one, and a JSON number as it is.
   */
  lemma PriceLevelOfItem(item: LbItem, env: Env)
    ensures !PriceTruthy(item.priceLevel) ==> NormalizeItem(item, env).priceLevel == 0.0
    ensures item.priceLevel.PriceText? && '$' in item.priceLevel.text ==>
      NormalizeItem(item, env).priceLevel == CountChar(item.priceLevel.text, '$') as real >= 1.0
    ensures item.priceLevel.PriceNumber? ==> NormalizeItem(item, env).priceLevel == item.priceLevel.amount
    ensures item.priceLevel.PriceText? && item.priceLevel.text != "" && '$' !in item.priceLevel.text ==>
      NormalizeItem(item, env).priceLevel == ParseNumber(item.priceLevel.text).GetOr(0.0)
  {
  }
}
