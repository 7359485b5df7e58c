/**
 * `scripts/ingest-openmap.js`: OpenMap search results become place
 * records, deduplicated by id keeping the best rated.
 */
module IngestOpenMap {
  import opened Wrappers
  import opened Text
  import opened Js
  import opened Collections
  import opened Places
  import opened CommonRules
  import opened KeyedDedupe

  datatype OmItem = OmItem(
    id: string,
    placeId: string,
    url: string,
    name: string,
    latitude: Option<real>,
    lat: Option<real>,
    longitude: Option<real>,
    lng: Option<real>,
    categories: Option<seq<string>>,
    category: string,
    itemType: string,
    rating: Option<real>,
    userRatingsTotal: Option<real>,
    reviewsCount: Option<real>,
    priceLevel: PriceRaw,
    description: string,
    vicinity: string,
    thumbnail: string,
    address: string,
    phoneNumber: string,
    phone: string,
    website: string,
    email: string,
    openingStatus: string,
    /** `__originQuery`, the search term that found the item. */
    originQuery: string
  )

  /**
   * `id || place_id || url || name || "<latitude || lat>-<longitude || lng>"`.
   * The last choice always holds a `-`, so the id is never empty.
   */
  function ItemId(item: OmItem, numberText: real -> string): (r: string)
    ensures r != ""
    ensures item.id != "" ==> r == item.id
    ensures item.id == "" && item.placeId == "" && item.url == "" && item.name == "" ==>
      r == TemplateText(OrNum(item.latitude, item.lat), numberText) + "-" + TemplateText(OrNum(item.longitude, item.lng), numberText)
  {
    Either(item.id, Either(item.placeId, Either(item.url, Either(item.name,
      TemplateText(OrNum(item.latitude, item.lat), numberText) + "-" + TemplateText(OrNum(item.longitude, item.lng), numberText)))))
  }

  /** The items `if (!id) continue;` lets through. */
  function Admitted(items: seq<OmItem>, numberText: real -> string): (r: seq<OmItem>)
    ensures |r| <= |items|
  {
    if items == [] then []
    else (if ItemId(items[0], numberText) != "" then [items[0]] else []) + Admitted(items[1..], numberText)
  }

  /** The `!id` guard never drops an item. */
  lemma {:induction false} GuardNeverFires(items: seq<OmItem>, numberText: real -> string)
    ensures Admitted(items, numberText) == items
    decreases |items|
  {
    if items != [] {
      GuardNeverFires(items[1..], numberText);
      assert [items[0]] + items[1..] == items;
    }
  }

  /** `categories`, then `category`, `type` and the search term, each when present. */
  function CategoryList(item: OmItem): (r: seq<string>)
    ensures item.categories.Some? ==> item.categories.value <= r
    ensures item.originQuery != "" ==> |r| > 0 && r[|r| - 1] == item.originQuery
  {
    item.categories.GetOr([])
    + (if item.category != "" then [item.category] else [])
    + (if item.itemType != "" then [item.itemType] else [])
    + (if item.originQuery != "" then [item.originQuery] else [])
  }

  /** The record built for one item (before deduplication). */
  function NormalizeItem(item: OmItem, env: Env): (r: Place)
    ensures r.id == r.sourceId == ItemId(item, env.numberText) && r.id != ""
    ensures r.name != "" && (item.name != "" ==> r.name == item.name)
    ensures r.category == MapCategoryList(CategoryList(item))
    ensures r.rating == item.rating.GetOr(0.0)
    ensures item.userRatingsTotal.Some? ==> r.reviewCount == item.userRatingsTotal.value
    ensures item.userRatingsTotal.None? ==> r.reviewCount == item.reviewsCount.GetOr(0.0)
    ensures r.priceLevel == DollarPriceLevel(item.priceLevel)
    ensures r.priceText == PriceRawText(item.priceLevel, env.numberText)
    ensures item.description != "" ==> r.description == item.description
    ensures item.description == "" && item.vicinity != "" ==> r.description == item.vicinity
    ensures item.description == "" && item.vicinity == "" ==> r.description == "Descri\U{E7}\U{E3}o n\U{E3}o dispon\U{ED}vel"
    ensures item.address != "" ==> r.address == item.address
    ensures item.address == "" && item.vicinity != "" ==> r.address == item.vicinity
    ensures item.address == "" && item.vicinity == "" ==> r.address == "Endere\U{E7}o n\U{E3}o informado"
    ensures r.latitude == OrNum(item.latitude, item.lat) && r.longitude == OrNum(item.longitude, item.lng)
    ensures r.distanceKm == DistanceIfBoth(env, r.latitude, r.longitude)
    ensures r.tags == TakeDistinct(CategoryList(item), 8) && r.categories == Distinct(CategoryList(item))
    ensures r.tags <= r.categories
    ensures r.image == NonEmpty(item.thumbnail)
    ensures item.phoneNumber != "" ==> r.phone == Some(item.phoneNumber)
    ensures item.phoneNumber == "" ==> r.phone == NonEmpty(item.phone)
    ensures r.website == NonEmpty(item.website) && r.email == NonEmpty(item.email)
    ensures r.openStatusCategory == r.openStatusText == NonEmpty(item.openingStatus)
    ensures r.sourceUrl == NonEmpty(item.url) && r.menuUrl.None?
    ensures r.gallery.None? && r.highlights.None? && r.notes.None? && r.hours.None?
    ensures r.originQueries == if item.originQuery != "" then [item.originQuery] else []
  {
    var id := ItemId(item, env.numberText);
    var lat := OrNum(item.latitude, item.lat);
    var lng := OrNum(item.longitude, item.lng);
    var categories := CategoryList(item);
    Blank(id).(
      sourceId := id,
      name := Either(item.name, "Lugar sem nome"),
      category := MapCategoryList(categories),
      rating := item.rating.GetOr(0.0),
      reviewCount := Nullish(item.userRatingsTotal, item.reviewsCount).GetOr(0.0),
      priceLevel := DollarPriceLevel(item.priceLevel),
      priceText := PriceRawText(item.priceLevel, env.numberText),
      description := Either(item.description, Either(item.vicinity, "Descri\U{E7}\U{E3}o n\U{E3}o dispon\U{ED}vel")),
      image := NonEmpty(item.thumbnail),
      address := Either(item.address, Either(item.vicinity, "Endere\U{E7}o n\U{E3}o informado")),
      latitude := lat,
      longitude := lng,
      distanceKm := DistanceIfBoth(env, lat, lng),
      phone := NonEmpty(Either(item.phoneNumber, item.phone)),
      website := NonEmpty(item.website),
      email := NonEmpty(item.email),
      tags := TakeDistinct(categories, 8),
      sourceUrl := NonEmpty(item.url),
      openStatusCategory := NonEmpty(item.openingStatus),
      openStatusText := NonEmpty(item.openingStatus),
      menuUrl := None,
      categories := Distinct(categories),
      originQueries := if item.originQuery != "" then [item.originQuery] else []
    )
  }

  /** The `(id, record)` pairs the loop offers to its `Map`, in item order. */
  function KeyedItems(items: seq<OmItem>, env: Env): (r: seq<(string, Place)>)
    ensures |r| == |items|
    ensures forall i :: 0 <= i < |items| ==> r[i] == (ItemId(items[i], env.numberText), NormalizeItem(items[i], env))
  {
    seq(|items|, i requires 0 <= i < |items| => (ItemId(items[i], env.numberText), NormalizeItem(items[i], env)))
  }

  /**
   * `normalizeItems(items)`: one record per distinct id, in order of first
   * appearance; each is the best rated record with its id, the first among
   * equals.
   */
  method NormalizeItems(items: seq<OmItem>, env: Env) returns (places: seq<Place>)
    ensures places == Dedupe(KeyedItems(items, env), RatingOf)
    ensures |places| == |Distinct(KeysOf(KeyedItems(items, env)))|
  {
    GuardNeverFires(items, env.numberText);
    places := DedupeLoop(KeyedItems(Admitted(items, env.numberText), env), RatingOf);
  }

  /** Two items with one id end as one record: the second only when strictly better rated. */
  lemma SameIdKeepsBetter(a: OmItem, b: OmItem, env: Env)
    requires ItemId(a, env.numberText) == ItemId(b, env.numberText)
    ensures |Dedupe(KeyedItems([a, b], env), RatingOf)| == 1
    ensures b.rating.GetOr(0.0) > a.rating.GetOr(0.0) ==> Dedupe(KeyedItems([a, b], env), RatingOf)[0] == NormalizeItem(b, env)
    ensures b.rating.GetOr(0.0) <= a.rating.GetOr(0.0) ==> Dedupe(KeyedItems([a, b], env), RatingOf)[0] == NormalizeItem(a, env)
  {
    SameKeyTwo(KeyedItems([a, b], env), RatingOf);
  }

  /** A search term naming a park, a museum or a shopping centre gets the light limit. */
  lemma LightTermsPickLight(term: string, k: nat)
    requires k < 5 && Contains(Lower(term), ["parque", "park", "museu", "museo", "shopping"][k])
    ensures PickLimit(term, LightMaxResults as real, DefaultMaxResults as real) == LightMaxResults as real
  {
    assert ContainsAny(Lower(term), ["parque", "park", "museu", "museo", "shopping"]);
  }

  /**
   * The category is `mapCategory` over the category list, and a cafe word
   * in any of the listed categories makes the place a cafe, whatever the
   * other entries say.
   */
  lemma CafeCategoryWins(item: OmItem, env: Env, i: int, k: int)
    requires 0 <= i < |CategoryList(item)| && 0 <= k < |CafeWords|
    requires Contains(Lower(CategoryList(item)[i]), CafeWords[k])
    ensures NormalizeItem(item, env).category == "cafes"
  {
    MapCategoryListCafeFirst(CategoryList(item), i, k);
  }

  /**
   * `parsePriceLevel(item.price_level)`: 0 when the field is falsy, the count
   * of `$` signs in a text that holds one, and a JSON number as it is.
   */
  lemma PriceLevelOfItem(item: OmItem, env: Env)
    ensures !PriceTruthy(item.priceLevel) ==> NormalizeItem(item, env).priceLevel == 0.0
    ensures item.priceLevel.PriceText? && '$' in item.priceLevel.text ==>
      NormalizeItem(item, env).priceLevel == CountChar(item.priceLevel.text, '$') as real >= 1.0
    ensures item.priceLevel.PriceNumber? ==> NormalizeItem(item, env).priceLevel == item.priceLevel.amount
    ensures item.priceLevel.PriceText? && item.priceLevel.text != "" && '$' !in item.priceLevel.text ==>
      NormalizeItem(item, env).priceLevel == ParseNumber(item.priceLevel.text).GetOr(0.0)
  {
  }
}
