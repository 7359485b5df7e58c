/**
 * The item the TripAdvisor crawler returns, and the parts of the record
 * that `ingest-massive.js` and `ingest-tripadvisor.js` build the same way.
 */
module TripAdvisorItem {
  import opened Wrappers
  import opened Text
  import opened Js
  import opened Uri
  import opened Collections
  import opened CommonRules

  datatype TaItem = TaItem(
    id: string,
    locationId: string,
    webUrl: string,
    url: string,
    name: string,
    itemType: string,
    category: string,
    rankingPosition: Option<real>,
    image: string,
    /** `photos[i]?.url`; `None` for an entry without one. */
    photos: Option<seq<Option<string>>>,
    priceLevel: PriceRaw,
    priceRange: Option<string>,
    description: string,
    rankingString: string,
    rating: Option<real>,
    numberOfReviews: Option<real>,
    address: string,
    locationString: string,
    latitude: Option<real>,
    longitude: Option<real>,
    phone: string,
    website: string,
    email: string,
    openNowText: string,
    menuWebUrl: string,
    subcategories: Option<seq<string>>,
    cuisines: Option<seq<string>>,
    features: Option<seq<string>>,
    /** `reviewTags.map((t) => t.text)` */
    reviewTags: Option<seq<string>>,
    /** `__originQuery`, the search term that found the item. */
    originQuery: string
  )

  /**
   * `item.webUrl || item.url`, on the two fields, as both TripAdvisor
   * scripts and `ingest-merged.js` compute it.
   */
  function WebOrPlainUrl(webUrl: string, url: string): (r: string)
    ensures r == "" <==> webUrl == "" && url == ""
    ensures webUrl != "" ==> r == webUrl
    ensures webUrl == "" ==> r == url
  {
    Either(webUrl, url)
  }

  /** The source URL of a crawler item. */
  function TaSourceUrl(item: TaItem): string {
    WebOrPlainUrl(item.webUrl, item.url)
  }

  /**
   * `encodeId(raw)`: the URI encoding of a truthy id, the script's fallback
   * otherwise.
   */
  function EncodeId(raw: string, fallback: string): (r: string)
    ensures raw == "" ==> r == fallback
    ensures raw != "" ==> r == EncodeUriComponent(raw) && r != ""
  {
    EncodeEmptyIff(raw);
    if raw == "" then fallback else EncodeUriComponent(raw)
  }

  /**
   * `item.image || (photos is a non-empty array ? photos[0]?.url : null)`,
   * on the two fields, as both TripAdvisor scripts and `ingest-merged.js`
   * compute it.
   */
  function ImageOrFirstPhoto(image: string, photos: Option<seq<Option<string>>>): (r: Option<string>)
    ensures image != "" ==> r == Some(image)
    ensures image == "" && photos.Some? && photos.value != [] ==> r == photos.value[0]
    ensures image == "" && (photos.None? || photos.value == []) ==> r.None?
  {
    if image != "" then Some(image)
    else if photos.Some? && |photos.value| > 0 then photos.value[0]
    else None
  }

  /** The main image of a crawler item. */
  function TaImage(item: TaItem): Option<string> {
    ImageOrFirstPhoto(item.image, item.photos)
  }

  /** `photos.map((p) => p?.url).filter(Boolean).slice(0, 8)`, `None` when `photos` is not an array. */
  function TaGallery(item: TaItem): (r: Option<seq<string>>)
    ensures r.None? <==> item.photos.None?
    ensures r.Some? ==> |r.value| <= 8
    ensures r.Some? ==> forall u :: u in r.value ==> u != "" && Some(u) in item.photos.value
    ensures r.Some? ==> r.value <= CompactOpt(item.photos.value)
    ensures r.Some? ==> |r.value| == if |CompactOpt(item.photos.value)| <= 8 then |CompactOpt(item.photos.value)| else 8
  {
    match item.photos
    case None => None
    case Some(ps) => Some(Take(CompactOpt(ps), 8))
  }

  /** `Number(x ?? 0) || 0` */
  function NumberOrZero(x: Option<real>): (r: real)
    ensures x.None? ==> r == 0.0
    ensures x.Some? ==> r == x.value
  {
    x.GetOr(0.0)
  }

  /** `item.description || item.rankingString || "Descrição não disponível"`: never empty. */
  function TaDescription(item: TaItem): (r: string)
    ensures r != ""
    ensures item.description != "" ==> r == item.description
    ensures item.description == "" && item.rankingString != "" ==> r == item.rankingString
  {
    Either(item.description, Either(item.rankingString, "Descri\U{E7}\U{E3}o n\U{E3}o dispon\U{ED}vel"))
  }

  /** `item.address || item.locationString || "Endereço não informado"`: never empty. */
  function TaAddress(item: TaItem): (r: string)
    ensures r != ""
    ensures item.address != "" ==> r == item.address
    ensures item.address == "" && item.locationString != "" ==> r == item.locationString
  {
    Either(item.address, Either(item.locationString, "Endere\U{E7}o n\U{E3}o informado"))
  }

  /** `item.priceLevel || item.priceRange` */
  function TaPriceText(item: TaItem, numberText: real -> string): (r: Option<string>)
    ensures PriceTruthy(item.priceLevel) ==> r.Some? && r == PriceRawText(item.priceLevel, numberText)
    ensures !PriceTruthy(item.priceLevel) ==> r == item.priceRange
  {
    if PriceTruthy(item.priceLevel) then PriceRawText(item.priceLevel, numberText) else item.priceRange
  }

  /** `reviewTags.map((t) => t.text).slice(0, 5)` */
  function TaHighlights(item: TaItem): (r: Option<seq<string>>)
    ensures r.None? <==> item.reviewTags.None?
    ensures r.Some? ==> |r.value| <= 5 && r.value <= item.reviewTags.value
  {
    match item.reviewTags
    case None => None
    case Some(ts) => Some(Take(ts, 5))
  }

  /**
   * What `buildTags` adds to its `Set`, in order: the truthy subcategories,
   * cuisines and features, then the type and the query when truthy.
   */
  function TagCandidates(item: TaItem, query: string): (r: seq<string>)
    ensures forall t :: t in r ==> t != ""
  {
    Compact(item.subcategories.GetOr([])) + Compact(item.cuisines.GetOr([])) + Compact(item.features.GetOr([]))
    + (if item.itemType != "" then [item.itemType] else [])
    + (if query != "" then [query] else [])
  }

  /**
   * `Array.from(tags).slice(0, cap)`: distinct, non-empty, in order of first
   * addition; when fewer than `cap` distinct values were added, all of them.
   */
  function BuildTags(item: TaItem, query: string, cap: nat): (r: seq<string>)
    ensures NoDup(r) && |r| <= cap
    ensures forall t :: t in r ==> t != "" && t in TagCandidates(item, query)
    ensures r <= Distinct(TagCandidates(item, query))
    ensures |Distinct(TagCandidates(item, query))| <= cap ==> forall t :: t in TagCandidates(item, query) ==> t in r
    ensures |r| == if |Distinct(TagCandidates(item, query))| <= cap then |Distinct(TagCandidates(item, query))| else cap
  {
    TakeDistinct(TagCandidates(item, query), cap)
  }

  /** The query is a tag whenever the tags are not cut. */
  lemma QueryIsTag(item: TaItem, query: string, cap: nat)
    requires query != "" && |Distinct(TagCandidates(item, query))| <= cap
    ensures query in BuildTags(item, query, cap)
  {
    assert TagCandidates(item, query)[|TagCandidates(item, query)| - 1] == query;
  }
}
