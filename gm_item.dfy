/**
 * The item the Google Maps crawler returns, and the parts of `normalizePlace`
 * that the three Google Maps ingestion scripts (`ingest-googlemaps.js`,
 * `ingest-complete.js`, `ingest-simple.js`) write the same way.
 */
module GoogleMapsItem {
  import opened Wrappers
  import opened Text
  import opened Js
  import opened Uri
  import opened Places
  import opened CommonRules
  import opened Collections

  /** An entry of `images`: a URL, or an object whose `url` may be missing (`""`). */
  datatype ImageRef = ImageText(text: string) | ImageObject(url: string)

  datatype GmItem = GmItem(
    placeId: string,
    url: string,
    title: string,
    name: string,
    locationLat: Option<real>,
    locationLng: Option<real>,
    latitude: Option<real>,
    longitude: Option<real>,
    totalScore: Option<real>,
    rating: Option<real>,
    reviewsCount: Option<real>,
    reviews: Option<real>,
    priceLevel: PriceRaw,
    imageUrls: Option<seq<string>>,
    images: Option<seq<ImageRef>>,
    imageUrl: string,
    categoryName: string,
    categories: Option<seq<string>>,
    itemType: string,
    description: string,
    about: string,
    address: string,
    street: string,
    phone: string,
    phoneNumber: string,
    website: string,
    menu: string,
    openingHours: Option<seq<string>>,
    hours: Option<seq<string>>,
    isOpen: Option<bool>,
    openNow: JsonFlag
  )

  /** A JSON flag that may be absent (`undefined`), `null`, or a boolean. */
  datatype JsonFlag = Undefined | Null | Bool(value: bool)

  /** `` `place-${Date.now()}` `` */
  function TimestampId(nowMs: nat): (r: string)
    ensures r != "" && StartsWith(r, "place-")
  {
    assert ("place-" + NatToString(nowMs))[..6] == "place-";
    "place-" + NatToString(nowMs)
  }

  /** `item.placeId || item.url || item.title || place-<now>`: never empty. */
  function PlaceIdOf(item: GmItem, nowMs: nat): (r: string)
    ensures r != ""
    ensures item.placeId != "" ==> r == item.placeId
    ensures item.placeId == "" && item.url != "" ==> r == item.url
    ensures item.placeId == "" && item.url == "" && item.title != "" ==> r == item.title
    ensures item.placeId == "" && item.url == "" && item.title == "" ==> r == TimestampId(nowMs)
  {
    Either(item.placeId, Either(item.url, Either(item.title, TimestampId(nowMs))))
  }

  /**
   * The ingestion loops skip items without a title, so the timestamp is
   * never used: the id of a titled item is one of its own fields, the same
   * at every clock reading.
   */
  lemma TitledItemsHaveStableIds(item: GmItem, t1: nat, t2: nat)
    requires item.title != ""
    ensures PlaceIdOf(item, t1) == PlaceIdOf(item, t2)
    ensures PlaceIdOf(item, t1) in {item.placeId, item.url, item.title}
  {
  }

  /** `Number(item.location?.lat || item.latitude)`; `None` is NaN. */
  function RawLat(item: GmItem): Option<real> {
    OrNum(item.locationLat, item.latitude)
  }

  function RawLng(item: GmItem): Option<real> {
    OrNum(item.locationLng, item.longitude)
  }

  /** `Number(item.totalScore || item.rating || 0)` */
  function GmRating(item: GmItem): real {
    OrZero(OrNum(item.totalScore, item.rating))
  }

  /**
   * The URL of an `images` entry: `img.url || img` in `ingest-googlemaps.js`,
   * `typeof img === 'string' ? img : img?.url` in `ingest-complete.js`.
   */
  function ImageUrl(img: ImageRef): string {
    match img
    case ImageText(s) => s
    case ImageObject(u) => u
  }

  /**
   * The URLs of the first five `images` entries: a text entry is its own URL,
   * an object entry its `url`.
   */
  function ImageEntryUrls(item: GmItem): (r: seq<string>)
    ensures |r| <= 5
    ensures item.images.Some? ==> |r| == |Take(item.images.value, 5)|
    ensures item.images.Some? ==> forall i :: 0 <= i < |r| ==> r[i] == ImageUrl(item.images.value[i])
    ensures item.images.None? ==> r == []
  {
    match item.images
    case None => []
    case Some(imgs) =>
      var firsts := Take(imgs, 5);
      seq(|firsts|, i requires 0 <= i < |firsts| => ImageUrl(firsts[i]))
  }

  /** The first five `imageUrls`, or nothing when it is not an array. */
  function FirstImageUrls(item: GmItem): (r: seq<string>)
    ensures |r| <= 5
    ensures item.imageUrls.Some? ==> r <= item.imageUrls.value
    ensures item.imageUrls.None? ==> r == []
  {
    match item.imageUrls
    case None => []
    case Some(us) => Take(us, 5)
  }

  /** `item.imageUrl || (gallery.length > 0 ? gallery[0] : null)` */
  function MainImage(imageUrl: string, gallery: seq<string>): (r: Option<string>)
    ensures imageUrl != "" ==> r == Some(imageUrl)
    ensures imageUrl == "" && gallery != [] ==> r == Some(gallery[0])
    ensures imageUrl == "" && gallery == [] ==> r.None?
  {
    if imageUrl != "" then Some(imageUrl) else if |gallery| > 0 then Some(gallery[0]) else None
  }

  /** `category || "attractions"`: the query's hint category. */
  function HintCategory(category: string): (r: string)
    ensures r != ""
    ensures category != "" ==> r == category
  {
    Either(category, "attractions")
  }

  /** `` item.url || `${prefix}${placeId}` `` */
  function SourceUrl(item: GmItem, prefix: string, placeId: string): (r: string)
    ensures item.url != "" ==> r == item.url
    ensures item.url == "" ==> r == prefix + placeId
  {
    Either(item.url, prefix + placeId)
  }
}
