/**
 * `scripts/ingest-complete.js`: the Google Maps ingestion that also keeps
 * photos, opening hours and an open/closed status. A row already stored
 * under the same id is left alone.
 */
module IngestComplete {
  import opened Wrappers
  import opened Text
  import opened Js
  import opened Uri
  import opened Collections
  import opened Places
  import opened CommonRules
  import opened Store
  import opened GoogleMapsItem
  import opened GoogleMapsInsertOnly

  /**
   * `Number(item.reviewsCount || item.reviews || item.totalScore || 0)`: the
   * last fallback is the rating score, not a count.
   */
  function ReviewCount(item: GmItem): (r: real)
    ensures NumTruthy(item.reviewsCount) ==> r == item.reviewsCount.value
    ensures !NumTruthy(item.reviewsCount) && NumTruthy(item.reviews) ==> r == item.reviews.value
    ensures !NumTruthy(item.reviewsCount) && !NumTruthy(item.reviews) ==> r == OrZero(item.totalScore)
  {
    OrZero(OrNum(item.reviewsCount, OrNum(item.reviews, item.totalScore)))
  }

  /** With no review count, an item's score is written as its number of reviews. */
  lemma ScoreStandsInForReviews(item: GmItem)
    requires !NumTruthy(item.reviewsCount) && !NumTruthy(item.reviews) && NumTruthy(item.totalScore)
    ensures ReviewCount(item) == GmRating(item) == item.totalScore.value
  {
  }

  /**
   * The gallery `normalizePlace` builds: the first five `imageUrls` as they
   * are, then each truthy image URL not already present, then `imageUrl`
   * alone if the gallery is still empty.
   */
  function Gallery(item: GmItem): seq<string> {
    var g := AddAll(FirstImageUrls(item), Compact(ImageEntryUrls(item)));
    if g == [] && item.imageUrl != "" then [item.imageUrl] else g
  }

  /**
   * The gallery keeps the `imageUrls` in front, adds each offered URL not
   * yet present exactly once, holds at most ten URLs, and falls back to
   * `imageUrl` only when both sources are empty.
   */
  lemma GalleryFacts(item: GmItem)
    ensures FirstImageUrls(item) <= Gallery(item) && |Gallery(item)| <= 10
    ensures forall i :: |FirstImageUrls(item)| <= i < |Gallery(item)| ==> Gallery(item)[i] != "" && Gallery(item)[i] !in FirstImageUrls(item)
    ensures forall i, j :: |FirstImageUrls(item)| <= i < j < |Gallery(item)| ==> Gallery(item)[i] != Gallery(item)[j]
    ensures forall u :: u in Gallery(item) <==>
      u in FirstImageUrls(item) || (u != "" && u in ImageEntryUrls(item))
      || (u != "" && u == item.imageUrl && FirstImageUrls(item) == [] && Compact(ImageEntryUrls(item)) == [])
    ensures Gallery(item) == [] <==> FirstImageUrls(item) == [] && Compact(ImageEntryUrls(item)) == [] && item.imageUrl == ""
  {
    AddAllFresh(FirstImageUrls(item), Compact(ImageEntryUrls(item)));
  }

  /** The gallery-building statements of `normalizePlace`. */
  method BuildGallery(item: GmItem) returns (gallery: seq<string>)
    ensures gallery == Gallery(item)
  {
    gallery := AddTruthyNew(FirstImageUrls(item), ImageEntryUrls(item));
    if |gallery| == 0 && item.imageUrl != "" {
      gallery := [item.imageUrl];
    }
  }

  /** The `forEach` that pushes each truthy URL the gallery does not hold yet. */
  method AddTruthyNew(first: seq<string>, urls: seq<string>) returns (gallery: seq<string>)
    ensures gallery == AddAll(first, Compact(urls))
  {
    gallery := first;
    var i := 0;
    while i < |urls|
      invariant 0 <= i <= |urls|
      invariant gallery == AddAll(first, Compact(urls[..i]))
    {
      var url := urls[i];
      GalleryStep(first, urls, i);
      if url != "" && url !in gallery {
        gallery := gallery + [url];
      }
      i := i + 1;
    }
    assert urls[..|urls|] == urls;
  }

  /** One turn of the gallery loop: a URL that is empty or already present adds nothing, another is appended. */
  lemma GalleryStep(first: seq<string>, urls: seq<string>, i: int)
    requires 0 <= i < |urls|
    ensures var g := AddAll(first, Compact(urls[..i]));
            AddAll(first, Compact(urls[..i + 1])) == if urls[i] != "" && urls[i] !in g then g + [urls[i]] else g
  {
    assert urls[..i + 1] == urls[..i] + [urls[i]];
    CompactSnoc(urls[..i], urls[i]);
    if urls[i] != "" {
      AddAllSnoc(first, Compact(urls[..i]), urls[i]);
    } else {
      assert Compact(urls[..i]) + [] == Compact(urls[..i]);
    }
  }

  /** What the tag `Set` receives: `categoryName`, the truthy category names, `type`. */
  function TagCandidates(item: GmItem): (r: seq<string>)
    ensures forall t :: t in r ==> t != ""
  {
    (if item.categoryName != "" then [item.categoryName] else [])
    + Compact(item.categories.GetOr([]))
    + (if item.itemType != "" then [item.itemType] else [])
  }

  /** `Array.from(tagsSet).slice(0, 5)` */
  function Tags(item: GmItem): (r: seq<string>)
    ensures NoDup(r) && |r| <= 5
    ensures forall t :: t in r ==> t != "" && t in TagCandidates(item)
    ensures r <= Distinct(TagCandidates(item))
    ensures |Distinct(TagCandidates(item))| <= 5 ==> forall t :: t in TagCandidates(item) ==> t in r
    ensures |r| == if |Distinct(TagCandidates(item))| <= 5 then |Distinct(TagCandidates(item))| else 5
  {
    TakeDistinct(TagCandidates(item), 5)
  }

  /** The category name leads the tags whenever there is one. */
  lemma CategoryNameFirst(item: GmItem)
    requires item.categoryName != ""
    ensures Tags(item) != [] && Tags(item)[0] == item.categoryName
  {
    var c := TagCandidates(item);
    assert c[0] == item.categoryName;
    assert Insert([], c[0]) == [c[0]];
    assert Distinct(c) == AddAll([c[0]], c[1..]);
  }

  /**
   * The price level: `String(item.priceLevel)` is tested, case-sensitively,
   * for `EXPENSIVE`, `MODERATE`, `INEXPENSIVE` in that order, and otherwise
   * read as its number of `$` signs. The text of a JSON number holds neither
   * a word nor a `$`, so a numeric level reads as 0.
   */
  function PriceLevel(level: PriceRaw): (r: real)
    ensures !PriceTruthy(level) || level.PriceNumber? ==> r == 0.0
    ensures level.PriceText? && Contains(level.text, "EXPENSIVE") ==> r == 4.0
    ensures level.PriceText? && !Contains(level.text, "EXPENSIVE") && Contains(level.text, "MODERATE") ==> r == 2.0
    ensures r >= 0.0
  {
    match level
    case NoPrice => 0.0
    case PriceNumber(_) => 0.0
    case PriceText(s) =>
      if s == "" then 0.0
      else if Contains(s, "EXPENSIVE") then 4.0
      else if Contains(s, "MODERATE") then 2.0
      else if Contains(s, "INEXPENSIVE") then 1.0
      else CountChar(s, '$') as real
  }

  /** `INEXPENSIVE` is caught by the `EXPENSIVE` test: 4, never 1. */
  lemma InexpensiveReadsAsFour(s: string)
    requires Contains(s, "INEXPENSIVE")
    ensures PriceLevel(PriceText(s)) == 4.0
  {
    ExpensiveInInexpensive(s);
  }

  /** A text with neither word is priced by its `$` signs (lower-case words included). */
  lemma DollarsCount(s: string)
    requires s != "" && !Contains(s, "EXPENSIVE") && !Contains(s, "MODERATE")
    ensures PriceLevel(PriceText(s)) == CountChar(s, '$') as real
  {
    ExpensiveInInexpensive(s);
  }

  /**
   * `item.description || item.about || ""`, and when that is empty and there
   * are tags, the first two tags and the city.
   */
  function Description(item: GmItem, tags: seq<string>): (r: string)
    ensures item.description != "" ==> r == item.description
    ensures item.description == "" && item.about != "" ==> r == item.about
    ensures item.description == "" && item.about == "" && tags != [] ==>
      r == Join(Take(tags, 2), ", ") + " em Goi\U{E2}nia"
    ensures r == "" <==> item.description == "" && item.about == "" && tags == []
  {
    var d := Either(item.description, item.about);
    if d == "" && |tags| > 0 then Join(Take(tags, 2), ", ") + " em Goi\U{E2}nia" else d
  }

  /** `item.openingHours || item.hours || []`: an array is truthy even when empty. */
  function Hours(item: GmItem): (r: seq<string>)
    ensures item.openingHours.Some? ==> r == item.openingHours.value
    ensures item.openingHours.None? && item.hours.Some? ==> r == item.hours.value
    ensures item.openingHours.None? && item.hours.None? ==> r == []
  {
    if item.openingHours.Some? then item.openingHours.value
    else if item.hours.Some? then item.hours.value
    else []
  }

  /**
   * `openStatus`: the open/closed flag when the item has one (`null`, which
   * is not `undefined`, reads as closed), otherwise `"Ver horários"` when the
   * item has an opening-hours list, otherwise `null`.
   */
  function OpenStatusOf(item: GmItem): (r: OpenStatus)
    ensures item.openNow == Bool(true) ==> r == StatusText("Aberto agora")
    ensures item.openNow == Bool(false) || item.openNow == Null ==> r == StatusText("Fechado agora")
    ensures item.openNow == Undefined && item.openingHours.Some? ==> r == StatusText("Ver hor\U{E1}rios")
    ensures r == NoStatus <==> item.openNow == Undefined && item.openingHours.None?
  {
    match item.openNow
    case Bool(b) => StatusText(if b then "Aberto agora" else "Fechado agora")
    case Null => StatusText("Fechado agora")
    case Undefined => if item.openingHours.Some? then StatusText("Ver hor\U{E1}rios") else NoStatus
  }

  /** `item.imageUrl || gallery[0] || null` */
  function Image(imageUrl: string, gallery: seq<string>): (r: Option<string>)
    ensures imageUrl != "" ==> r == Some(imageUrl)
    ensures imageUrl == "" && gallery != [] && gallery[0] != "" ==> r == Some(gallery[0])
    ensures r.Some? ==> r.value != ""
    ensures r.None? <==> imageUrl == "" && (gallery == [] || gallery[0] == "")
  {
    if imageUrl != "" then Some(imageUrl)
    else if |gallery| > 0 && gallery[0] != "" then Some(gallery[0])
    else None
  }

  /** A place with any photo URL gets a main image. */
  lemma AnyPhotoGivesImage(item: GmItem)
    requires item.imageUrl != "" || Compact(ImageEntryUrls(item)) != []
    requires FirstImageUrls(item) == [] || FirstImageUrls(item)[0] != ""
    ensures Image(item.imageUrl, Gallery(item)).Some?
  {
    GalleryFacts(item);
    if item.imageUrl == "" {
      var g := Gallery(item);
      assert g != [];
      if FirstImageUrls(item) == [] {
        assert g[0] != "";
      } else {
        assert g[0] == FirstImageUrls(item)[0];
      }
    }
  }

  /** The record `normalizePlace` returns, around a gallery already built. */
  function WithGallery(item: GmItem, category: string, env: Env, gallery: seq<string>): (r: Row)
    ensures r.gallery == gallery && r.image == Image(item.imageUrl, gallery)
  {
    var placeId := PlaceIdOf(item, env.nowMs);
    var tags := Tags(item);
    Row(
      id := EncodeUriComponent(placeId),
      sourceId := placeId,
      name := Either(item.title, Either(item.name, "Sem nome")),
      category := HintCategory(category),
      rating := GmRating(item),
      reviewCount := ReviewCount(item),
      priceLevel := PriceLevel(item.priceLevel),
      priceText := PriceRawText(item.priceLevel, env.numberText),
      description := Description(item, tags),
      image := Image(item.imageUrl, gallery),
      address := Either(item.address, item.street),
      latitude := NumOrNull(RawLat(item)),
      longitude := NumOrNull(RawLng(item)),
      distanceKm := DistanceIfBoth(env, RawLat(item), RawLng(item)),
      phone := NonEmpty(Either(item.phone, item.phoneNumber)),
      website := NonEmpty(Either(item.website, item.url)),
      email := None,
      tags := tags,
      sourceUrl := Some(SourceUrl(item, "https://maps.google.com/?q=place_id:", placeId)),
      openStatus := OpenStatusOf(item),
      menuUrl := NonEmpty(item.menu),
      gallery := gallery,
      highlights := [],
      originQueries := [],
      hours := Hours(item)
    )
  }

  /** `normalizePlace(item, originQuery, category)`; the query is not written. */
  function NormalizePlace(item: GmItem, originQuery: string, category: string, env: Env): (r: Row)
    ensures r.sourceId == PlaceIdOf(item, env.nowMs) && r.sourceId != ""
    ensures r.id == EncodeUriComponent(r.sourceId) && r.id != ""
    ensures r.name != "" && (item.title != "" ==> r.name == item.title)
    ensures item.title == "" && item.name != "" ==> r.name == item.name
    ensures item.title == "" && item.name == "" ==> r.name == "Sem nome"
    ensures r.category == HintCategory(category)
    ensures r.rating == GmRating(item) && r.reviewCount == ReviewCount(item)
    ensures r.priceLevel == PriceLevel(item.priceLevel) && r.priceText == PriceRawText(item.priceLevel, env.numberText)
    ensures item.phone != "" ==> r.phone == Some(item.phone)
    ensures item.phone == "" ==> r.phone == NonEmpty(item.phoneNumber)
    ensures item.website != "" ==> r.website == Some(item.website)
    ensures item.website == "" ==> r.website == NonEmpty(item.url)
    ensures r.menuUrl == NonEmpty(item.menu)
    ensures r.latitude == NumOrNull(RawLat(item)) && r.longitude == NumOrNull(RawLng(item))
    ensures r.distanceKm == DistanceIfBoth(env, RawLat(item), RawLng(item))
    ensures r.tags == Tags(item) && r.gallery == Gallery(item)
    ensures r.description == Description(item, r.tags)
    ensures r.image == Image(item.imageUrl, r.gallery)
    ensures r.hours == Hours(item) && r.openStatus == OpenStatusOf(item)
    ensures r.address == Either(item.address, item.street)
    ensures r.sourceUrl == Some(SourceUrl(item, "https://maps.google.com/?q=place_id:", r.sourceId))
    ensures r.email.None? && r.highlights == [] && r.originQueries == []
  {
    EncodeEmptyIff(PlaceIdOf(item, env.nowMs));
    WithGallery(item, category, env, Gallery(item))
  }

  /** `normalizePlace` with the gallery built by its statements. */
  method Normalize(item: GmItem, originQuery: string, category: string, env: Env) returns (r: Row)
    ensures r == NormalizePlace(item, originQuery, category, env)
  {
    var gallery := BuildGallery(item);
    r := WithGallery(item, category, env, gallery);
  }

  /** `normalizePlace` for one query. */
  function Normalizer(query: string, category: string, env: Env): GmItem -> Row {
    item => NormalizePlace(item, query, category, env)
  }

  /** The body of the item loop in `main`. */
  method IngestItem(t: PlaceTable, totals: Totals, item: GmItem, query: string, category: string, env: Env)
    returns (totals': Totals)
    requires t.Valid()
    modifies t
    ensures t.Valid()
    ensures (t.rows, totals') == IngestStep(old(t.rows), totals, item, Normalizer(query, category, env))
  {
    totals' := totals;
    if !Skipped(item) {
      var place := Normalize(item, query, category, env);
      var result := t.SaveIfAbsent(place);
      totals' := Tally(totals, result);
    }
  }

  /** The loop over one query's items in `main`. */
  method IngestItems(t: PlaceTable, items: seq<GmItem>, query: string, category: string, env: Env)
    returns (totals: Totals)
    requires t.Valid()
    modifies t
    ensures t.Valid()
    ensures (t.rows, totals) == Ingest(old(t.rows), items, Normalizer(query, category, env))
  {
    totals := Totals(0, 0, 0);
    var i := 0;
    while i < |items|
      invariant 0 <= i <= |items| && t.Valid()
      invariant (t.rows, totals) == Ingest(old(t.rows), items[..i], Normalizer(query, category, env))
    {
      IngestSnoc(old(t.rows), items, i, Normalizer(query, category, env));
      totals := IngestItem(t, totals, items[i], query, category, env);
      i := i + 1;
    }
    assert items[..|items|] == items;
  }
}
