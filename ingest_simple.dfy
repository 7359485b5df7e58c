/**
 * `scripts/ingest-simple.js`: the minimal Google Maps ingestion. Tags and
 * gallery are copied without deduplication, the price level is always 0,
 * and a row already stored under the same id is left alone.
 */
module IngestSimple {
  import opened Wrappers
  import opened Js
  import opened Uri
  import opened Collections
  import opened Places
  import opened CommonRules
  import opened Store
  import opened GoogleMapsItem
  import opened GoogleMapsInsertOnly

  /** `categoryName` when truthy, then every entry of `categories`, as pushed. */
  function TagSource(item: GmItem): seq<string> {
    (if item.categoryName != "" then [item.categoryName] else []) + item.categories.GetOr([])
  }

  /** `normalizePlace(item, originQuery, category)`; the query is not written. */
  function NormalizePlace(item: GmItem, originQuery: string, category: string, env: Env): (r: Row)
    ensures r.sourceId == PlaceIdOf(item, env.nowMs) && r.sourceId != ""
    ensures r.id == EncodeUriComponent(r.sourceId) && r.id != ""
    ensures r.name != "" && (item.title != "" ==> r.name == item.title)
    ensures item.title == "" && item.name != "" ==> r.name == item.name
    ensures r.category == HintCategory(category)
    ensures r.rating == GmRating(item) && r.reviewCount == OrZero(OrNum(item.reviewsCount, item.reviews))
    ensures r.priceLevel == 0.0 && r.priceText.None?
    ensures r.latitude == NumOrNull(RawLat(item)) && r.longitude == NumOrNull(RawLng(item))
    ensures r.distanceKm == DistanceIfBoth(env, RawLat(item), RawLng(item))
    ensures r.tags <= TagSource(item) && |r.tags| <= 10
    ensures |r.tags| == |TagSource(item)| || |r.tags| == 10
    ensures r.gallery == FirstImageUrls(item) && r.image == MainImage(item.imageUrl, r.gallery)
    ensures r.description == Either(item.description, item.about)
    ensures r.address == Either(item.address, item.street)
    ensures r.sourceUrl == Some(SourceUrl(item, "https://maps.google.com/?q=place_id:", r.sourceId))
    ensures r.phone == NonEmpty(Either(item.phone, item.phoneNumber)) && r.website == NonEmpty(Either(item.website, item.url))
    ensures r.openStatus == NoStatus && r.hours == [] && r.menuUrl.None?
    ensures r.email.None? && r.highlights == [] && r.originQueries == []
  {
    var placeId := PlaceIdOf(item, env.nowMs);
    EncodeEmptyIff(placeId);
    var gallery := FirstImageUrls(item);
    Row(
      id := EncodeUriComponent(placeId),
      sourceId := placeId,
      name := Either(item.title, Either(item.name, "Sem nome")),
      category := HintCategory(category),
      rating := GmRating(item),
      reviewCount := OrZero(OrNum(item.reviewsCount, item.reviews)),
      priceLevel := 0.0,
      priceText := None,
      description := Either(item.description, item.about),
      image := MainImage(item.imageUrl, gallery),
      address := Either(item.address, item.street),
      latitude := NumOrNull(RawLat(item)),
      longitude := NumOrNull(RawLng(item)),
      distanceKm := DistanceIfBoth(env, RawLat(item), RawLng(item)),
      phone := NonEmpty(Either(item.phone, item.phoneNumber)),
      website := NonEmpty(Either(item.website, item.url)),
      email := None,
      tags := Take(TagSource(item), 10),
      sourceUrl := Some(SourceUrl(item, "https://maps.google.com/?q=place_id:", placeId)),
      openStatus := NoStatus,
      menuUrl := None,
      gallery := gallery,
      highlights := [],
      originQueries := [],
      hours := []
    )
  }

  /** Tags keep the provider's categories as given: empty entries and repeats included. */
  lemma TagsKeepCategories(item: GmItem, env: Env, q: string, c: string)
    requires item.categoryName == "" && item.categories.Some? && |item.categories.value| <= 10
    ensures NormalizePlace(item, q, c, env).tags == item.categories.value
  {
    assert TagSource(item) == item.categories.value;
  }

  /** `normalizePlace` for one query. */
  function Normalizer(query: string, category: string, env: Env): GmItem -> Row {
    item => NormalizePlace(item, query, category, env)
  }

  /** The body of the item loop in `main`. */
  method IngestItem(t: PlaceTable, totals: Totals, item: GmItem, query: string, category: string, env: Env)
    returns (totals': Totals)
    requires t.Valid()
    modifies t
    ensures t.Valid()
    ensures (t.rows, totals') == IngestStep(old(t.rows), totals, item, Normalizer(query, category, env))
  {
    totals' := totals;
    if !Skipped(item) {
      var place := NormalizePlace(item, query, category, env);
      var result := t.SaveIfAbsent(place);
      totals' := Tally(totals, result);
    }
  }

  /** The loop over one query's items in `main`. */
  method IngestItems(t: PlaceTable, items: seq<GmItem>, query: string, category: string, env: Env)
    returns (totals: Totals)
    requires t.Valid()
    modifies t
    ensures t.Valid()
    ensures (t.rows, totals) == Ingest(old(t.rows), items, Normalizer(query, category, env))
  {
    totals := Totals(0, 0, 0);
    var i := 0;
    while i < |items|
      invariant 0 <= i <= |items| && t.Valid()
      invariant (t.rows, totals) == Ingest(old(t.rows), items[..i], Normalizer(query, category, env))
    {
      IngestSnoc(old(t.rows), items, i, Normalizer(query, category, env));
      totals := IngestItem(t, totals, items[i], query, category, env);
      i := i + 1;
    }
    assert items[..|items|] == items;
  }

  /**
   * `savePlaceToDb` only inserts: a record whose id is already stored leaves
   * the table as it was and is not counted as new; an unseen id is appended
   * and counted.
   */
  lemma SaveInsertsOnly(rows: seq<Row>, totals: Totals, item: GmItem, query: string, category: string, env: Env)
    requires UniqueIds(rows) && !Skipped(item)
    ensures var p := NormalizePlace(item, query, category, env);
      var r := IngestStep(rows, totals, item, Normalizer(query, category, env));
      && (FindId(rows, p.id).Some? ==> r.0 == rows && r.1.added == totals.added)
      && (FindId(rows, p.id).None? ==> r.0 == rows + [p] && r.1.added == totals.added + 1)
      && r.1.updated == totals.updated
  {
  }
}
