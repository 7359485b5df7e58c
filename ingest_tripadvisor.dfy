/**
 * `scripts/ingest-tripadvisor.js`: TripAdvisor crawler items become place
 * records, deduplicated by source URL (or id) keeping the best rated, and
 * then patched by the hand-written overrides file.
 */
module IngestTripAdvisor {
  import opened Wrappers
  import opened Text
  import opened Js
  import opened Uri
  import opened Collections
  import opened Places
  import opened Rules
  import opened CommonRules
  import opened KeyedDedupe
  import opened TripAdvisorItem

  /** The tests on the lower-cased name once the type decided nothing. */
  const NameRules: seq<Rule> := [
    Rule(["shopping", "mall", "mercado", "feira"], "shopping"),
    Rule(["parque", "bosque", "pra\U{E7}a", "patio", "p\U{E3}tio", "jardim"], "nature"),
    Rule(["museu", "teatro", "catedral", "igreja", "centro cultural", "monumento", "art deco", "cultura"], "culture")
  ]

  /** `(item.type || item.category || "").toLowerCase()` */
  function Kind(item: TaItem): string {
    Lower(Either(item.itemType, item.category))
  }

  /**
   * `mapCategory(item)`: the type decides restaurants, hotels and vacation
   * rentals; then the name tables; `"attractions"` otherwise.
   */
  function MapCategory(item: TaItem): (r: string)
    ensures r in {"restaurants", "hotels", "vacation", "shopping", "nature", "culture", "attractions"}
    ensures Contains(Kind(item), "restaurant") ==> r == "restaurants"
    ensures !Contains(Kind(item), "restaurant") && Contains(Kind(item), "hotel") ==> r == "hotels"
    ensures !Contains(Kind(item), "restaurant") && !Contains(Kind(item), "hotel") && Contains(Kind(item), "vacation") ==>
      r == "vacation"
    ensures !Contains(Kind(item), "restaurant") && !Contains(Kind(item), "hotel") && !Contains(Kind(item), "vacation") ==>
      r == FirstMatch(Lower(item.name), NameRules).GetOr("attractions")
  {
    var kind := Kind(item);
    if Contains(kind, "restaurant") then "restaurants"
    else if Contains(kind, "hotel") then "hotels"
    else if Contains(kind, "vacation") then "vacation"
    else FirstMatch(Lower(item.name), NameRules).GetOr("attractions")
  }

  /** A name that reads like a shopping place beats one that also reads like a park. */
  lemma ShoppingBeforeNature(item: TaItem)
    requires !Contains(Kind(item), "restaurant") && !Contains(Kind(item), "hotel") && !Contains(Kind(item), "vacation")
    requires Contains(Lower(item.name), "shopping")
    ensures MapCategory(item) == "shopping"
  {
    assert NameRules[0].words[0] == "shopping";
    assert Matches(Lower(item.name), NameRules[0]);
  }

  /** `` `${item.type || "unknown"}-${item.rankingPosition || ""}` `` */
  function RankingId(item: TaItem, numberText: real -> string): (r: string)
    ensures r != ""
  {
    Either(item.itemType, "unknown") + "-" + (if NumTruthy(item.rankingPosition) then numberText(item.rankingPosition.value) else "")
  }

  /** `item.id || item.locationId || item.webUrl || item.name || <type>-<ranking>` */
  function RawId(item: TaItem, numberText: real -> string): (r: string)
    ensures r != ""
    ensures item.id != "" ==> r == item.id
    ensures item.id == "" && item.locationId == "" && item.webUrl == "" && item.name == "" ==> r == RankingId(item, numberText)
  {
    Either(item.id, Either(item.locationId, Either(item.webUrl, Either(item.name, RankingId(item, numberText)))))
  }

  /** The raw id is never empty, so `encodeId`'s `"unknown"` is never returned for want of one. */
  lemma UnknownFallbackUnused(item: TaItem, numberText: real -> string)
    ensures EncodeId(RawId(item, numberText), "unknown") == EncodeUriComponent(RawId(item, numberText)) != ""
  {
  }

  /** The record built for one item (before deduplication). */
  function NormalizeItem(item: TaItem, numberText: real -> string): (r: Place)
    ensures r.id == r.sourceId == EncodeUriComponent(RawId(item, numberText)) && r.id != ""
    ensures r.name != "" && (item.name != "" ==> r.name == item.name)
    ensures r.category == MapCategory(item) && r.categories == [r.category]
    ensures r.rating == NumberOrZero(item.rating) && r.reviewCount == NumberOrZero(item.numberOfReviews)
    ensures r.priceLevel == DollarPriceLevel(item.priceLevel) && r.priceText == TaPriceText(item, numberText)
    ensures r.description == TaDescription(item) && r.address == TaAddress(item)
    ensures r.image == TaImage(item) && r.gallery == TaGallery(item) && r.highlights == TaHighlights(item)
    ensures r.tags == BuildTags(item, item.originQuery, 8)
    ensures r.latitude == item.latitude && r.longitude == item.longitude && r.distanceKm.None?
    ensures r.sourceUrl == NonEmpty(TaSourceUrl(item))
    ensures r.openStatusCategory == r.openStatusText == NonEmpty(item.openNowText)
    ensures r.originQueries == if item.originQuery != "" then [item.originQuery] else []
  {
    var safeId := EncodeId(RawId(item, numberText), "unknown");
    var category := MapCategory(item);
    Blank(safeId).(
      sourceId := safeId,
      name := Either(item.name, "Lugar sem nome"),
      category := category,
      rating := NumberOrZero(item.rating),
      reviewCount := NumberOrZero(item.numberOfReviews),
      priceLevel := DollarPriceLevel(item.priceLevel),
      priceText := TaPriceText(item, numberText),
      description := TaDescription(item),
      image := TaImage(item),
      address := TaAddress(item),
      latitude := item.latitude,
      longitude := item.longitude,
      phone := NonEmpty(item.phone),
      website := NonEmpty(item.website),
      email := NonEmpty(item.email),
      tags := BuildTags(item, item.originQuery, 8),
      sourceUrl := NonEmpty(TaSourceUrl(item)),
      openStatusCategory := NonEmpty(item.openNowText),
      openStatusText := NonEmpty(item.openNowText),
      menuUrl := NonEmpty(item.menuWebUrl),
      categories := [category],
      gallery := TaGallery(item),
      highlights := TaHighlights(item),
      originQueries := if item.originQuery != "" then [item.originQuery] else []
    )
  }

  /** `sourceUrl || safeId`: the deduplication key. */
  function DedupeKey(item: TaItem, numberText: real -> string): (r: string)
    ensures r != ""
    ensures TaSourceUrl(item) != "" ==> r == TaSourceUrl(item)
  {
    Either(TaSourceUrl(item), NormalizeItem(item, numberText).id)
  }

  /** The `(key, record)` pairs the loop offers to its `Map`, in item order. */
  function KeyedItems(items: seq<TaItem>, numberText: real -> string): (r: seq<(string, Place)>)
    ensures |r| == |items|
    ensures forall i :: 0 <= i < |items| ==> r[i] == (DedupeKey(items[i], numberText), NormalizeItem(items[i], numberText))
  {
    seq(|items|, i requires 0 <= i < |items| => (DedupeKey(items[i], numberText), NormalizeItem(items[i], numberText)))
  }

  /** `normalizeItems(items)`: one record per distinct key, the best rated, the first among equals. */
  method NormalizeItems(items: seq<TaItem>, numberText: real -> string) returns (places: seq<Place>)
    ensures places == Dedupe(KeyedItems(items, numberText), RatingOf)
    ensures |places| == |Distinct(KeysOf(KeyedItems(items, numberText)))|
  {
    places := DedupeLoop(KeyedItems(items, numberText), RatingOf);
  }

  /** Items sharing a source URL end as one record, and it is the better rated of the two. */
  lemma SameUrlKeepsBetter(a: TaItem, b: TaItem, numberText: real -> string)
    requires TaSourceUrl(a) != "" && TaSourceUrl(a) == TaSourceUrl(b)
    ensures |Dedupe(KeyedItems([a, b], numberText), RatingOf)| == 1
    ensures Dedupe(KeyedItems([a, b], numberText), RatingOf)[0] ==
      if NumberOrZero(b.rating) > NumberOrZero(a.rating) then NormalizeItem(b, numberText) else NormalizeItem(a, numberText)
  {
    SameKeyTwo(KeyedItems([a, b], numberText), RatingOf);
  }

  /**
   * `applyOverrides(places, overrides)`: the override is looked up by source
   * id, then by id, and spread over the record; a missing or non-object
   * overrides value changes nothing.
   */
  function ApplyOverrides(places: seq<Place>, overrides: Option<map<string, Patch>>): (r: seq<Place>)
    ensures |r| == |places|
    ensures overrides.None? ==> r == places
    ensures forall i :: 0 <= i < |places| ==> r[i] == match overrides
      case None => places[i]
      case Some(m) => match LookupOverride(m, places[i].sourceId, places[i].id)
        case None => places[i]
        case Some(ov) => ApplyPatch(places[i], ov)
  {
    match overrides
    case None => places
    case Some(m) =>
      seq(|places|, i requires 0 <= i < |places| =>
        match LookupOverride(m, places[i].sourceId, places[i].id)
        case None => places[i]
        case Some(ov) => ApplyPatch(places[i], ov))
  }

  /** No override rewrites a lookup key (`id` or `sourceId`). */
  predicate KeepsKeys(overrides: Option<map<string, Patch>>) {
    overrides.Some? ==> forall k :: k in overrides.value ==> overrides.value[k].id.None? && overrides.value[k].sourceId.None?
  }

  /**
   * Overrides that leave the lookup keys alone keep every record's ids and
   * position, and applying them twice is applying them once.
   */
  lemma OverridesIdempotent(places: seq<Place>, overrides: Option<map<string, Patch>>)
    requires KeepsKeys(overrides)
    ensures forall i :: 0 <= i < |places| ==>
      ApplyOverrides(places, overrides)[i].id == places[i].id && ApplyOverrides(places, overrides)[i].sourceId == places[i].sourceId
    ensures ApplyOverrides(ApplyOverrides(places, overrides), overrides) == ApplyOverrides(places, overrides)
  {
    var once := ApplyOverrides(places, overrides);
    forall i | 0 <= i < |places|
      ensures once[i].id == places[i].id && once[i].sourceId == places[i].sourceId
      ensures ApplyOverrides(once, overrides)[i] == once[i]
    {
      match overrides
      case None =>
      case Some(m) =>
        match LookupOverride(m, places[i].sourceId, places[i].id)
        case None =>
        case Some(ov) =>
          assert ov in m.Values;
          PatchTwice(places[i], ov);
    }
  }

  /**
   * An override that moves a record's source id to another key of the file
   * makes a second pass pick up that key's override: `{"A": {sourceId: "B"},
   * "B": {name: "X"}}` renames the record only on the second pass.
   */
  lemma OverrideMovingKeyExample(p: Place)
    requires p.id == "A" && p.sourceId == "A" && p.name != "X"
    ensures var m := map["A" := EmptyPatch.(sourceId := Some("B")), "B" := EmptyPatch.(name := Some("X"))];
      ApplyOverrides([p], Some(m))[0].name == p.name
      && ApplyOverrides(ApplyOverrides([p], Some(m)), Some(m))[0].name == "X"
  {
    var m := map["A" := EmptyPatch.(sourceId := Some("B")), "B" := EmptyPatch.(name := Some("X"))];
    var once := ApplyOverrides([p], Some(m));
    assert once[0] == ApplyPatch(p, m["A"]);
    assert once[0].sourceId == "B";
  }
  // Enrichment from the place pages

  /** `ENRICH_IMAGES_PER_PLACE` */
  const EnrichImages: nat := 6

  /** `(!p.gallery || p.gallery.length < 2) && p.sourceUrl`: the places `enrichPlaces` visits. */
  predicate NeedsEnrich(p: Place) {
    (p.gallery.None? || |p.gallery.value| < 2) && p.sourceUrl.Some? && p.sourceUrl.value != ""
  }

  /**
   * What `fetchPlaceDetails` read from a place page: the image URLs it found
   * (`og:image`, `image_src` and `img` sources, made absolute, in page
   * order), the description (`""` for `undefined`) and the highlight texts.
   */
  datatype PageDetails = PageDetails(images: seq<string>, description: string, highlights: seq<string>)

  /**
   * The gallery `fetchPlaceDetails` returns: a set seeded with the stored
   * gallery, then the page's images, the first six of them.
   */
  function ScrapedGallery(stored: seq<string>, d: PageDetails): (r: seq<string>)
    ensures NoDup(r) && |r| <= EnrichImages
    ensures forall u :: u in r ==> u in stored || u in d.images
    ensures |Distinct(stored + d.images)| <= EnrichImages ==> forall u :: u in stored || u in d.images ==> u in r
  {
    TakeDistinct(stored + d.images, EnrichImages)
  }

  /** A stored gallery without repeats and within the cap leads the scraped one. */
  lemma ScrapedGalleryKeepsStored(stored: seq<string>, d: PageDetails)
    requires NoDup(stored) && |stored| <= EnrichImages
    ensures stored <= ScrapedGallery(stored, d)
  {
    var all := Distinct(stored + d.images);
    assert stored <= all by {
      AddAllConcat([], stored, d.images);
      assert [] + stored == stored;
      AddAllNoDup([], stored);
      assert all == AddAll(stored, d.images);
    }
    var r := ScrapedGallery(stored, d);
    assert r <= all && |stored| <= |r|;
    forall i | 0 <= i < |stored| ensures r[i] == stored[i] {
      assert r[i] == all[i] && stored[i] == all[i];
    }
  }

  /** One visited place once its page was read: the body of the worker loop in `enrichPlaces`. */
  function ApplyPageDetails(p: Place, d: PageDetails): (r: Place)
    ensures r.(gallery := p.gallery, description := p.description, highlights := p.highlights) == p
    ensures |ScrapedGallery(p.gallery.GetOr([]), d)| > |p.gallery.GetOr([])| ==>
      r.gallery == Some(ScrapedGallery(p.gallery.GetOr([]), d))
    ensures |ScrapedGallery(p.gallery.GetOr([]), d)| <= |p.gallery.GetOr([])| ==> r.gallery == p.gallery
    ensures p.description == "" && d.description != "" ==> r.description == d.description
    ensures p.description != "" || d.description == "" ==> r.description == p.description
    ensures d.highlights == [] ==> r.highlights == p.highlights
    ensures d.highlights != [] ==> r.highlights == Some(TakeDistinct(p.highlights.GetOr([]) + d.highlights, 6))
  {
    var stored := p.gallery.GetOr([]);
    var g := ScrapedGallery(stored, d);
    assert Take(g, EnrichImages) == g by {
      if |g| == EnrichImages {
        assert g[..EnrichImages] == g;
      }
    }
    p.(
      gallery := if |g| > |stored| then Some(Take(g, EnrichImages)) else p.gallery,
      description := if p.description == "" && d.description != "" then d.description else p.description,
      highlights := if d.highlights != [] then Some(TakeDistinct(p.highlights.GetOr([]) + d.highlights, 6)) else p.highlights
    )
  }

  /**
   * A visited place keeps its stored images in front, gains only images of
   * its page, at most six in all, and keeps a description it has.
   */
  lemma EnrichKeepsStored(p: Place, d: PageDetails)
    requires NeedsEnrich(p)
    ensures p.gallery.GetOr([]) <= ApplyPageDetails(p, d).gallery.GetOr([])
    ensures forall u :: u in ApplyPageDetails(p, d).gallery.GetOr([]) ==> u in p.gallery.GetOr([]) || u in d.images
    ensures |ApplyPageDetails(p, d).gallery.GetOr([])| <= EnrichImages
    ensures p.description != "" ==> ApplyPageDetails(p, d).description == p.description
  {
    ScrapedGalleryKeepsStored(p.gallery.GetOr([]), d);
  }

  /**
   * `enrichPlaces(places)`: every place with fewer than two gallery images
   * and a source URL is updated from its page; a page that could not be
   * read (`None`) leaves the place as it was. `fetch` stands for
   * `fetchPlaceDetails` on the source URL.
   */
  function EnrichPlaces(places: seq<Place>, fetch: string -> Option<PageDetails>): (r: seq<Place>)
    ensures |r| == |places|
    ensures forall i :: 0 <= i < |places| ==> r[i].id == places[i].id && r[i].sourceId == places[i].sourceId
  {
    seq(|places|, i requires 0 <= i < |places| => EnrichOne(places[i], fetch))
  }

  /** One place of `enrichPlaces`: updated from its page when it is visited and the page was read. */
  function EnrichOne(p: Place, fetch: string -> Option<PageDetails>): (r: Place)
    ensures r.id == p.id && r.sourceId == p.sourceId
  {
    if NeedsEnrich(p) && fetch(p.sourceUrl.value).Some? then ApplyPageDetails(p, fetch(p.sourceUrl.value).value) else p
  }

  /**
   * A place with two or more images, or without a source URL, is left as it
   * is; a visited place changes only in gallery, description and highlights,
   * and exactly as its page says.
   */
  lemma EnrichPlacesFacts(places: seq<Place>, fetch: string -> Option<PageDetails>, i: nat)
    requires i < |places|
    ensures !NeedsEnrich(places[i]) ==> EnrichPlaces(places, fetch)[i] == places[i]
    ensures NeedsEnrich(places[i]) && fetch(places[i].sourceUrl.value).None? ==> EnrichPlaces(places, fetch)[i] == places[i]
    ensures NeedsEnrich(places[i]) && fetch(places[i].sourceUrl.value).Some? ==>
      EnrichPlaces(places, fetch)[i] == ApplyPageDetails(places[i], fetch(places[i].sourceUrl.value).value)
    ensures EnrichPlaces(places, fetch)[i].(gallery := places[i].gallery, description := places[i].description,
                                           highlights := places[i].highlights) == places[i]
  {
  }
}
