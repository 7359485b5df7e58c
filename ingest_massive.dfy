/**
 * `scripts/ingest-massive.js`: TripAdvisor items found by many search terms
 * become rows of the shared `places` table. The category comes from the
 * search term first; a stored row is overwritten by a better-rated record
 * or when it lacks a description or an image.
 */
module IngestMassive {
  import opened Wrappers
  import opened Text
  import opened Js
  import opened Uri
  import opened Collections
  import opened Places
  import opened Rules
  import opened CommonRules
  import opened Store
  import opened TripAdvisorItem

  /** The tests on the lower-cased search term, in order. */
  const QueryRules: seq<Rule> := [
    Rule(["restaurante", "restaurant"], "restaurants"),
    Rule(["caf\U{E9}", "cafes"], "cafes"),
    Rule(["bar", "noturna", "nightlife"], "nightlife"),
    Rule(["parque", "nature"], "nature"),
    Rule(["museu", "cultura", "culture"], "culture"),
    Rule(["shopping", "compras"], "shopping")
  ]

  /** The tests on the lower-cased name once type and name gave no restaurant or hotel. */
  const NameRules: seq<Rule> := [
    Rule(["shopping", "mall", "mercado", "feira"], "shopping"),
    Rule(["parque", "bosque", "pra\U{E7}a", "p\U{E1}tio", "jardim"], "nature"),
    Rule(["museu", "teatro", "catedral", "igreja", "centro cultural", "monumento"], "culture"),
    Rule(["bar", "pub", "brew", "balada"], "nightlife"),
    Rule(["caf\U{E9}", "cafeteria", "padaria"], "cafes")
  ]

  /**
   * `mapCategory(item, originQuery)`: the search term decides first; then a
   * restaurant type or name, then a hotel type, then the name tables;
   * `"attractions"` when nothing matches. `"hotels"` is not one of the
   * front end's tabs.
   */
  function MapCategory(item: TaItem, originQuery: string): (r: string)
    ensures FirstMatch(Lower(originQuery), QueryRules).Some? ==> r == FirstMatch(Lower(originQuery), QueryRules).value
  {
    match FirstMatch(Lower(originQuery), QueryRules)
    case Some(c) => c
    case None => ItemCategory(Lower(Either(item.itemType, item.category)), Lower(item.name))
  }

  /** The category from the lower-cased type `kind` and name when the search term told nothing. */
  function ItemCategory(kind: string, name: string): string {
    if Contains(kind, "restaurant") || Contains(name, "restaurante") then "restaurants"
    else if Contains(kind, "hotel") then "hotels"
    else FirstMatch(name, NameRules).GetOr("attractions")
  }

  /** The categories of the ingested rows; `"hotels"` is not one of the front end's tabs. */
  const MassiveCategories: set<string> := {"restaurants", "cafes", "nightlife", "nature", "culture", "shopping", "hotels", "attractions"}

  /** Every item lands in one of eight categories. */
  lemma MapCategoryRange(item: TaItem, originQuery: string)
    ensures MapCategory(item, originQuery) in MassiveCategories
  {
    QueryCategoryRange(Lower(originQuery));
    ItemCategoryRange(Lower(Either(item.itemType, item.category)), Lower(item.name));
  }

  lemma QueryCategoryRange(query: string)
    ensures FirstMatch(query, QueryRules).Some? ==> FirstMatch(query, QueryRules).value in MassiveCategories
  {
    FirstMatchWithin(query, QueryRules, MassiveCategories);
  }

  lemma ItemCategoryRange(kind: string, name: string)
    ensures ItemCategory(kind, name) in MassiveCategories
  {
    FirstMatchWithin(name, NameRules, MassiveCategories);
  }

  /**
   * An item lands in `"hotels"` exactly when no search-term test matched,
   * neither type nor name reads as a restaurant and the type reads as a hotel.
   */
  lemma MapCategoryHotels(item: TaItem, originQuery: string)
    ensures MapCategory(item, originQuery) == "hotels" <==> (FirstMatch(Lower(originQuery), QueryRules).None?
      && !Contains(Lower(Either(item.itemType, item.category)), "restaurant") && !Contains(Lower(item.name), "restaurante")
      && Contains(Lower(Either(item.itemType, item.category)), "hotel"))
  {
    FirstMatchAvoids(Lower(originQuery), QueryRules, "hotels");
    ItemCategoryHotels(Lower(Either(item.itemType, item.category)), Lower(item.name));
  }

  lemma ItemCategoryHotels(kind: string, name: string)
    ensures ItemCategory(kind, name) == "hotels"
            <==> !Contains(kind, "restaurant") && !Contains(name, "restaurante") && Contains(kind, "hotel")
  {
    FirstMatchAvoids(name, NameRules, "hotels");
  }

  /** A search term with `restaurante` files every result under restaurants, whatever its name or type. */
  lemma RestaurantQueryWins(item: TaItem, originQuery: string)
    requires Contains(Lower(originQuery), "restaurante")
    ensures MapCategory(item, originQuery) == "restaurants"
  {
    assert QueryRules[0].words[0] == "restaurante";
    assert Matches(Lower(originQuery), QueryRules[0]);
  }

  /** Without a telling term, a restaurant type beats a name that reads like a bar. */
  lemma RestaurantTypeBeatsName(item: TaItem, originQuery: string)
    requires FirstMatch(Lower(originQuery), QueryRules).None?
    requires Contains(Lower(Either(item.itemType, item.category)), "restaurant")
    ensures MapCategory(item, originQuery) == "restaurants"
  {
  }

  /** `rawId`: `id`, `locationId`, the source URL, the name, or `unknown-<now>`. */
  function RawId(item: TaItem, nowMs: nat): (r: string)
    ensures r != ""
  {
    Either(item.id, Either(item.locationId, Either(TaSourceUrl(item), Either(item.name, "unknown-" + NatToString(nowMs)))))
  }

  /**
   * `encodeId(rawId)`: the raw id is never empty, so `encodeId`'s own
   * fallback is never taken; an item without any id field gets the encoded
   * timestamp id, which encoding leaves as it is.
   */
  lemma IdIsEncodedRawId(item: TaItem, nowMs: nat)
    ensures EncodeId(RawId(item, nowMs), "unknown-" + NatToString(nowMs)) == EncodeUriComponent(RawId(item, nowMs))
    ensures item.id == "" && item.locationId == "" && TaSourceUrl(item) == "" && item.name == "" ==>
      EncodeUriComponent(RawId(item, nowMs)) == RawId(item, nowMs)
  {
    var t := "unknown-" + NatToString(nowMs);
    assert forall i :: 0 <= i < |t| ==> IsUnreserved(t[i]) by {
      forall i | 0 <= i < |t| ensures IsUnreserved(t[i]) {
        if i >= 8 {
          assert t[i] == NatToString(nowMs)[i - 8];
        }
      }
    }
    EncodeUnreserved(t);
  }

  /** `normalizePlace(item, originQuery)`: the row written to the table. */
  function NormalizePlace(item: TaItem, originQuery: string, env: Env): (r: Row)
    ensures r.id == r.sourceId == EncodeId(RawId(item, env.nowMs), "unknown-" + NatToString(env.nowMs))
    ensures r.name != "" && (item.name != "" ==> r.name == item.name)
    ensures r.category == MapCategory(item, originQuery)
    ensures r.rating == NumberOrZero(item.rating) && r.reviewCount == NumberOrZero(item.numberOfReviews)
    ensures r.priceLevel == DollarPriceLevel(item.priceLevel)
    ensures r.description == TaDescription(item) && r.address == TaAddress(item)
    ensures r.image == TaImage(item)
    ensures r.gallery == TaGallery(item).GetOr([]) && |r.gallery| <= 8
    ensures r.highlights == TaHighlights(item).GetOr([]) && |r.highlights| <= 5
    ensures r.priceText == TaPriceText(item, env.numberText)
    ensures r.phone == NonEmpty(item.phone) && r.website == NonEmpty(item.website) && r.email == NonEmpty(item.email)
    ensures r.sourceUrl == NonEmpty(TaSourceUrl(item)) && r.menuUrl == NonEmpty(item.menuWebUrl)
    ensures r.openStatus == if item.openNowText != "" then StatusText(item.openNowText) else NoStatus
    ensures r.hours == []
    ensures NoDup(r.tags) && |r.tags| <= 10
    ensures r.latitude == NumOrNull(item.latitude) && r.longitude == NumOrNull(item.longitude)
    ensures r.distanceKm == DistanceIfBoth(env, item.latitude, item.longitude)
    ensures r.originQueries == [originQuery]
  {
    var safeId := EncodeId(RawId(item, env.nowMs), "unknown-" + NatToString(env.nowMs));
    Row(
      id := safeId,
      sourceId := safeId,
      name := Either(item.name, "Lugar sem nome"),
      category := MapCategory(item, originQuery),
      rating := NumberOrZero(item.rating),
      reviewCount := NumberOrZero(item.numberOfReviews),
      priceLevel := DollarPriceLevel(item.priceLevel),
      priceText := TaPriceText(item, env.numberText),
      description := TaDescription(item),
      image := TaImage(item),
      address := TaAddress(item),
      latitude := NumOrNull(item.latitude),
      longitude := NumOrNull(item.longitude),
      distanceKm := DistanceIfBoth(env, item.latitude, item.longitude),
      phone := NonEmpty(item.phone),
      website := NonEmpty(item.website),
      email := NonEmpty(item.email),
      tags := BuildTags(item, originQuery, 10),
      sourceUrl := NonEmpty(TaSourceUrl(item)),
      openStatus := if item.openNowText != "" then StatusText(item.openNowText) else NoStatus,
      menuUrl := NonEmpty(item.menuWebUrl),
      gallery := TaGallery(item).GetOr([]),
      highlights := TaHighlights(item).GetOr([]),
      originQueries := [originQuery],
      hours := []
    )
  }

  /** `place.rating > (existing.rating || 0) || !existing.description || !existing.image` */
  predicate Replaces(existing: Row, p: Row) {
    p.rating > existing.rating || existing.description == "" || !Truthy(existing.image)
  }

  /**
   * `savePlaceToDb`: looked up by id only; an unseen id is appended, a stored
   * row is overwritten (all but its keys) when `Replaces` holds, otherwise
   * nothing changes.
   */
  function Save(rows: seq<Row>, p: Row): (r: (seq<Row>, Outcome))
    requires UniqueIds(rows)
    ensures UniqueIds(r.0)
    ensures r.1 == New <==> FindId(rows, p.id).None?
    ensures r.1 == New ==> r.0 == rows + [p]
    ensures r.1 != New ==> (r.1 == Updated <==> Replaces(rows[FindId(rows, p.id).value], p))
    ensures r.1 == Updated ==> var k := FindId(rows, p.id).value;
      r.0 == rows[k := Assign(rows[k], p)]
    ensures r.1 == Existing ==> r.0 == rows
  {
    match FindId(rows, p.id)
    case None => AppendKeepsUnique(rows, p); (rows + [p], New)
    case Some(k) =>
      UpdateKeepsIds(rows, p.id, p);
      assert UpdateWhereId(rows, p.id, p) == rows[k := Assign(rows[k], p)];
      if Replaces(rows[k], p) then (UpdateWhereId(rows, p.id, p), Updated) else (rows, Existing)
  }

  /** A stored row without a description is always refreshed, whatever the ratings. */
  lemma MissingDescriptionIsRefreshed(rows: seq<Row>, p: Row)
    requires UniqueIds(rows) && FindId(rows, p.id).Some?
    requires rows[FindId(rows, p.id).value].description == ""
    ensures Save(rows, p).1 == Updated
  {
  }

  /** A complete row is kept against an equal rating: the test is strict. */
  lemma EqualRatingKeepsCompleteRow(rows: seq<Row>, p: Row)
    requires UniqueIds(rows) && FindId(rows, p.id).Some?
    requires var e := rows[FindId(rows, p.id).value]; e.description != "" && Truthy(e.image) && e.rating == p.rating
    ensures Save(rows, p) == (rows, Existing)
  {
  }

  /** The `savePlaceToDb` statements against the table. */
  method SavePlaceToDb(t: PlaceTable, p: Row) returns (o: Outcome)
    requires t.Valid()
    modifies t
    ensures t.Valid()
    ensures (t.rows, o) == Save(old(t.rows), p)
  {
    var existing := t.SelectById(p.id);
    if existing.Some? {
      if Replaces(existing.value, p) {
        t.Update(p.id, p);
        o := Updated;
      } else {
        o := Existing;
      }
    } else {
      t.Insert(p);
      o := New;
    }
  }

  /** One pass of the item loop in `main`: every item is normalized, saved and counted. */
  function IngestStep(rows: seq<Row>, totals: Totals, item: TaItem, term: string, env: Env): (r: (seq<Row>, Totals))
    requires UniqueIds(rows)
    ensures UniqueIds(r.0)
    ensures r.1.collected == totals.collected + 1
    ensures |r.0| - |rows| == r.1.added - totals.added
    ensures r.1.added + r.1.updated - totals.added - totals.updated <= 1
    ensures r.1.added >= totals.added && r.1.updated >= totals.updated
  {
    var saved := Save(rows, NormalizePlace(item, term, env));
    (saved.0, Tally(totals, saved.1))
  }

  /** The table and counters after the item loop has seen `items`, in order. */
  function Ingest(rows: seq<Row>, items: seq<TaItem>, term: string, env: Env): (r: (seq<Row>, Totals))
    requires UniqueIds(rows)
    ensures UniqueIds(r.0)
    ensures r.1.collected == |items|
    ensures |r.0| == |rows| + r.1.added
    ensures r.1.added + r.1.updated <= |items|
    decreases |items|
  {
    if items == [] then (rows, Totals(0, 0, 0))
    else
      var before := Ingest(rows, items[..|items| - 1], term, env);
      IngestStep(before.0, before.1, items[|items| - 1], term, env)
  }

  lemma IngestSnoc(rows: seq<Row>, items: seq<TaItem>, i: nat, term: string, env: Env)
    requires UniqueIds(rows) && i < |items|
    ensures var before := Ingest(rows, items[..i], term, env);
      Ingest(rows, items[..i + 1], term, env) == IngestStep(before.0, before.1, items[i], term, env)
  {
    assert items[..i + 1][..i] == items[..i];
  }

  /** The body of the item loop in `main`. */
  method IngestItem(t: PlaceTable, totals: Totals, item: TaItem, term: string, env: Env) returns (totals': Totals)
    requires t.Valid()
    modifies t
    ensures t.Valid()
    ensures t.rows == IngestStep(old(t.rows), totals, item, term, env).0
    ensures totals' == IngestStep(old(t.rows), totals, item, term, env).1
  {
    var place := NormalizePlace(item, term, env);
    var result := SavePlaceToDb(t, place);
    totals' := Tally(totals, result);
  }

  /** The loop over one search term's items in `main`. */
  method IngestItems(t: PlaceTable, items: seq<TaItem>, term: string, env: Env) returns (totals: Totals)
    requires t.Valid()
    modifies t
    ensures t.Valid()
    ensures (t.rows, totals) == Ingest(old(t.rows), items, term, env)
  {
    totals := Totals(0, 0, 0);
    var i := 0;
    while i < |items|
      invariant 0 <= i <= |items| && t.Valid()
      invariant (t.rows, totals) == Ingest(old(t.rows), items[..i], term, env)
    {
      IngestSnoc(old(t.rows), items, i, term, env);
      totals := IngestItem(t, totals, items[i], term, env);
      i := i + 1;
    }
    assert items[..|items|] == items;
  }

  predicate Everything(r: Row) {
    true
  }

  /** `exportToJson`: every row, best rated first, more reviews first among equal ratings. */
  function ExportRows(rows: seq<Row>): (r: seq<Row>)
    ensures forall x :: x in r <==> x in rows
    ensures forall i, j :: 0 <= i < j < |r| ==> r[i].rating >= r[j].rating
    ensures forall i, j :: 0 <= i < j < |r| && r[i].rating == r[j].rating ==> r[i].reviewCount >= r[j].reviewCount
  {
    SelectOrdered(rows, Everything)
  }

  /**
   * `buildTags(item, originQuery)`: the distinct non-empty subcategories,
   * cuisines, features, type and search term, in that order, at most ten;
   * the search term is a tag whenever nothing is cut.
   */
  lemma TagsOfItem(item: TaItem, originQuery: string, env: Env)
    ensures NormalizePlace(item, originQuery, env).tags == BuildTags(item, originQuery, 10)
    ensures originQuery != "" && |Distinct(TagCandidates(item, originQuery))| <= 10 ==>
      originQuery in NormalizePlace(item, originQuery, env).tags
  {
    if originQuery != "" && |Distinct(TagCandidates(item, originQuery))| <= 10 {
      QueryIsTag(item, originQuery, 10);
    }
  }

  /**
   * `parsePriceLevel(item.priceLevel)`: 0 when the field is falsy, the count
   * of `$` signs in a text that holds one, and a JSON number as it is.
   */
  lemma PriceLevelOfItem(item: TaItem, originQuery: string, env: Env)
    ensures !PriceTruthy(item.priceLevel) ==> NormalizePlace(item, originQuery, env).priceLevel == 0.0
    ensures item.priceLevel.PriceText? && '$' in item.priceLevel.text ==>
      NormalizePlace(item, originQuery, env).priceLevel == CountChar(item.priceLevel.text, '$') as real >= 1.0
    ensures item.priceLevel.PriceNumber? ==> NormalizePlace(item, originQuery, env).priceLevel == item.priceLevel.amount
    ensures item.priceLevel.PriceText? && item.priceLevel.text != "" && '$' !in item.priceLevel.text ==>
      NormalizePlace(item, originQuery, env).priceLevel == ParseNumber(item.priceLevel.text).GetOr(0.0)
  {
  }
}
