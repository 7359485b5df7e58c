/**
 * `scripts/ingest-merged.js`: TripAdvisor items become place records
 * (deduplicated by source URL or id, best rated kept), and each record whose
 * normalized name has a geocoder answer is completed with its coordinates,
 * distance, address, queries and tags.
 */
module IngestMerged {
  import opened Wrappers
  import opened Text
  import opened Js
  import opened Collections
  import opened Places
  import opened CommonRules
  import opened KeyedDedupe
  import opened TripAdvisorItem
  import IngestOpenMap

  /** The fields of a TripAdvisor crawler item this script reads. */
  datatype TripItem = TripItem(
    id: string,
    locationId: string,
    webUrl: string,
    url: string,
    name: string,
    itemType: string,
    category: string,
    rankingPosition: Option<real>,
    image: string,
    /** `photos[i]?.url`; `None` for an entry without one. */
    photos: Option<seq<Option<string>>>,
    /** `price_level` */
    priceLevelSnake: PriceRaw,
    priceLevel: PriceRaw,
    priceRange: string,
    price: string,
    description: string,
    snippet: string,
    rating: Option<real>,
    averageRating: Option<real>,
    numberOfReviews: Option<real>,
    numReviews: Option<real>,
    userReviewCount: Option<real>,
    address: string,
    /** `address_obj?.address_string` */
    addressString: string,
    parentGeoName: string,
    phone: string,
    phoneNumber: string,
    website: string,
    currentOpenStatusCategory: Option<string>,
    currentOpenStatusText: Option<string>,
    menuUrl: string,
    menuLink: string,
    /** `subcategories[i].name || subcategories[i]` */
    subcategories: Option<seq<string>>,
    /** `cuisine[i]?.name` */
    cuisine: Option<seq<string>>,
    establishmentTypeAndCuisineTags: Option<seq<string>>,
    /** `reviewSnippets?.reviewSnippetsList?.map((r) => r.reviewText)` */
    reviewSnippets: Option<seq<string>>,
    /** `__originQuery`, the search term that found the item. */
    originQuery: string
  )

  /** `item.webUrl || item.url` */
  function SourceUrl(item: TripItem): string {
    WebOrPlainUrl(item.webUrl, item.url)
  }

  /** `item.id || item.locationId || item.webUrl || item.name || "<type or unknown>-<ranking>"`: never empty. */
  function RawId(item: TripItem, numberText: real -> string): (r: string)
    ensures r != ""
    ensures item.id != "" ==> r == item.id
  {
    Either(item.id, Either(item.locationId, Either(item.webUrl, Either(item.name,
      Either(item.itemType, "unknown") + "-" + (if NumTruthy(item.rankingPosition) then numberText(item.rankingPosition.value) else "")))))
  }

  /** The record's id: the URI encoding of the raw id. */
  function SafeId(item: TripItem, numberText: real -> string): (r: string)
    ensures r != "" && r == EncodeId(RawId(item, numberText), "unknown")
  {
    EncodeId(RawId(item, numberText), "unknown")
  }

  /** `sourceUrl || safeId`: the deduplication key. */
  function DedupeKey(item: TripItem, numberText: real -> string): (r: string)
    ensures r != ""
    ensures SourceUrl(item) != "" ==> r == SourceUrl(item)
    ensures SourceUrl(item) == "" ==> r == SafeId(item, numberText)
  {
    Either(SourceUrl(item), SafeId(item, numberText))
  }

  /** What `buildTagsTrip` adds to its `Set`, in order. */
  function TagCandidates(item: TripItem): (r: seq<string>)
    ensures forall t :: t in r ==> t != ""
    ensures item.originQuery != "" ==> |r| > 0 && r[|r| - 1] == item.originQuery
  {
    Compact(item.subcategories.GetOr([])) + Compact(item.cuisine.GetOr([]))
    + Compact(item.establishmentTypeAndCuisineTags.GetOr([]))
    + (if item.category != "" then [item.category] else [])
    + (if item.itemType != "" then [item.itemType] else [])
    + (if item.originQuery != "" then [item.originQuery] else [])
  }

  /** `buildTagsTrip(item)`: distinct, non-empty, at most 8, in order of first addition. */
  function BuildTagsTrip(item: TripItem): (r: seq<string>)
    ensures NoDup(r) && |r| <= 8
    ensures forall t :: t in r ==> t != "" && t in TagCandidates(item)
    ensures r <= Distinct(TagCandidates(item))
    ensures |Distinct(TagCandidates(item))| <= 8 ==> forall t :: t in TagCandidates(item) ==> t in r
    ensures |r| == if |Distinct(TagCandidates(item))| <= 8 then |Distinct(TagCandidates(item))| else 8
  {
    TakeDistinct(TagCandidates(item), 8)
  }

  /** The search term is a tag whenever the tags are not cut. */
  lemma QueryIsTag(item: TripItem)
    requires item.originQuery != "" && |Distinct(TagCandidates(item))| <= 8
    ensures item.originQuery in BuildTagsTrip(item)
  {
  }

  /** `item.price_level || item.priceLevel`, the value `parsePriceLevel` reads. */
  function PriceSource(item: TripItem): (r: PriceRaw)
    ensures PriceTruthy(item.priceLevelSnake) ==> r == item.priceLevelSnake
    ensures !PriceTruthy(item.priceLevelSnake) ==> r == item.priceLevel
  {
    if PriceTruthy(item.priceLevelSnake) then item.priceLevelSnake else item.priceLevel
  }

  /** `item.price_level || item.priceRange || item.price` */
  function PriceText(item: TripItem, numberText: real -> string): (r: Option<string>)
    ensures PriceTruthy(item.priceLevelSnake) ==> r == PriceRawText(item.priceLevelSnake, numberText)
    ensures !PriceTruthy(item.priceLevelSnake) && item.priceRange != "" ==> r == Some(item.priceRange)
    ensures !PriceTruthy(item.priceLevelSnake) && item.priceRange == "" ==> r == NonEmpty(item.price)
  {
    if PriceTruthy(item.priceLevelSnake) then PriceRawText(item.priceLevelSnake, numberText)
    else if item.priceRange != "" then Some(item.priceRange)
    else NonEmpty(item.price)
  }

  /** `item.image || (photos is a non-empty array ? photos[0]?.url : null)` */
  function Image(item: TripItem): Option<string> {
    ImageOrFirstPhoto(item.image, item.photos)
  }

  /** The first five review snippets, when the item has the list. */
  function Highlights(item: TripItem): (r: Option<seq<string>>)
    ensures r.None? <==> item.reviewSnippets.None?
    ensures r.Some? ==> |r.value| <= 5 && r.value <= item.reviewSnippets.value
  {
    match item.reviewSnippets
    case None => None
    case Some(ts) => Some(Take(ts, 5))
  }

  /** The category: `mapCategory([item.category, item.type, originQuery])`. */
  function TripCategory(item: TripItem): string {
    MapCategoryList([item.category, item.itemType, item.originQuery])
  }

  /** The record `normalizeTrip` builds for one item, before deduplication. */
  function NormalizeTripItem(item: TripItem, numberText: real -> string): (r: Place)
    ensures r.id == r.sourceId == SafeId(item, numberText)
    ensures r.name != "" && (item.name != "" ==> r.name == item.name)
    ensures r.category == TripCategory(item) && r.categories == [r.category]
    ensures r.rating == Nullish(item.rating, item.averageRating).GetOr(0.0)
    ensures r.reviewCount == Nullish(item.numberOfReviews, Nullish(item.numReviews, item.userReviewCount)).GetOr(0.0)
    ensures r.priceLevel == DollarPriceLevel(PriceSource(item)) && r.priceText == PriceText(item, numberText)
    ensures r.description != "" && (item.description != "" ==> r.description == item.description)
    ensures item.description == "" && item.snippet != "" ==> r.description == item.snippet
    ensures item.description == "" && item.snippet == "" ==> r.description == "Descri\U{E7}\U{E3}o n\U{E3}o dispon\U{ED}vel"
    ensures r.address != "" && (item.address != "" ==> r.address == item.address)
    ensures item.address == "" && item.addressString != "" ==> r.address == item.addressString
    ensures item.address == "" && item.addressString == "" && item.parentGeoName != "" ==> r.address == item.parentGeoName
    ensures item.address == "" && item.addressString == "" && item.parentGeoName == "" ==> r.address == "Endere\U{E7}o n\U{E3}o informado"
    ensures item.phone != "" ==> r.phone == Some(item.phone)
    ensures item.phone == "" ==> r.phone == NonEmpty(item.phoneNumber)
    ensures r.website == NonEmpty(item.website)
    ensures item.menuUrl != "" ==> r.menuUrl == Some(item.menuUrl)
    ensures item.menuUrl == "" ==> r.menuUrl == NonEmpty(item.menuLink)
    ensures r.latitude.None? && r.longitude.None? && r.distanceKm.None? && r.email.None?
    ensures r.tags == BuildTagsTrip(item) && r.image == Image(item) && r.highlights == Highlights(item)
    ensures r.sourceUrl == NonEmpty(SourceUrl(item))
    ensures r.openStatusCategory == item.currentOpenStatusCategory && r.openStatusText == item.currentOpenStatusText
    ensures r.gallery.None? && r.notes.None? && r.hours.None?
    ensures r.originQueries == if item.originQuery != "" then [item.originQuery] else []
  {
    var safeId := SafeId(item, numberText);
    var category := TripCategory(item);
    Blank(safeId).(
      sourceId := safeId,
      name := Either(item.name, "Lugar sem nome"),
      category := category,
      rating := Nullish(item.rating, item.averageRating).GetOr(0.0),
      reviewCount := Nullish(item.numberOfReviews, Nullish(item.numReviews, item.userReviewCount)).GetOr(0.0),
      priceLevel := DollarPriceLevel(PriceSource(item)),
      priceText := PriceText(item, numberText),
      description := Either(item.description, Either(item.snippet, "Descri\U{E7}\U{E3}o n\U{E3}o dispon\U{ED}vel")),
      image := Image(item),
      address := Either(item.address, Either(item.addressString, Either(item.parentGeoName, "Endere\U{E7}o n\U{E3}o informado"))),
      phone := NonEmpty(Either(item.phone, item.phoneNumber)),
      website := NonEmpty(item.website),
      tags := BuildTagsTrip(item),
      sourceUrl := NonEmpty(SourceUrl(item)),
      openStatusCategory := item.currentOpenStatusCategory,
      openStatusText := item.currentOpenStatusText,
      menuUrl := NonEmpty(Either(item.menuUrl, item.menuLink)),
      categories := [category],
      highlights := Highlights(item),
      originQueries := if item.originQuery != "" then [item.originQuery] else []
    )
  }

  /** The `(key, record)` pairs `normalizeTrip` offers to its `Map`, in item order. */
  function KeyedItems(items: seq<TripItem>, numberText: real -> string): (r: seq<(string, Place)>)
    ensures |r| == |items|
    ensures forall i :: 0 <= i < |items| ==> r[i] == (DedupeKey(items[i], numberText), NormalizeTripItem(items[i], numberText))
  {
    seq(|items|, i requires 0 <= i < |items| => (DedupeKey(items[i], numberText), NormalizeTripItem(items[i], numberText)))
  }

  /** `normalizeTrip(items)`: one record per distinct key, the best rated, the first among equals. */
  method NormalizeTrip(items: seq<TripItem>, numberText: real -> string) returns (places: seq<Place>)
    ensures places == Dedupe(KeyedItems(items, numberText), RatingOf)
    ensures |places| == |Distinct(KeysOf(KeyedItems(items, numberText)))|
  {
    places := DedupeLoop(KeyedItems(items, numberText), RatingOf);
  }

  /** Items sharing a key (a source URL, say) end as one record: the second only when strictly better rated. */
  lemma SameKeyKeepsBetter(a: TripItem, b: TripItem, numberText: real -> string)
    requires DedupeKey(a, numberText) == DedupeKey(b, numberText)
    ensures |Dedupe(KeyedItems([a, b], numberText), RatingOf)| == 1
    ensures RatingOf(NormalizeTripItem(b, numberText)) > RatingOf(NormalizeTripItem(a, numberText)) ==>
      Dedupe(KeyedItems([a, b], numberText), RatingOf)[0] == NormalizeTripItem(b, numberText)
    ensures RatingOf(NormalizeTripItem(b, numberText)) <= RatingOf(NormalizeTripItem(a, numberText)) ==>
      Dedupe(KeyedItems([a, b], numberText), RatingOf)[0] == NormalizeTripItem(a, numberText)
  {
    SameKeyTwo(KeyedItems([a, b], numberText), RatingOf);
  }

  // Name matching

  /** `\w` in a regular expression without the `u` flag. */
  predicate IsWordChar(c: char) {
    'a' <= c <= 'z' || 'A' <= c <= 'Z' || '0' <= c <= '9' || c == '_'
  }

  /** `replace(/[^\w\s]/g, "")` */
  function KeepWordsAndSpaces(s: string): (r: string)
    ensures |r| <= |s|
    ensures forall i :: 0 <= i < |r| ==> IsWordChar(r[i]) || IsSpace(r[i])
    ensures (forall i :: 0 <= i < |s| ==> IsWordChar(s[i]) || IsSpace(s[i])) ==> r == s
  {
    if s == [] then []
    else (if IsWordChar(s[0]) || IsSpace(s[0]) then [s[0]] else []) + KeepWordsAndSpaces(s[1..])
  }

  /**
   * `normalizeName(name)`: lower-cased, accents stripped, everything but
   * letters, digits, `_` and white space removed, trimmed.
   */
  function NormalizeName(name: string): (r: string)
    ensures forall i :: 0 <= i < |r| ==> IsWordChar(r[i]) || IsSpace(r[i])
    ensures r != [] ==> !IsSpace(r[0]) && !IsSpace(r[|r| - 1])
  {
    var kept := KeepWordsAndSpaces(Fold(name));
    TrimKeepsWordsAndSpaces(kept);
    Trim(kept)
  }

  lemma TrimKeepsWordsAndSpaces(s: string)
    requires forall i :: 0 <= i < |s| ==> IsWordChar(s[i]) || IsSpace(s[i])
    ensures forall i :: 0 <= i < |Trim(s)| ==> IsWordChar(Trim(s)[i]) || IsSpace(Trim(s)[i])
  {
    var r := Trim(s);
    var lo :| SliceAmidSpace(s, r, lo);
    forall i | 0 <= i < |r| ensures IsWordChar(r[i]) || IsSpace(r[i]) {
      assert r[i] == s[lo + i];
    }
  }

  /** Names that differ only in letter case match. */
  lemma NameIgnoresCase(name: string)
    ensures NormalizeName(Upper(name)) == NormalizeName(name)
  {
    LowerUpper(name);
    assert Fold(Upper(name)) == Fold(name);
  }

  /** Without combining marks, stripping accents maps each letter to its base letter. */
  lemma {:induction false} StripAccentsPointwise(s: string)
    requires forall i :: 0 <= i < |s| ==> !IsCombiningMark(s[i])
    ensures |StripAccents(s)| == |s| && forall i :: 0 <= i < |s| ==> StripAccents(s)[i] == BaseLetter(s[i])
    decreases |s|
  {
    if s != [] {
      StripAccentsPointwise(s[1..]);
    }
  }

  /** Names that differ only in letter case and accents (no combining marks in them) match. */
  lemma NameIgnoresAccents(a: string, b: string)
    requires |a| == |b|
    requires forall i :: 0 <= i < |a| ==> !IsCombiningMark(a[i]) && !IsCombiningMark(b[i])
    requires forall i :: 0 <= i < |a| ==> BaseLetter(LowerChar(a[i])) == BaseLetter(LowerChar(b[i]))
    ensures NormalizeName(a) == NormalizeName(b)
  {
    StripAccentsPointwise(Lower(a));
    StripAccentsPointwise(Lower(b));
    assert Fold(a) == Fold(b);
  }

  /** `"Praça Cívica"` and `"PRACA CIVICA"` name the same place. */
  lemma AccentedNameMatches()
    ensures NormalizeName("Pra\U{E7}a C\U{ED}vica") == NormalizeName("PRACA CIVICA")
  {
    NameIgnoresAccents("Pra\U{E7}a C\U{ED}vica", "PRACA CIVICA");
  }

  // Merging with the geocoder's answers

  /** What `enrichCoordsFromOpenMap` stores for a name. */
  datatype Geocode = Geocode(
    lat: Option<real>,
    lng: Option<real>,
    /** `item.address || item.vicinity` */
    address: string,
    distanceKm: Option<real>,
    originQueries: seq<string>,
    tags: seq<string>
  )

  /**
   * The names `enrichCoordsFromOpenMap` looks up: those of the first `limit`
   * trip records (`OPENMAP_GEOCODE_LIMIT`, 200 unless configured).
   */
  function GeocodeNames(trip: seq<Place>, limit: nat): (r: seq<string>)
    ensures |r| == if limit <= |trip| then limit else |trip|
    ensures forall i :: 0 <= i < |r| ==> r[i] == trip[i].name
  {
    seq(if limit <= |trip| then limit else |trip|, i requires 0 <= i < |trip| && i < limit => trip[i].name)
  }

  /**
   * The entry stored for a name whose lookup answered: the first item's
   * coordinates (`numberOrUndefined(latitude || lat)`), its address
   * (`address || vicinity`), the hotel distance, the search text and the
   * item's categories (`[]` when it has none).
   */
  function GeocodeOf(name: string, location: string, item: IngestOpenMap.OmItem, env: Env): (g: Geocode)
    ensures g.lat == OrNum(item.latitude, item.lat) && g.lng == OrNum(item.longitude, item.lng)
    ensures g.distanceKm.Some? <==> g.lat.Some? && g.lng.Some?
    ensures g.distanceKm.Some? ==> g.distanceKm.value == env.distanceFromHotel(g.lat.value, g.lng.value)
    ensures item.address != "" ==> g.address == item.address
    ensures item.address == "" ==> g.address == item.vicinity
    ensures g.originQueries == [Trim(name + " " + location)]
    ensures item.categories.Some? ==> g.tags == item.categories.value
    ensures item.categories.None? ==> g.tags == []
  {
    var lat := OrNum(item.latitude, item.lat);
    var lng := OrNum(item.longitude, item.lng);
    Geocode(lat, lng, Either(item.address, item.vicinity), DistanceIfBoth(env, lat, lng),
            [Trim(name + " " + location)], item.categories.GetOr([]))
  }

  /**
   * One finished lookup of the worker pool: the name looked up and the first
   * item of the answer, `None` when the run had no dataset, the dataset was
   * empty or the call threw.
   */
  datatype Lookup = Lookup(name: string, answer: Option<IngestOpenMap.OmItem>)

  /**
   * `enrichCoordsFromOpenMap`'s result map, its `set` calls made in the order
   * the lookups finished: keyed by the normalized name, a later answer for
   * the same key replacing an earlier one.
   */
  function GeocodeMap(lookups: seq<Lookup>, location: string, env: Env): map<string, Geocode>
    decreases |lookups|
  {
    if lookups == [] then map[]
    else
      var m := GeocodeMap(lookups[..|lookups| - 1], location, env);
      var l := lookups[|lookups| - 1];
      if l.answer.Some? then m[NormalizeName(l.name) := GeocodeOf(l.name, location, l.answer.value, env)] else m
  }

  /** Lookup `i` answered for a name that normalizes to `k`. */
  predicate AnsweredAs(lookups: seq<Lookup>, i: int, k: string) {
    0 <= i < |lookups| && lookups[i].answer.Some? && NormalizeName(lookups[i].name) == k
  }

  /** The key lookup `l` writes: its normalized name when it answered. */
  function WrittenKey(l: Lookup): (r: Option<string>)
    ensures r.Some? <==> l.answer.Some?
    ensures r.Some? ==> r.value == NormalizeName(l.name)
  {
    if l.answer.Some? then Some(NormalizeName(l.name)) else None
  }

  /** The set of keys a run of writes leaves, one optional key per write. */
  function Written(ks: seq<Option<string>>): set<string>
    decreases |ks|
  {
    if ks == [] then {}
    else
      var last := ks[|ks| - 1];
      Written(ks[..|ks| - 1]) + if last.Some? then {last.value} else {}
  }

  /** Every key written stays in the set. */
  lemma {:induction false} WrittenHas(ks: seq<Option<string>>, i: nat)
    requires i < |ks| && ks[i].Some?
    ensures ks[i].value in Written(ks)
    decreases |ks|
  {
    var n := |ks| - 1;
    if i < n {
      var front := ks[..n];
      assert front[i] == ks[i];
      WrittenHas(front, i);
    }
  }

  /** Every key in the set was written by some write. */
  lemma {:induction false} WrittenFrom(ks: seq<Option<string>>, k: string)
    requires k in Written(ks)
    ensures exists i :: 0 <= i < |ks| && ks[i] == Some(k)
    decreases |ks|
  {
    var n := |ks| - 1;
    if ks[n] != Some(k) {
      var front := ks[..n];
      WrittenFrom(front, k);
      var i :| 0 <= i < |front| && front[i] == Some(k);
      assert ks[i] == front[i];
    }
  }

  /** The keys the lookups write, in the order they finished. */
  function WrittenKeys(lookups: seq<Lookup>): (r: seq<Option<string>>)
    ensures |r| == |lookups|
    ensures forall i :: 0 <= i < |lookups| ==> r[i] == WrittenKey(lookups[i])
  {
    seq(|lookups|, i requires 0 <= i < |lookups| => WrittenKey(lookups[i]))
  }

  /** The map's keys are the keys its `set` calls wrote. */
  lemma {:induction false} GeocodeMapKeySet(lookups: seq<Lookup>, location: string, env: Env)
    ensures GeocodeMap(lookups, location, env).Keys == Written(WrittenKeys(lookups))
    decreases |lookups|
  {
    if lookups != [] {
      var n := |lookups| - 1;
      GeocodeMapKeySet(lookups[..n], location, env);
      assert WrittenKeys(lookups)[..n] == WrittenKeys(lookups[..n]);
    }
  }

  /** The map's keys are exactly the normalized names of the lookups that answered. */
  lemma GeocodeMapKeys(lookups: seq<Lookup>, location: string, env: Env, k: string)
    ensures k in GeocodeMap(lookups, location, env) <==> exists i :: AnsweredAs(lookups, i, k)
  {
    var ks := WrittenKeys(lookups);
    GeocodeMapKeySet(lookups, location, env);
    if k in Written(ks) {
      WrittenFrom(ks, k);
      var i :| 0 <= i < |ks| && ks[i] == Some(k);
      assert AnsweredAs(lookups, i, k);
    }
    if exists i :: AnsweredAs(lookups, i, k) {
      var i :| AnsweredAs(lookups, i, k);
      WrittenHas(ks, i);
    }
  }

  /** A name's entry is the answer of its last lookup that answered: the last `set` wins. */
  lemma {:induction false} GeocodeLastWins(lookups: seq<Lookup>, location: string, env: Env, i: nat)
    requires i < |lookups| && lookups[i].answer.Some?
    requires forall j :: i < j < |lookups| && lookups[j].answer.Some? ==>
      NormalizeName(lookups[j].name) != NormalizeName(lookups[i].name)
    ensures NormalizeName(lookups[i].name) in GeocodeMap(lookups, location, env)
    ensures GeocodeMap(lookups, location, env)[NormalizeName(lookups[i].name)] ==
      GeocodeOf(lookups[i].name, location, lookups[i].answer.value, env)
    decreases |lookups|
  {
    var front := lookups[..|lookups| - 1];
    if i < |lookups| - 1 {
      assert front[i] == lookups[i];
      forall j | i < j < |front| && front[j].answer.Some?
        ensures NormalizeName(front[j].name) != NormalizeName(front[i].name)
      {
        assert front[j] == lookups[j];
      }
      GeocodeLastWins(front, location, env, i);
    }
  }

  /** The body of `if (match) { ... }` in `mergePlaces`. */
  function MergeMatch(t: Place, m: Geocode, env: Env): Place
  {
    var lat := Nullish(t.latitude, m.lat);
    var lng := Nullish(t.longitude, m.lng);
    t.(
      latitude := lat,
      longitude := lng,
      address := Either(t.address, m.address),
      distanceKm := if lat.Some? && lng.Some? then DistanceIfBoth(env, lat, lng) else m.distanceKm,
      originQueries := Distinct(t.originQueries + m.originQueries),
      tags := TakeDistinct(t.tags + m.tags, 8)
    )
  }

  /**
   * A match fills only what the trip record lacks: coordinates, address and
   * distance are the record's own when it has them; the search terms and the
   * tags of both are united without repeats (at most eight tags); nothing
   * else changes.
   */
  lemma MergeMatchFacts(t: Place, m: Geocode, env: Env)
    ensures var r := MergeMatch(t, m, env);
      && r.latitude == (if t.latitude.Some? then t.latitude else m.lat)
      && r.longitude == (if t.longitude.Some? then t.longitude else m.lng)
      && r.address == (if t.address != "" then t.address else m.address)
      && r.distanceKm == (if r.latitude.Some? && r.longitude.Some? then DistanceIfBoth(env, r.latitude, r.longitude) else m.distanceKm)
    ensures var r := MergeMatch(t, m, env);
      && NoDup(r.originQueries) && (forall q :: q in r.originQueries <==> q in t.originQueries || q in m.originQueries)
      && NoDup(r.tags) && |r.tags| <= 8 && (forall g :: g in r.tags ==> g in t.tags || g in m.tags)
      && (|Distinct(t.tags + m.tags)| <= 8 ==> forall g :: g in t.tags || g in m.tags ==> g in r.tags)
    ensures MergeMatch(t, m, env).(latitude := t.latitude, longitude := t.longitude, address := t.address,
                                   distanceKm := t.distanceKm, originQueries := t.originQueries, tags := t.tags) == t
  {
  }

  /** One trip record after the lookup of its normalized name. */
  function MergeOne(t: Place, byName: map<string, Geocode>, env: Env): (r: Place)
    ensures r.id == t.id
    ensures NormalizeName(t.name) !in byName ==> r == t
    ensures NormalizeName(t.name) in byName ==> r == MergeMatch(t, byName[NormalizeName(t.name)], env)
  {
    var key := NormalizeName(t.name);
    if key in byName then MergeMatch(t, byName[key], env) else t
  }

  /** Filling coordinates never overwrites one the trip record has. */
  lemma MergeKeepsCoordinates(t: Place, byName: map<string, Geocode>, env: Env)
    requires t.latitude.Some? && t.longitude.Some?
    ensures MergeOne(t, byName, env).latitude == t.latitude && MergeOne(t, byName, env).longitude == t.longitude
    ensures MergeOne(t, byName, env).distanceKm == t.distanceKm ||
      MergeOne(t, byName, env).distanceKm == DistanceIfBoth(env, t.latitude, t.longitude)
  {
  }

  /** A fresh trip record (no coordinates) takes the geocoder's coordinates, and a distance from them when both exist. */
  lemma FreshRecordTakesGeocode(t: Place, byName: map<string, Geocode>, env: Env)
    requires t.latitude.None? && t.longitude.None? && NormalizeName(t.name) in byName
    ensures var m := byName[NormalizeName(t.name)];
      MergeOne(t, byName, env).latitude == m.lat && MergeOne(t, byName, env).longitude == m.lng
      && MergeOne(t, byName, env).distanceKm == (if m.lat.Some? && m.lng.Some? then DistanceIfBoth(env, m.lat, m.lng) else m.distanceKm)
  {
  }

  /** The `(id, record)` pairs `mergePlaces` sets in `mergedMap`, in order. */
  function MergedPairs(trip: seq<Place>, byName: map<string, Geocode>, env: Env): (r: seq<(string, Place)>)
    ensures |r| == |trip|
    ensures forall i :: 0 <= i < |trip| ==> r[i] == (trip[i].id, MergeOne(trip[i], byName, env))
  {
    seq(|trip|, i requires 0 <= i < |trip| => (trip[i].id, MergeOne(trip[i], byName, env)))
  }

  /** `mergePlaces(tripPlaces, openByName)`: one record per id; a later record with an id overwrites an earlier one in its place. */
  method MergePlaces(trip: seq<Place>, byName: map<string, Geocode>, env: Env) returns (merged: seq<Place>)
    ensures merged == ValuesOf(PutAll(MergedPairs(trip, byName, env)))
    ensures |merged| == |Distinct(KeysOf(MergedPairs(trip, byName, env)))|
  {
    var pairs := MergedPairs(trip, byName, env);
    var entries := SetAll(pairs);
    PutAllKeys(pairs);
    merged := ValuesOf(entries);
  }

  /** With distinct ids the merge keeps every record, in order, each merged with its own answer. */
  lemma DistinctIdsKeepOrder(trip: seq<Place>, byName: map<string, Geocode>, env: Env)
    requires forall i, j :: 0 <= i < j < |trip| ==> trip[i].id != trip[j].id
    ensures ValuesOf(PutAll(MergedPairs(trip, byName, env))) == ValuesOf(MergedPairs(trip, byName, env))
  {
    var pairs := MergedPairs(trip, byName, env);
    assert NoDup(KeysOf(pairs)) by {
      forall i, j | 0 <= i < j < |pairs| ensures KeysOf(pairs)[i] != KeysOf(pairs)[j] {
        assert KeysOf(pairs)[i] == trip[i].id && KeysOf(pairs)[j] == trip[j].id;
      }
    }
    PutAllFreshKeys(pairs);
  }

  /**
   * `mapCategory([item.category, item.type, item.__originQuery])` does not
   * depend on the order of the three fields, and a cafe word in any of them
   * makes the place a cafe.
   */
  lemma TripCategoryFacts(item: TripItem, i: int, k: int)
    ensures TripCategory(item) == MapCategoryList([item.originQuery, item.itemType, item.category])
    ensures 0 <= i < 3 && 0 <= k < |CafeWords| && Contains(Lower([item.category, item.itemType, item.originQuery][i]), CafeWords[k]) ==>
      TripCategory(item) == "cafes"
  {
    var xs := [item.category, item.itemType, item.originQuery];
    MapCategoryListSameElements(xs, [item.originQuery, item.itemType, item.category]);
    if 0 <= i < 3 && 0 <= k < |CafeWords| && Contains(Lower(xs[i]), CafeWords[k]) {
      MapCategoryListCafeFirst(xs, i, k);
    }
  }
}
