/**
 * The lists the home page derives from the curated catalogue: text search,
 * category results, the list filters and sort orders, and the sections
 * (recommended, near the hotel, the best of each category). Every list is a
 * filtered, sorted copy; the catalogue itself is never changed.
 */
module IndexPage {
  import opened Wrappers
  import opened Text
  import opened Collections
  import opened Sorting
  import opened Places
  import Curation

  // ---------------------------------------------------------------------------
  // Sort orders
  // ---------------------------------------------------------------------------

  /** `p.distanceKm ?? 999` */
  function DistanceOr999(p: Place): real {
    if p.distanceKm.Some? then p.distanceKm.value else 999.0
  }

  /** `byBest`: rating descending, then review count descending, then distance ascending. */
  function ByBest(p: Place): Key {
    Key(-p.rating, -p.reviewCount, DistanceOr999(p))
  }

  function ByDistance(p: Place): Key {
    Key(DistanceOr999(p), 0.0, 0.0)
  }

  function ByRating(p: Place): Key {
    Key(-p.rating, 0.0, 0.0)
  }

  function ByReviews(p: Place): Key {
    Key(-p.reviewCount, 0.0, 0.0)
  }

  /** The order chosen by `sortBy`; any value other than the three named ones means `byBest`. */
  function SortKeyFor(sortBy: string): Place -> Key {
    if sortBy == "distance" then ByDistance
    else if sortBy == "rating" then ByRating
    else if sortBy == "reviews" then ByReviews
    else ByBest
  }

  /**
   * In a list sorted by `byBest`, an earlier place has a rating at least as
   * high; on equal ratings at least as many reviews; on equal ratings and
   * review counts a distance no greater (a missing one counting as 999 km).
   */
  lemma BestOrder(s: seq<Place>, i: int, j: int)
    requires 0 <= i < j < |SortBy(s, ByBest)|
    ensures var r := SortBy(s, ByBest);
            && r[i].rating >= r[j].rating
            && (r[i].rating == r[j].rating ==> r[i].reviewCount >= r[j].reviewCount)
            && (r[i].rating == r[j].rating && r[i].reviewCount == r[j].reviewCount
                ==> DistanceOr999(r[i]) <= DistanceOr999(r[j]))
  {
    var r := SortBy(s, ByBest);
    assert KeyLe(ByBest(r[i]), ByBest(r[j]));
  }

  // ---------------------------------------------------------------------------
  // Search and category results
  // ---------------------------------------------------------------------------

  /** `query.trim().toLowerCase()` */
  function NormalizedQuery(query: string): string {
    Lower(Trim(query))
  }

  /** The texts a search looks at: name, address, description and every tag. */
  function SearchFields(p: Place): seq<string> {
    [p.name, p.address, p.description] + p.tags
  }

  /** The truthy fields joined by spaces, lower-cased. */
  function Haystack(p: Place): string {
    Lower(Join(Compact(SearchFields(p)), " "))
  }

  /** `baseSearchResults` */
  function Search(places: seq<Place>, query: string): (r: seq<Place>)
    ensures NormalizedQuery(query) == "" ==> r == []
    ensures NormalizedQuery(query) != "" ==> forall p :: p in r <==> p in places && Contains(Haystack(p), NormalizedQuery(query))
    ensures multiset(r) <= multiset(places)
  {
    var q := NormalizedQuery(query);
    if q == "" then [] else Filter(places, p => Contains(Haystack(p), q))
  }

  /** `baseCategoryResults` */
  function CategoryResults(places: seq<Place>, category: string): (r: seq<Place>)
    ensures category == "all" ==> r == []
    ensures category != "all" ==> forall p :: p in r <==> p in places && p.category == category
    ensures multiset(r) <= multiset(places)
  {
    if category == "all" then [] else Filter(places, (p: Place) => p.category == category)
  }

  lemma LowerOccurs(s: string, w: string, i: int)
    requires OccursAt(s, w, i)
    ensures OccursAt(Lower(s), Lower(w), i)
  {
    forall k | 0 <= k < |w| ensures Lower(s)[i..i + |w|][k] == Lower(w)[k] {
      assert s[i..i + |w|][k] == w[k];
    }
  }

  lemma OccursWithin(s: string, m: string, w: string, i: int, j: int)
    requires OccursAt(s, m, i) && OccursAt(m, w, j)
    ensures OccursAt(s, w, i + j)
  {
    forall k | 0 <= k < |w| ensures s[i + j..i + j + |w|][k] == w[k] {
      assert m[j..j + |w|][k] == w[k];
      assert s[i..i + |m|][j + k] == m[j + k];
    }
  }

  /** A word inside a part of `s`, in any case, is inside `s` lower-cased. */
  lemma LowerContainsPart(s: string, f: string, i: int, q: string)
    requires OccursAt(s, f, i) && Contains(Lower(f), q)
    ensures Contains(Lower(s), q)
  {
    ContainsImpliesOccurs(Lower(f), q);
    var j :| OccursAt(Lower(f), q, j);
    LowerOccurs(s, f, i);
    OccursWithin(Lower(s), Lower(f), q, i, j);
    OccursImpliesContains(Lower(s), q, i + j);
  }

  /** A word inside one of the texts, in any case, is inside their lower-cased join. */
  lemma LowerJoinContains(xs: seq<string>, n: int, q: string)
    requires 0 <= n < |xs| && Contains(Lower(xs[n]), q)
    ensures Contains(Lower(Join(xs, " ")), q)
  {
    JoinContains(xs, " ", n);
    ContainsImpliesOccurs(Join(xs, " "), xs[n]);
    var i :| OccursAt(Join(xs, " "), xs[n], i);
    LowerContainsPart(Join(xs, " "), xs[n], i, q);
  }

  /** A word inside one of the truthy fields, in any case, is inside the haystack. */
  lemma FieldInHaystack(p: Place, f: string, q: string)
    requires f in SearchFields(p) && q != "" && Contains(Lower(f), q)
    ensures Contains(Haystack(p), q)
  {
    var xs := Compact(SearchFields(p));
    ContainsImpliesOccurs(Lower(f), q);
    assert |Lower(f)| > 0;
    assert f in xs;
    var n :| 0 <= n < |xs| && xs[n] == f;
    LowerJoinContains(xs, n, q);
  }

  /**
   * A place is found when any one of its fields contains the query, in any
   * mix of upper and lower case.
   */
  lemma SearchFindsField(places: seq<Place>, query: string, p: Place, k: int)
    requires p in places && 0 <= k < |SearchFields(p)|
    requires NormalizedQuery(query) != "" && Contains(Lower(SearchFields(p)[k]), NormalizedQuery(query))
    ensures p in Search(places, query)
  {
    FieldInHaystack(p, SearchFields(p)[k], NormalizedQuery(query));
  }

  // ---------------------------------------------------------------------------
  // applyFilters
  // ---------------------------------------------------------------------------

  /** The list filters; `None` is a filter that is off. */
  datatype Filters = Filters(
    sortBy: string,
    openNow: bool,
    maxDistanceKm: Option<real>,
    maxPriceLevel: Option<real>,
    minRating: Option<real>
  )

  /** The filters the page starts with: sorted by `byBest`, nothing filtered. */
  const InitialFilters := Filters("best", false, None, None, None)

  function StatusText(p: Place): string {
    if p.openStatusText.Some? then p.openStatusText.value else ""
  }

  /** The status text says the place is open ("aberto"), in any case. */
  predicate IsOpen(p: Place) {
    Contains(Lower(StatusText(p)), "aberto")
  }

  predicate WithinDistance(p: Place, max: real) {
    p.distanceKm.Some? && p.distanceKm.value <= max
  }

  /** A price level of 0 means unknown and never passes the price filter. */
  predicate WithinPrice(p: Place, max: real) {
    p.priceLevel > 0.0 && p.priceLevel <= max
  }

  predicate AtLeastRating(p: Place, min: real) {
    p.rating >= min
  }

  function OpenStage(out: seq<Place>, f: Filters): seq<Place> {
    if f.openNow then Filter(out, IsOpen) else out
  }

  function DistanceStage(out: seq<Place>, f: Filters): seq<Place> {
    if f.maxDistanceKm.Some? then Filter(out, p => WithinDistance(p, f.maxDistanceKm.value)) else out
  }

  function PriceStage(out: seq<Place>, f: Filters): seq<Place> {
    if f.maxPriceLevel.Some? then Filter(out, p => WithinPrice(p, f.maxPriceLevel.value)) else out
  }

  function RatingStage(out: seq<Place>, f: Filters): seq<Place> {
    if f.minRating.Some? then Filter(out, p => AtLeastRating(p, f.minRating.value)) else out
  }

  /** The four filters in the order the page applies them. */
  function Filtered(list: seq<Place>, f: Filters): seq<Place> {
    RatingStage(PriceStage(DistanceStage(OpenStage(list, f), f), f), f)
  }

  /** `applyFilters(list)`: the filtered places, in a sorted copy. */
  function ApplyFilters(list: seq<Place>, f: Filters): (r: seq<Place>)
    ensures SortedBy(r, SortKeyFor(f.sortBy))
    ensures multiset(r) == multiset(Filtered(list, f))
  {
    SortBy(Filtered(list, f), SortKeyFor(f.sortBy))
  }

  /** Every active filter holds of `p`. */
  predicate Passes(f: Filters, p: Place) {
    && (f.openNow ==> IsOpen(p))
    && (f.maxDistanceKm.Some? ==> WithinDistance(p, f.maxDistanceKm.value))
    && (f.maxPriceLevel.Some? ==> WithinPrice(p, f.maxPriceLevel.value))
    && (f.minRating.Some? ==> AtLeastRating(p, f.minRating.value))
  }

  function OpenTest(f: Filters): Place -> bool {
    p => f.openNow ==> IsOpen(p)
  }

  function DistanceTest(f: Filters): Place -> bool {
    p => f.maxDistanceKm.Some? ==> WithinDistance(p, f.maxDistanceKm.value)
  }

  function PriceTest(f: Filters): Place -> bool {
    p => f.maxPriceLevel.Some? ==> WithinPrice(p, f.maxPriceLevel.value)
  }

  function RatingTest(f: Filters): Place -> bool {
    p => f.minRating.Some? ==> AtLeastRating(p, f.minRating.value)
  }

  lemma OpenStageFilters(out: seq<Place>, f: Filters)
    ensures OpenStage(out, f) == Filter(out, OpenTest(f))
  {
    if f.openNow {
      FilterSameTest(out, IsOpen, OpenTest(f));
    } else {
      FilterKeepsAll(out, OpenTest(f));
    }
  }

  lemma DistanceStageFilters(out: seq<Place>, f: Filters)
    ensures DistanceStage(out, f) == Filter(out, DistanceTest(f))
  {
    if f.maxDistanceKm.Some? {
      FilterSameTest(out, p => WithinDistance(p, f.maxDistanceKm.value), DistanceTest(f));
    } else {
      FilterKeepsAll(out, DistanceTest(f));
    }
  }

  lemma PriceStageFilters(out: seq<Place>, f: Filters)
    ensures PriceStage(out, f) == Filter(out, PriceTest(f))
  {
    if f.maxPriceLevel.Some? {
      FilterSameTest(out, p => WithinPrice(p, f.maxPriceLevel.value), PriceTest(f));
    } else {
      FilterKeepsAll(out, PriceTest(f));
    }
  }

  lemma RatingStageFilters(out: seq<Place>, f: Filters)
    ensures RatingStage(out, f) == Filter(out, RatingTest(f))
  {
    if f.minRating.Some? {
      FilterSameTest(out, p => AtLeastRating(p, f.minRating.value), RatingTest(f));
    } else {
      FilterKeepsAll(out, RatingTest(f));
    }
  }

  /** The four filters in a row are one filter by all active tests, keeping the input order. */
  lemma FilteredIsOneFilter(list: seq<Place>, f: Filters)
    ensures Filtered(list, f) == Filter(list, p => Passes(f, p))
  {
    var s1 := OpenStage(list, f);
    var s2 := DistanceStage(s1, f);
    var s3 := PriceStage(s2, f);
    OpenStageFilters(list, f);
    DistanceStageFilters(s1, f);
    PriceStageFilters(s2, f);
    RatingStageFilters(s3, f);
    var t12: Place -> bool := p => OpenTest(f)(p) && DistanceTest(f)(p);
    var t123: Place -> bool := p => t12(p) && PriceTest(f)(p);
    FilterThen(list, OpenTest(f), DistanceTest(f), t12);
    FilterThen(list, t12, PriceTest(f), t123);
    FilterThen(list, t123, RatingTest(f), p => Passes(f, p));
  }

  /**
   * What `applyFilters` returns: exactly the places of the list that pass
   * every active filter, each as often as in the list, sorted by the chosen
   * order; no other place.
   */
  lemma ApplyFiltersExact(list: seq<Place>, f: Filters)
    ensures multiset(ApplyFilters(list, f)) == multiset(Filter(list, p => Passes(f, p)))
    ensures multiset(ApplyFilters(list, f)) <= multiset(list)
    ensures forall p :: p in ApplyFilters(list, f) <==> p in list && Passes(f, p)
    ensures SortedBy(ApplyFilters(list, f), SortKeyFor(f.sortBy))
  {
    FilteredIsOneFilter(list, f);
    var r := ApplyFilters(list, f);
    forall p ensures p in r <==> p in list && Passes(f, p) {
      assert p in r <==> p in multiset(r);
      assert p in Filter(list, q => Passes(f, q)) <==> p in multiset(Filter(list, q => Passes(f, q)));
    }
  }

  /** With the initial filters the list is only reordered, by `byBest`. */
  lemma InitialFiltersKeepAll(list: seq<Place>)
    ensures multiset(ApplyFilters(list, InitialFilters)) == multiset(list)
    ensures ApplyFilters(list, InitialFilters) == SortBy(list, ByBest)
  {
  }

  // ---------------------------------------------------------------------------
  // Sections
  // ---------------------------------------------------------------------------

  /** How many places a section shows. */
  const SectionSize := 12

  predicate Recommended(p: Place) {
    p.hotelRecommended
  }

  predicate HasDistance(p: Place) {
    p.distanceKm.Some?
  }

  /** `curatedTop`: recommended places, highest hotel score first. */
  function CuratedTop(places: seq<Place>): seq<Place> {
    TopBy(places, Recommended, Curation.ByScore, SectionSize)
  }

  /** `nearHotel`: places with a known distance, nearest first. */
  function NearHotel(places: seq<Place>): seq<Place> {
    TopBy(places, HasDistance, ByDistance, SectionSize)
  }

  function InCategories(categories: seq<string>): Place -> bool {
    (p: Place) => p.category in categories
  }

  /** A category section: places whose category is one of `categories`, by `byBest`. */
  function Section(places: seq<Place>, categories: seq<string>): seq<Place> {
    TopBy(places, InCategories(categories), ByBest, SectionSize)
  }

  function TopRestaurants(places: seq<Place>): seq<Place> {
    Section(places, ["restaurants"])
  }

  function TopBars(places: seq<Place>): seq<Place> {
    Section(places, ["nightlife"])
  }

  function TopCafes(places: seq<Place>): seq<Place> {
    Section(places, ["cafes"])
  }

  function TopAttractionsAndParks(places: seq<Place>): seq<Place> {
    Section(places, ["attractions", "nature"])
  }

  /**
   * `curatedTop` holds at most 12 recommended places in descending hotel
   * score, and a recommended place left out scores no higher than any shown.
   */
  lemma CuratedTopFacts(places: seq<Place>, c: Place)
    ensures var r := CuratedTop(places);
            && |r| <= SectionSize
            && (forall p :: p in r ==> p in places && p.hotelRecommended)
            && (forall i, j :: 0 <= i < j < |r| ==> r[i].hotelScore >= r[j].hotelScore)
            && (c in places && c.hotelRecommended && c !in r ==> forall t :: t in r ==> t.hotelScore >= c.hotelScore)
  {
    var r := CuratedTop(places);
    forall i, j | 0 <= i < j < |r| ensures r[i].hotelScore >= r[j].hotelScore {
      assert KeyLe(Curation.ByScore(r[i]), Curation.ByScore(r[j]));
    }
    if c in places && c.hotelRecommended && c !in r {
      forall t | t in r ensures t.hotelScore >= c.hotelScore {
        TopByBest(places, Recommended, Curation.ByScore, SectionSize, c, t);
      }
    }
  }

  /**
   * `nearHotel` holds at most 12 places with a known distance, nearest
   * first, and a place with a known distance left out is no nearer than any shown.
   */
  lemma NearHotelFacts(places: seq<Place>, c: Place)
    ensures var r := NearHotel(places);
            && |r| <= SectionSize
            && (forall p :: p in r ==> p in places && p.distanceKm.Some?)
            && (forall i, j :: 0 <= i < j < |r| ==> r[i].distanceKm.value <= r[j].distanceKm.value)
            && (c in places && c.distanceKm.Some? && c !in r ==> forall t :: t in r ==> t.distanceKm.value <= c.distanceKm.value)
  {
    var r := NearHotel(places);
    forall i, j | 0 <= i < j < |r|
      ensures r[i].distanceKm.Some? && r[j].distanceKm.Some? && r[i].distanceKm.value <= r[j].distanceKm.value
    {
      assert r[i] in r && r[j] in r;
      assert HasDistance(r[i]) && HasDistance(r[j]);
      assert KeyLe(ByDistance(r[i]), ByDistance(r[j]));
      assert ByDistance(r[i]).k1 == r[i].distanceKm.value;
    }
    if c in places && c.distanceKm.Some? && c !in r {
      forall t | t in r ensures t.distanceKm.Some? && t.distanceKm.value <= c.distanceKm.value {
        assert HasDistance(t);
        TopByBest(places, HasDistance, ByDistance, SectionSize, c, t);
        assert KeyLe(ByDistance(t), ByDistance(c));
      }
    }
  }

  /**
   * A section holds at most 12 places, all of its categories, in `byBest`
   * order; with at most 12 such places it holds all of them.
   */
  lemma SectionFacts(places: seq<Place>, categories: seq<string>, c: Place)
    ensures var r := Section(places, categories);
            && |r| <= SectionSize
            && (forall p :: p in r ==> p in places && p.category in categories)
            && SortedBy(r, ByBest)
            && (|Filter(places, InCategories(categories))| <= SectionSize && c in places && c.category in categories
                ==> c in r)
  {
    if |Filter(places, InCategories(categories))| <= SectionSize && c in places && c.category in categories {
      TopByAll(places, InCategories(categories), ByBest, SectionSize, c);
    }
  }

  /** The joint section of attractions and parks holds exactly those two categories. */
  lemma AttractionsAndParks(places: seq<Place>, p: Place)
    requires p in TopAttractionsAndParks(places)
    ensures p.category == "attractions" || p.category == "nature"
  {
    SectionFacts(places, ["attractions", "nature"], p);
  }

  // ---------------------------------------------------------------------------
  // The hero's counters
  // ---------------------------------------------------------------------------

  function Categories(places: seq<Place>): (r: seq<string>)
    ensures |r| == |places| && forall i :: 0 <= i < |places| ==> r[i] == places[i].category
  {
    seq(|places|, i requires 0 <= i < |places| => places[i].category)
  }

  /** `new Set(places.map((p) => p.category).filter(Boolean)).size` */
  function TotalCategories(places: seq<Place>): (n: nat)
    ensures n <= |places|
  {
    |Distinct(Compact(Categories(places)))|
  }

  /** The count is that of the distinct non-empty categories. */
  lemma TotalCategoriesCounts(places: seq<Place>, c: string)
    ensures c in Distinct(Compact(Categories(places))) <==> c != "" && exists i :: 0 <= i < |places| && places[i].category == c
  {
    if c != "" && exists i :: 0 <= i < |places| && places[i].category == c {
      var i :| 0 <= i < |places| && places[i].category == c;
      assert Categories(places)[i] == c;
    }
  }
}
