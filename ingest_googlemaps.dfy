/**
 * `scripts/ingest-googlemaps.js`: Google Maps crawler items become rows of
 * the shared `places` table; a row found by id or source id is overwritten
 * when the incoming record is at least as well rated or has more reviews.
 */
module IngestGoogleMaps {
  import opened Wrappers
  import opened Text
  import opened Js
  import opened Uri
  import opened Collections
  import opened Places
  import opened CommonRules
  import opened Store
  import opened GoogleMapsItem

  /**
   * `parsePriceLevel`. The upper-cased text is tested for `EXPENSIVE` before
   * `INEXPENSIVE`, so the `INEXPENSIVE` test never decides anything. A JSON
   * number goes straight to `Number(level)`: its `String` form holds neither
   * a price word nor a `$`.
   */
  function ParsePriceLevel(level: PriceRaw): (r: real)
    ensures !PriceTruthy(level) ==> r == 0.0
    ensures level.PriceNumber? ==> r == level.amount
    ensures level.PriceText? && Contains(Upper(level.text), "EXPENSIVE") ==> r == 4.0
    ensures level.PriceText? && !Contains(Upper(level.text), "EXPENSIVE") && Contains(Upper(level.text), "MODERATE") ==> r == 2.0
    ensures level.PriceText? && !PriceWord(Upper(level.text)) && Contains(Upper(level.text), "FREE") ==> r == 0.0
    ensures level.PriceText? && !PriceWord(Upper(level.text)) && !Contains(Upper(level.text), "FREE") && '$' in level.text ==>
      r == CountChar(level.text, '$') as real
    ensures level.PriceText? && level.text != "" && !PriceWord(Upper(level.text)) && !Contains(Upper(level.text), "FREE") && '$' !in level.text ==>
      r == ParseNumber(level.text).GetOr(0.0)
  {
    match level
    case NoPrice => 0.0
    case PriceNumber(v) => v
    case PriceText(s) =>
      var u := Upper(s);
      UpperKeepsDollars(s);
      ExpensiveInInexpensive(u);
      if s == "" then 0.0
      else if Contains(u, "EXPENSIVE") then 4.0
      else if Contains(u, "MODERATE") then 2.0
      else if Contains(u, "INEXPENSIVE") then 1.0
      else if Contains(u, "FREE") then 0.0
      else if CountChar(u, '$') > 0 then CountChar(u, '$') as real
      else ParseNumber(s).GetOr(0.0)
  }

  /** The upper-cased text names one of the three price words that are tested before `FREE`. */
  predicate PriceWord(u: string) {
    Contains(u, "EXPENSIVE") || Contains(u, "MODERATE") || Contains(u, "INEXPENSIVE")
  }

  /** Upper-casing moves no `$`. */
  lemma {:induction false} UpperKeepsDollars(s: string)
    ensures CountChar(Upper(s), '$') == CountChar(s, '$')
    decreases |s|
  {
    if s != [] {
      assert Upper(s)[1..] == Upper(s[1..]);
      UpperKeepsDollars(s[1..]);
    }
  }

  /** An inexpensive place is priced at the top level: the `INEXPENSIVE` test is never reached. */
  lemma InexpensiveReadsAsFour(s: string)
    requires Contains(Upper(s), "INEXPENSIVE")
    ensures ParsePriceLevel(PriceText(s)) == 4.0
  {
    ExpensiveInInexpensive(Upper(s));
  }

  /** A text with `$` signs and no price word is priced by its number of `$` signs. */
  lemma DollarsCount(s: string)
    requires '$' in s
    requires !Contains(Upper(s), "EXPENSIVE") && !Contains(Upper(s), "MODERATE") && !Contains(Upper(s), "FREE")
    ensures ParsePriceLevel(PriceText(s)) == CountChar(s, '$') as real
  {
    ExpensiveInInexpensive(Upper(s));
    UpperKeepsDollars(s);
  }

  /** `categoryName`, then `categories`, then `type`, before the cut at ten. */
  function TagSource(item: GmItem): seq<string> {
    (if item.categoryName != "" then [item.categoryName] else [])
    + item.categories.GetOr([])
    + (if item.itemType != "" then [item.itemType] else [])
  }

  /**
   * `normalizePlace(item, originQuery, category)`: the row written to the
   * table. Tags and gallery are cut but not deduplicated.
   */
  function NormalizePlace(item: GmItem, originQuery: string, category: string, env: Env): (r: Row)
    ensures r.sourceId == PlaceIdOf(item, env.nowMs) && r.sourceId != ""
    ensures r.id == EncodeUriComponent(r.sourceId) && r.id != ""
    ensures r.name != "" && (item.title != "" ==> r.name == item.title)
    ensures r.category == HintCategory(category)
    ensures r.rating == GmRating(item)
    ensures r.priceLevel == ParsePriceLevel(item.priceLevel)
    ensures r.latitude == NumOrNull(RawLat(item)) && r.longitude == NumOrNull(RawLng(item))
    ensures r.distanceKm == DistanceIfBoth(env, RawLat(item), RawLng(item))
    ensures |r.tags| <= 10 && r.tags <= TagSource(item)
    ensures |r.tags| == |TagSource(item)| || |r.tags| == 10
    ensures r.gallery == FirstImageUrls(item) + ImageEntryUrls(item) && |r.gallery| <= 10
    ensures r.image == MainImage(item.imageUrl, r.gallery)
    ensures r.reviewCount == OrZero(OrNum(item.reviewsCount, item.reviews))
    ensures r.priceText == PriceRawText(item.priceLevel, env.numberText)
    ensures r.description == Either(item.description, Either(item.about, "Descri\U{E7}\U{E3}o n\U{E3}o dispon\U{ED}vel"))
    ensures r.address == Either(item.address, Either(item.street, "Endere\U{E7}o n\U{E3}o informado"))
    ensures r.phone == NonEmpty(Either(item.phone, item.phoneNumber)) && r.website == NonEmpty(Either(item.website, item.url))
    ensures r.sourceUrl == Some(SourceUrl(item, "https://www.google.com/maps/place/?q=place_id:", r.sourceId))
    ensures item.openingHours.Some? ==> r.openStatus == StatusHours(item.openingHours.value)
    ensures item.openingHours.None? ==> r.openStatus == if item.isOpen == Some(true) then StatusFlag(true) else NoStatus
    ensures r.menuUrl == NonEmpty(item.menu)
    ensures r.description != "" && r.address != ""
    ensures r.email.None? && r.highlights == [] && r.originQueries == [originQuery] && r.hours == []
  {
    var placeId := PlaceIdOf(item, env.nowMs);
    EncodeEmptyIff(placeId);
    var gallery := FirstImageUrls(item) + ImageEntryUrls(item);
    Row(
      id := EncodeUriComponent(placeId),
      sourceId := placeId,
      name := Either(item.title, Either(item.name, "Lugar sem nome")),
      category := HintCategory(category),
      rating := GmRating(item),
      reviewCount := OrZero(OrNum(item.reviewsCount, item.reviews)),
      priceLevel := ParsePriceLevel(item.priceLevel),
      priceText := PriceRawText(item.priceLevel, env.numberText),
      description := Either(item.description, Either(item.about, "Descri\U{E7}\U{E3}o n\U{E3}o dispon\U{ED}vel")),
      image := MainImage(item.imageUrl, gallery),
      address := Either(item.address, Either(item.street, "Endere\U{E7}o n\U{E3}o informado")),
      latitude := NumOrNull(RawLat(item)),
      longitude := NumOrNull(RawLng(item)),
      distanceKm := DistanceIfBoth(env, RawLat(item), RawLng(item)),
      phone := NonEmpty(Either(item.phone, item.phoneNumber)),
      website := NonEmpty(Either(item.website, item.url)),
      email := None,
      tags := Take(TagSource(item), 10),
      sourceUrl := Some(SourceUrl(item, "https://www.google.com/maps/place/?q=place_id:", placeId)),
      openStatus := if item.openingHours.Some? then StatusHours(item.openingHours.value)
                    else if item.isOpen == Some(true) then StatusFlag(true) else NoStatus,
      menuUrl := NonEmpty(item.menu),
      gallery := gallery,
      highlights := [],
      originQueries := [originQuery],
      hours := []
    )
  }

  /** A category name that also appears among the categories is kept twice. */
  lemma TagsKeepRepeats(item: GmItem, env: Env, q: string, c: string)
    requires item.categoryName != "" && item.categories == Some([item.categoryName])
    ensures NormalizePlace(item, q, c, env).tags[..2] == [item.categoryName, item.categoryName]
  {
    assert TagSource(item)[..2] == [item.categoryName, item.categoryName];
  }

  /** `place.rating >= (existing.rating || 0) || place.reviewCount > (existing.review_count || 0)` */
  predicate Replaces(existing: Row, p: Row) {
    p.rating >= existing.rating || p.reviewCount > existing.reviewCount
  }

  /**
   * `savePlaceToDb` as written: the row is looked up by id or source id, but
   * the `UPDATE` is addressed to the incoming id.
   */
  function SaveAsWritten(rows: seq<Row>, p: Row): (r: (seq<Row>, Outcome))
    ensures r.1 == New <==> FindIdOrSource(rows, p.id, p.sourceId).None?
    ensures r.1 == New ==> r.0 == rows + [p]
    ensures r.1 != New ==> (r.1 == Updated <==> Replaces(rows[FindIdOrSource(rows, p.id, p.sourceId).value], p))
    ensures r.1 == Updated ==> r.0 == UpdateWhereId(rows, p.id, p)
    ensures r.1 == Existing ==> r.0 == rows
  {
    match FindIdOrSource(rows, p.id, p.sourceId)
    case None => (rows + [p], New)
    case Some(k) => if Replaces(rows[k], p) then (UpdateWhereId(rows, p.id, p), Updated) else (rows, Existing)
  }

  /**
   * A row found through its source id alone, with another id, is reported
   * as updated and left as it was: the `UPDATE ... WHERE id = ?` matches no row.
   */
  lemma UpdateByIdMissesSourceMatch(rows: seq<Row>, p: Row)
    requires FindIdOrSource(rows, p.id, p.sourceId).Some?
    requires FindId(rows, p.id).None?
    requires Replaces(rows[FindIdOrSource(rows, p.id, p.sourceId).value], p)
    ensures SaveAsWritten(rows, p) == (rows, Updated)
  {
    UpdateMissingId(rows, p.id, p);
  }

  /**
   * The shared table also holds TripAdvisor rows, whose id and source id are
   * both the encoded URL `a%20b`. A Google item whose place id is that text
   * gets the id `a%2520b`: it finds the row by source id, and the better
   * rating it brings is lost.
   */
  lemma LostUpdateExample(env: Env)
    ensures var stored := BlankRow("a%20b", "a%20b");
            var incoming := BlankRow(EncodeUriComponent("a%20b"), "a%20b").(rating := 4.5);
            SaveAsWritten([stored], incoming) == ([stored], Updated)
            && Save([stored], incoming).0 == [Assign(stored, incoming)]
            && Save([stored], incoming).0[0].rating == 4.5
  {
    var stored := BlankRow("a%20b", "a%20b");
    var incoming := BlankRow(EncodeUriComponent("a%20b"), "a%20b").(rating := 4.5);
    assert !IsUnreserved("a%20b"[1]);
    EncodeGrowsOnReserved("a%20b", 1);
    assert FindId([stored], incoming.id).None?;
    UpdateByIdMissesSourceMatch([stored], incoming);
  }

  /**
   * `savePlaceToDb` with the update addressed to the row the lookup found:
   * an unseen record is appended; a match is overwritten (all but its keys)
   * when `Replaces` holds, and kept otherwise.
   */
  function Save(rows: seq<Row>, p: Row): (r: (seq<Row>, Outcome))
    ensures r.1 == New <==> FindIdOrSource(rows, p.id, p.sourceId).None?
    ensures r.1 == New ==> r.0 == rows + [p]
    ensures r.1 != New ==> (r.1 == Updated <==> Replaces(rows[FindIdOrSource(rows, p.id, p.sourceId).value], p))
    ensures r.1 == Updated ==> var k := FindIdOrSource(rows, p.id, p.sourceId).value;
      r.0 == UpdateWhereId(rows, rows[k].id, p) && r.0[k] == Assign(rows[k], p)
    ensures r.1 == Existing ==> r.0 == rows
  {
    match FindIdOrSource(rows, p.id, p.sourceId)
    case None => (rows + [p], New)
    case Some(k) => if Replaces(rows[k], p) then (UpdateWhereId(rows, rows[k].id, p), Updated) else (rows, Existing)
  }

  /** Saving keeps the primary key, and the table only grows by the new row. */
  lemma SaveKeepsTable(rows: seq<Row>, p: Row)
    requires UniqueIds(rows)
    ensures UniqueIds(Save(rows, p).0)
    ensures |Save(rows, p).0| == |rows| + (if Save(rows, p).1 == New then 1 else 0)
    ensures forall i :: 0 <= i < |rows| ==> Save(rows, p).0[i].id == rows[i].id
  {
    match FindIdOrSource(rows, p.id, p.sourceId)
    case None => AppendKeepsUnique(rows, p);
    case Some(k) => UpdateKeepsIds(rows, rows[k].id, p);
  }

  /** Saving the same record twice reports it as present the second time. */
  lemma SaveTwiceFindsIt(rows: seq<Row>, p: Row)
    ensures Save(Save(rows, p).0, p).1 != New
  {
    var (r1, o) := Save(rows, p);
    if o == New {
      assert r1[|rows|] == p;
    } else {
      var k := FindIdOrSource(rows, p.id, p.sourceId).value;
      SaveKeepsIdsAndSources(rows, p, k);
    }
  }

  lemma SaveKeepsIdsAndSources(rows: seq<Row>, p: Row, k: nat)
    requires FindIdOrSource(rows, p.id, p.sourceId) == Some(k)
    ensures k < |Save(rows, p).0|
    ensures Save(rows, p).0[k].id == rows[k].id && Save(rows, p).0[k].sourceId == rows[k].sourceId
  {
    if Replaces(rows[k], p) {
      UpdateKeepsIds(rows, rows[k].id, p);
    }
  }

  /** The `savePlaceToDb` statements against the table. */
  method SavePlaceToDb(t: PlaceTable, p: Row) returns (o: Outcome)
    requires t.Valid()
    modifies t
    ensures t.Valid()
    ensures (t.rows, o) == Save(old(t.rows), p)
  {
    var found := FindIdOrSource(t.rows, p.id, p.sourceId);
    if found.Some? {
      var existing := t.rows[found.value];
      if Replaces(existing, p) {
        t.Update(existing.id, p);
        o := Updated;
      } else {
        o := Existing;
      }
    } else {
      t.Insert(p);
      o := New;
    }
  }

  /**
   * One pass of the item loop: an item without a title is skipped; any
   * other is normalized, saved and counted.
   */
  function IngestStep(rows: seq<Row>, totals: Totals, item: GmItem, query: string, category: string, env: Env): (r: (seq<Row>, Totals))
    requires UniqueIds(rows)
    ensures UniqueIds(r.0)
    ensures item.title == "" ==> r == (rows, totals)
    ensures item.title != "" ==> r.1.collected == totals.collected + 1
    ensures |r.0| - |rows| == r.1.added - totals.added
    ensures r.1.added + r.1.updated - totals.added - totals.updated <= r.1.collected - totals.collected
  {
    if item.title == "" then (rows, totals)
    else
      var p := NormalizePlace(item, query, category, env);
      SaveKeepsTable(rows, p);
      var saved := Save(rows, p);
      (saved.0, Tally(totals, saved.1))
  }

  /** The table and counters after the item loop has seen `items`, in order. */
  function Ingest(rows: seq<Row>, items: seq<GmItem>, query: string, category: string, env: Env): (r: (seq<Row>, Totals))
    requires UniqueIds(rows)
    ensures UniqueIds(r.0)
    ensures |r.0| == |rows| + r.1.added
    ensures r.1.added + r.1.updated <= r.1.collected
    ensures r.1.collected == |items| - CountUntitled(items)
    decreases |items|
  {
    if items == [] then (rows, Totals(0, 0, 0))
    else
      var before := Ingest(rows, items[..|items| - 1], query, category, env);
      assert items[..|items| - 1] + [items[|items| - 1]] == items;
      CountUntitledSnoc(items[..|items| - 1], items[|items| - 1]);
      IngestStep(before.0, before.1, items[|items| - 1], query, category, env)
  }

  lemma IngestSnoc(rows: seq<Row>, items: seq<GmItem>, i: nat, query: string, category: string, env: Env)
    requires UniqueIds(rows) && i < |items|
    ensures var before := Ingest(rows, items[..i], query, category, env);
      Ingest(rows, items[..i + 1], query, category, env) == IngestStep(before.0, before.1, items[i], query, category, env)
  {
    assert items[..i + 1][..i] == items[..i];
  }

  /** The items `if (!item.title) continue;` skips. */
  function CountUntitled(items: seq<GmItem>): (n: nat)
    ensures n <= |items|
  {
    if items == [] then 0 else (if items[0].title == "" then 1 else 0) + CountUntitled(items[1..])
  }

  lemma {:induction false} CountUntitledSnoc(items: seq<GmItem>, item: GmItem)
    ensures CountUntitled(items + [item]) == CountUntitled(items) + (if item.title == "" then 1 else 0)
    decreases |items|
  {
    if items == [] {
      assert [] + [item] == [item];
    } else {
      assert (items + [item])[1..] == items[1..] + [item];
      CountUntitledSnoc(items[1..], item);
    }
  }

  /** The body of the item loop in `main`. */
  method IngestItem(t: PlaceTable, totals: Totals, item: GmItem, query: string, category: string, env: Env)
    returns (totals': Totals)
    requires t.Valid()
    modifies t
    ensures t.Valid()
    ensures (t.rows, totals') == IngestStep(old(t.rows), totals, item, query, category, env)
  {
    totals' := totals;
    if item.title != "" {
      var place := NormalizePlace(item, query, category, env);
      var result := SavePlaceToDb(t, place);
      totals' := Tally(totals, result);
    }
  }

  /** The loop over one query's items in `main`. */
  method IngestItems(t: PlaceTable, items: seq<GmItem>, query: string, category: string, env: Env)
    returns (totals: Totals)
    requires t.Valid()
    modifies t
    ensures t.Valid()
    ensures (t.rows, totals) == Ingest(old(t.rows), items, query, category, env)
  {
    totals := Totals(0, 0, 0);
    var i := 0;
    while i < |items|
      invariant 0 <= i <= |items| && t.Valid()
      invariant (t.rows, totals) == Ingest(old(t.rows), items[..i], query, category, env)
    {
      IngestSnoc(old(t.rows), items, i, query, category, env);
      totals := IngestItem(t, totals, items[i], query, category, env);
      i := i + 1;
    }
    assert items[..|items|] == items;
  }

  /**
   * The statement driver binds numbers, strings, bigints, buffers and null;
   * an opening-hours array or the flag `true` is none of these, and `run`
   * throws on it.
   */
  predicate Bindable(s: OpenStatus) {
    s.NoStatus? || s.StatusText?
  }

  /**
   * `savePlaceToDb` as written, with the driver's refusal: an insert or an
   * update whose open status cannot be bound throws and writes nothing.
   */
  function SaveOrThrow(rows: seq<Row>, p: Row): (r: Option<(seq<Row>, Outcome)>)
    ensures r.None? <==> SaveAsWritten(rows, p).1 != Existing && !Bindable(p.openStatus)
    ensures r.Some? ==> r.value == SaveAsWritten(rows, p)
  {
    var s := SaveAsWritten(rows, p);
    if s.1 != Existing && !Bindable(p.openStatus) then None else Some(s)
  }

  /**
   * The item loop of one query as written: the first throw leaves the loop
   * for the query's `catch`, and the items after it are never looked at.
   */
  function IngestAsWritten(rows: seq<Row>, totals: Totals, items: seq<GmItem>, query: string, category: string, env: Env): (r: (seq<Row>, Totals))
    ensures |r.0| >= |rows|
    ensures r.1.collected <= totals.collected + |items| - CountUntitled(items)
    decreases |items|
  {
    if items == [] then (rows, totals)
    else if items[0].title == "" then IngestAsWritten(rows, totals, items[1..], query, category, env)
    else
      match SaveOrThrow(rows, NormalizePlace(items[0], query, category, env))
      case None => (rows, totals)
      case Some(s) => IngestAsWritten(s.0, Tally(totals, s.1), items[1..], query, category, env)
  }

  /**
   * A titled item with opening hours, or open right now, whose record is
   * written (new or better) ends its query: nothing more is stored or counted.
   */
  lemma HoursEndQuery(rows: seq<Row>, totals: Totals, first: GmItem, rest: seq<GmItem>, query: string, category: string, env: Env)
    requires first.title != "" && (first.openingHours.Some? || first.isOpen == Some(true))
    requires SaveAsWritten(rows, NormalizePlace(first, query, category, env)).1 != Existing
    ensures IngestAsWritten(rows, totals, [first] + rest, query, category, env) == (rows, totals)
  {
    var p := NormalizePlace(first, query, category, env);
    assert !Bindable(p.openStatus);
    assert SaveOrThrow(rows, p).None?;
    assert ([first] + rest)[0] == first;
  }

  /**
   * On an empty table, a first item with opening hours loses the whole
   * query as written, while the loop that stores the hours as a value
   * processes both titled items.
   */
  lemma HoursEndQueryExample(first: GmItem, second: GmItem, query: string, category: string, env: Env)
    requires first.title != "" && first.openingHours.Some? && second.title != ""
    ensures IngestAsWritten([], Totals(0, 0, 0), [first, second], query, category, env) == ([], Totals(0, 0, 0))
    ensures Ingest([], [first, second], query, category, env).1.collected == 2
  {
    assert [first, second] == [first] + [second];
    HoursEndQuery([], Totals(0, 0, 0), first, [second], query, category, env);
    assert [first, second][1..] == [second];
    assert CountUntitled([second]) == 0;
  }

  predicate HasCoordinates(r: Row) {
    r.latitude.Some? && r.longitude.Some?
  }

  /**
   * `exportToJson`: the rows with both coordinates, best rated first, more
   * reviews first among equal ratings.
   */
  function ExportRows(rows: seq<Row>): (r: seq<Row>)
    ensures forall x :: x in r <==> x in rows && HasCoordinates(x)
    ensures multiset(r) <= multiset(rows)
    ensures forall i, j :: 0 <= i < j < |r| ==> r[i].rating >= r[j].rating
    ensures forall i, j :: 0 <= i < j < |r| && r[i].rating == r[j].rating ==> r[i].reviewCount >= r[j].reviewCount
  {
    SelectOrdered(rows, HasCoordinates)
  }

  /** One `KEY=value` line: the key is the text before the first `=`, the value the trimmed rest. */
  function EnvLine(line: string): (r: (string, string))
  {
    var parts := Split(line, '=');
    (parts[0], Trim(Join(parts[1..], "=")))
  }

  /** The key and value are the two sides of the first `=`, the `=` inside the value kept. */
  lemma EnvLineSides(line: string)
    ensures IndexOf(line, '=') == -1 ==> EnvLine(line) == (line, "")
    ensures IndexOf(line, '=') >= 0 ==>
      EnvLine(line) == (line[..IndexOf(line, '=')], Trim(line[IndexOf(line, '=') + 1..]))
  {
    SplitAtFirst(line, '=');
    var k := IndexOf(line, '=');
    if k >= 0 {
      var tail := line[k + 1..];
      SplitJoin(tail, '=');
      assert Split(line, '=')[1..] == Split(tail, '=');
    } else {
      assert Trim("") == "";
    }
  }

  /** The trimmed lines that are neither blank nor `#` comments, in file order. */
  function EnvLines(content: string): (r: seq<string>)
    ensures forall i :: 0 <= i < |r| ==> r[i] != "" && !StartsWith(r[i], "#")
  {
    var lines := SplitLines(content);
    KeptLines(seq(|lines|, i requires 0 <= i < |lines| => Trim(lines[i])))
  }

  function KeptLines(lines: seq<string>): (r: seq<string>)
    ensures forall i :: 0 <= i < |r| ==> r[i] != "" && !StartsWith(r[i], "#")
    ensures forall x :: x in r <==> x in lines && x != "" && !StartsWith(x, "#")
  {
    if lines == [] then []
    else (if lines[0] != "" && !StartsWith(lines[0], "#") then [lines[0]] else []) + KeptLines(lines[1..])
  }

  /** The keys the lines name. */
  function KeysOf(pairs: seq<(string, string)>): (ks: set<string>)
    ensures forall i :: 0 <= i < |pairs| ==> pairs[i].0 in ks
    ensures forall k :: k in ks ==> exists i :: 0 <= i < |pairs| && pairs[i].0 == k
  {
    set i | 0 <= i < |pairs| :: pairs[i].0
  }

  /** `if (!process.env[key]) process.env[key] = value` */
  function SetIfUnset(env: map<string, string>, pair: (string, string)): (r: map<string, string>)
    ensures r.Keys == env.Keys + {pair.0}
    ensures forall k :: k in env && k != pair.0 ==> r[k] == env[k]
    ensures pair.0 !in env ==> r[pair.0] == pair.1
  {
    if pair.0 !in env || env[pair.0] == "" then env[pair.0 := pair.1] else env
  }

  /** The same, pair after pair. */
  function ApplyEnv(env: map<string, string>, pairs: seq<(string, string)>): (r: map<string, string>)
    ensures forall k :: k in env && env[k] != "" ==> k in r && r[k] == env[k]
    ensures r.Keys <= env.Keys + KeysOf(pairs)
    decreases |pairs|
  {
    if pairs == [] then env
    else
      var r := ApplyEnv(SetIfUnset(env, pairs[0]), pairs[1..]);
      assert KeysOf(pairs[1..]) <= KeysOf(pairs) by {
        forall k | k in KeysOf(pairs[1..]) ensures k in KeysOf(pairs) {
          var i :| 0 <= i < |pairs[1..]| && pairs[1..][i].0 == k;
          assert pairs[i + 1].0 == k;
        }
      }
      r
  }

  /** The `(key, value)` pair of each kept line, in order. */
  function EnvPairs(lines: seq<string>): (pairs: seq<(string, string)>)
    ensures |pairs| == |lines| && forall i :: 0 <= i < |lines| ==> pairs[i] == EnvLine(lines[i])
  {
    seq(|lines|, i requires 0 <= i < |lines| => EnvLine(lines[i]))
  }

  /**
   * `loadEnv`: every kept line names a variable, and a variable already set
   * to a non-empty value is never overridden.
   */
  function LoadEnv(env: map<string, string>, content: string): (r: map<string, string>)
    ensures forall k :: k in env && env[k] != "" ==> k in r && r[k] == env[k]
    ensures forall k :: k in r ==> k in env || k in KeysOf(EnvPairs(EnvLines(content)))
  {
    ApplyEnv(env, EnvPairs(EnvLines(content)))
  }

  /** A variable missing before takes the value of the first pair that names it, when that value is not empty. */
  lemma {:induction false} ApplyEnvSetsFirst(env: map<string, string>, pairs: seq<(string, string)>, i: nat)
    requires i < |pairs| && pairs[i].0 !in env && pairs[i].1 != ""
    requires forall j :: 0 <= j < i ==> pairs[j].0 != pairs[i].0
    ensures pairs[i].0 in ApplyEnv(env, pairs) && ApplyEnv(env, pairs)[pairs[i].0] == pairs[i].1
    decreases i
  {
    var env1 := SetIfUnset(env, pairs[0]);
    var rest := pairs[1..];
    if i > 0 {
      assert rest[i - 1] == pairs[i];
      assert pairs[0].0 != pairs[i].0;
      ApplyEnvSetsFirst(env1, rest, i - 1);
    }
    assert ApplyEnv(env, pairs) == ApplyEnv(env1, rest);
  }

}
