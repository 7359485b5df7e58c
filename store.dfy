/**
 * The SQLite table `places` that the Google Maps and TripAdvisor ingestion
 * scripts share (`data/places.db`). A row holds the columns of the union of
 * their schemas; the JSON-encoded columns (tags, gallery, highlights, origin
 * queries, hours) hold their decoded lists. Rows are kept in insertion
 * (rowid) order, and `id` is the primary key.
 */
module Store {
  import opened Wrappers
  import opened Sorting

  datatype Row = Row(
    id: string,
    sourceId: string,
    name: string,
    category: string,
    rating: real,
    reviewCount: real,
    priceLevel: real,
    priceText: Option<string>,
    description: string,
    image: Option<string>,
    address: string,
    latitude: Option<real>,
    longitude: Option<real>,
    distanceKm: Option<real>,
    phone: Option<string>,
    website: Option<string>,
    email: Option<string>,
    tags: seq<string>,
    sourceUrl: Option<string>,
    openStatus: OpenStatus,
    menuUrl: Option<string>,
    gallery: seq<string>,
    highlights: seq<string>,
    originQueries: seq<string>,
    hours: seq<string>
  )

  /**
   * What a script writes to `open_status`: nothing, a text, the provider's
   * opening-hours list, or its open/closed flag.
   */
  datatype OpenStatus = NoStatus | StatusText(text: string) | StatusHours(entries: seq<string>) | StatusFlag(open: bool)

  /** What `savePlaceToDb` reports. */
  datatype Outcome = New | Updated | Existing

  /** The counters of an ingestion run: processed items, new rows, updated rows. */
  datatype Totals = Totals(collected: nat, added: nat, updated: nat)

  /** The counters after one more processed item with the given outcome. */
  function Tally(totals: Totals, o: Outcome): (r: Totals)
    ensures r.collected == totals.collected + 1
    ensures r.added == totals.added + (if o == New then 1 else 0)
    ensures r.updated == totals.updated + (if o == Updated then 1 else 0)
  {
    Totals(totals.collected + 1,
           totals.added + (if o == New then 1 else 0),
           totals.updated + (if o == Updated then 1 else 0))
  }

  /** The primary key: no two rows share an id. */
  predicate UniqueIds(rows: seq<Row>) {
    forall i, j :: 0 <= i < j < |rows| ==> rows[i].id != rows[j].id
  }

  /** The first row satisfying `WHERE id = ?`. */
  function FindId(rows: seq<Row>, id: string): (r: Option<nat>)
    ensures r.None? <==> forall i :: 0 <= i < |rows| ==> rows[i].id != id
    ensures r.Some? ==> r.value < |rows| && rows[r.value].id == id
    decreases |rows|
  {
    if rows == [] then None
    else if rows[0].id == id then Some(0)
    else
      match FindId(rows[1..], id)
      case None => None
      case Some(k) => Some(k + 1)
  }

  /**
   * The row `WHERE id = ? OR source_id = ?` returns: the first such row in
   * rowid order (SQLite does not promise an order; the model fixes one).
   */
  function FindIdOrSource(rows: seq<Row>, id: string, sourceId: string): (r: Option<nat>)
    ensures r.None? <==> forall i :: 0 <= i < |rows| ==> rows[i].id != id && rows[i].sourceId != sourceId
    ensures r.Some? ==> r.value < |rows| && (rows[r.value].id == id || rows[r.value].sourceId == sourceId)
    ensures r.Some? ==> forall j :: 0 <= j < r.value ==> rows[j].id != id && rows[j].sourceId != sourceId
    decreases |rows|
  {
    if rows == [] then None
    else if rows[0].id == id || rows[0].sourceId == sourceId then Some(0)
    else
      match FindIdOrSource(rows[1..], id, sourceId)
      case None => None
      case Some(k) => Some(k + 1)
  }

  /**
   * The `UPDATE places SET ...` of the ingestion scripts: every column but
   * `id`, `source_id` and `hours` takes the incoming value.
   */
  function Assign(old_: Row, p: Row): (r: Row)
    ensures r.id == old_.id && r.sourceId == old_.sourceId && r.hours == old_.hours
    ensures r.(id := p.id, sourceId := p.sourceId, hours := p.hours) == p
  {
    p.(id := old_.id, sourceId := old_.sourceId, hours := old_.hours)
  }

  /** `UPDATE places SET ... WHERE id = ?` */
  function UpdateWhereId(rows: seq<Row>, id: string, p: Row): (r: seq<Row>)
    ensures |r| == |rows|
    ensures forall i :: 0 <= i < |rows| ==> r[i] == if rows[i].id == id then Assign(rows[i], p) else rows[i]
  {
    seq(|rows|, i requires 0 <= i < |rows| => if rows[i].id == id then Assign(rows[i], p) else rows[i])
  }

  /** An update keeps every id where it was, so the primary key still holds. */
  lemma UpdateKeepsIds(rows: seq<Row>, id: string, p: Row)
    ensures forall i :: 0 <= i < |rows| ==> UpdateWhereId(rows, id, p)[i].id == rows[i].id
    ensures UniqueIds(rows) ==> UniqueIds(UpdateWhereId(rows, id, p))
  {
  }

  /** An update whose id is in no row changes nothing. */
  lemma UpdateMissingId(rows: seq<Row>, id: string, p: Row)
    requires FindId(rows, id).None?
    ensures UpdateWhereId(rows, id, p) == rows
  {
  }

  /** Appending a row whose id is new keeps the primary key. */
  lemma AppendKeepsUnique(rows: seq<Row>, p: Row)
    requires UniqueIds(rows) && FindId(rows, p.id).None?
    ensures UniqueIds(rows + [p])
  {
    var r := rows + [p];
    forall i, j | 0 <= i < j < |r| ensures r[i].id != r[j].id {
      if j == |rows| {
        assert r[i] == rows[i];
      } else {
        assert r[i] == rows[i] && r[j] == rows[j];
      }
    }
  }

  /**
   * The insert-only `savePlaceToDb` of `ingest-complete.js` and
   * `ingest-simple.js`: an unseen id is appended, a stored one is left alone.
   */
  function InsertIfAbsent(rows: seq<Row>, p: Row): (r: (seq<Row>, Outcome))
    requires UniqueIds(rows)
    ensures UniqueIds(r.0) && r.1 != Updated
    ensures r.1 == New <==> FindId(rows, p.id).None?
    ensures r.1 == New ==> r.0 == rows + [p]
    ensures r.1 == Existing ==> r.0 == rows
  {
    if FindId(rows, p.id).None? then AppendKeepsUnique(rows, p); (rows + [p], New) else (rows, Existing)
  }

  /** A row with the given keys and every other column empty. */
  function BlankRow(id: string, sourceId: string): (r: Row)
    ensures r.id == id && r.sourceId == sourceId
  {
    Row(id, sourceId, "", "", 0.0, 0.0, 0.0, None, "", None, "", None, None, None, None, None, None,
        [], None, NoStatus, None, [], [], [], [])
  }

  /** `ORDER BY rating DESC, review_count DESC` as a comparator key. */
  function RatingKey(r: Row): Key {
    Key(-r.rating, -r.reviewCount, 0.0)
  }

  /**
   * `SELECT * FROM places WHERE <keep> ORDER BY rating DESC, review_count DESC`:
   * exactly the kept rows, best rated first, more reviews first among equal
   * ratings. Rows that tie on both keep their rowid order.
   */
  function SelectOrdered(rows: seq<Row>, keep: Row -> bool): (r: seq<Row>)
    ensures forall x :: x in r <==> x in rows && keep(x)
    ensures multiset(r) <= multiset(rows)
    ensures forall i, j :: 0 <= i < j < |r| ==> r[i].rating >= r[j].rating
    ensures forall i, j :: 0 <= i < j < |r| && r[i].rating == r[j].rating ==> r[i].reviewCount >= r[j].reviewCount
  {
    var kept := Filter(rows, keep);
    var r := SortBy(kept, RatingKey);
    forall x ensures x in r <==> x in kept {
      SortByMembers(kept, RatingKey, x);
    }
    RatingOrder(r);
    r
  }

  lemma RatingOrder(r: seq<Row>)
    requires SortedBy(r, RatingKey)
    ensures forall i, j :: 0 <= i < j < |r| ==> r[i].rating >= r[j].rating
    ensures forall i, j :: 0 <= i < j < |r| && r[i].rating == r[j].rating ==> r[i].reviewCount >= r[j].reviewCount
  {
    forall i, j | 0 <= i < j < |r| ensures r[i].rating >= r[j].rating {
      assert KeyLe(RatingKey(r[i]), RatingKey(r[j]));
    }
  }

  /** The table, as the scripts see it through their prepared statements. */
  class PlaceTable {
    var rows: seq<Row>

    predicate Valid()
      reads this
    {
      UniqueIds(rows)
    }

    constructor (init: seq<Row>)
      requires UniqueIds(init)
      ensures rows == init && Valid()
    {
      rows := init;
    }

    /** `SELECT * FROM places WHERE id = ?` */
    function SelectById(id: string): (r: Option<Row>)
      reads this
      ensures r.None? <==> FindId(rows, id).None?
      ensures r.Some? ==> r.value in rows && r.value.id == id
    {
      match FindId(rows, id)
      case None => None
      case Some(i) => Some(rows[i])
    }

    /** `INSERT INTO places ...`; SQLite refuses a second row with the same id. */
    method Insert(p: Row)
      requires Valid() && FindId(rows, p.id).None?
      modifies this
      ensures rows == old(rows) + [p]
      ensures Valid()
    {
      AppendKeepsUnique(rows, p);
      rows := rows + [p];
    }

    /** `SELECT` by id, then `INSERT` when nothing was found. */
    method SaveIfAbsent(p: Row) returns (o: Outcome)
      requires Valid()
      modifies this
      ensures Valid()
      ensures (rows, o) == InsertIfAbsent(old(rows), p)
    {
      var existing := SelectById(p.id);
      if existing.None? {
        Insert(p);
        o := New;
      } else {
        o := Existing;
      }
    }

    /** `UPDATE places SET ... WHERE id = ?` */
    method Update(id: string, p: Row)
      requires Valid()
      modifies this
      ensures rows == UpdateWhereId(old(rows), id, p)
      ensures Valid()
    {
      UpdateKeepsIds(rows, id, p);
      rows := UpdateWhereId(rows, id, p);
    }
  }
}
