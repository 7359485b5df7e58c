/**
 * The item loop that `ingest-complete.js` and `ingest-simple.js` share: an
 * item without a title and without a name is skipped; any other is
 * normalized and inserted unless its id is already stored. Only new rows
 * and processed items are counted.
 */
module GoogleMapsInsertOnly {
  import opened Store
  import opened GoogleMapsItem

  /** `if (!item.title && !item.name) continue;` */
  predicate Skipped(item: GmItem) {
    item.title == "" && item.name == ""
  }

  function CountSkipped(items: seq<GmItem>): (n: nat)
    ensures n <= |items|
  {
    if items == [] then 0 else (if Skipped(items[0]) then 1 else 0) + CountSkipped(items[1..])
  }

  lemma {:induction false} CountSkippedSnoc(items: seq<GmItem>, item: GmItem)
    ensures CountSkipped(items + [item]) == CountSkipped(items) + (if Skipped(item) then 1 else 0)
    decreases |items|
  {
    if items == [] {
      assert [] + [item] == [item];
    } else {
      assert (items + [item])[1..] == items[1..] + [item];
      CountSkippedSnoc(items[1..], item);
    }
  }

  /** One pass of the item loop: skip, or normalize, insert if new, and count. */
  function IngestStep(rows: seq<Row>, totals: Totals, item: GmItem, normalize: GmItem -> Row): (r: (seq<Row>, Totals))
    requires UniqueIds(rows)
    ensures UniqueIds(r.0) && r.1.updated == totals.updated
    ensures Skipped(item) ==> r == (rows, totals)
    ensures !Skipped(item) ==> r.1.collected == totals.collected + 1
    ensures |rows| <= |r.0| && r.0[..|rows|] == rows
    ensures |r.0| - |rows| == r.1.added - totals.added
  {
    if Skipped(item) then (rows, totals)
    else
      var saved := InsertIfAbsent(rows, normalize(item));
      (saved.0, Tally(totals, saved.1))
  }

  /** The table and counters after the item loop has seen `items`, in order. */
  function Ingest(rows: seq<Row>, items: seq<GmItem>, normalize: GmItem -> Row): (r: (seq<Row>, Totals))
    requires UniqueIds(rows)
    ensures UniqueIds(r.0) && r.1.updated == 0
    ensures |r.0| == |rows| + r.1.added && r.1.added <= r.1.collected
    ensures r.1.collected == |items| - CountSkipped(items)
    decreases |items|
  {
    if items == [] then (rows, Totals(0, 0, 0))
    else
      var before := Ingest(rows, items[..|items| - 1], normalize);
      assert items[..|items| - 1] + [items[|items| - 1]] == items;
      CountSkippedSnoc(items[..|items| - 1], items[|items| - 1]);
      IngestStep(before.0, before.1, items[|items| - 1], normalize)
  }

  /** Insert-only: every row stored before the run is still there, unchanged and in place. */
  lemma {:induction false} IngestKeepsStoredRows(rows: seq<Row>, items: seq<GmItem>, normalize: GmItem -> Row)
    requires UniqueIds(rows)
    ensures |rows| <= |Ingest(rows, items, normalize).0|
    ensures Ingest(rows, items, normalize).0[..|rows|] == rows
    decreases |items|
  {
    if items != [] {
      var before := Ingest(rows, items[..|items| - 1], normalize);
      IngestKeepsStoredRows(rows, items[..|items| - 1], normalize);
      var after := Ingest(rows, items, normalize).0;
      assert after[..|before.0|] == before.0;
      assert after[..|rows|] == after[..|before.0|][..|rows|];
    }
  }

  lemma IngestSnoc(rows: seq<Row>, items: seq<GmItem>, i: nat, normalize: GmItem -> Row)
    requires UniqueIds(rows) && i < |items|
    ensures var before := Ingest(rows, items[..i], normalize);
      Ingest(rows, items[..i + 1], normalize) == IngestStep(before.0, before.1, items[i], normalize)
  {
    assert items[..i + 1][..i] == items[..i];
  }


  /** After the loop, every item that was not skipped has a row under its id. */
  lemma {:induction false} IngestStoresEveryItem(rows: seq<Row>, items: seq<GmItem>, normalize: GmItem -> Row, k: nat)
    requires UniqueIds(rows) && k < |items| && !Skipped(items[k])
    ensures FindId(Ingest(rows, items, normalize).0, normalize(items[k]).id).Some?
    decreases |items|
  {
    var before := Ingest(rows, items[..|items| - 1], normalize);
    var after := Ingest(rows, items, normalize).0;
    var id := normalize(items[k]).id;
    assert after[..|before.0|] == before.0;
    if k == |items| - 1 {
      if FindId(before.0, id).Some? {
        var j := FindId(before.0, id).value;
        assert after[j] == before.0[j];
      } else {
        assert after[|before.0|] == normalize(items[k]);
      }
    } else {
      assert items[..|items| - 1][k] == items[k];
      IngestStoresEveryItem(rows, items[..|items| - 1], normalize, k);
      var j := FindId(before.0, id).value;
      assert after[j] == before.0[j];
    }
  }

  predicate HasLatitude(r: Row) {
    r.latitude.Some?
  }

  /** `exportToJson`: the rows with a latitude, best rated first, more reviews first among equal ratings. */
  function ExportRows(rows: seq<Row>): (r: seq<Row>)
    ensures forall x :: x in r <==> x in rows && x.latitude.Some?
    ensures multiset(r) <= multiset(rows)
    ensures forall i, j :: 0 <= i < j < |r| ==> r[i].rating >= r[j].rating
    ensures forall i, j :: 0 <= i < j < |r| && r[i].rating == r[j].rating ==> r[i].reviewCount >= r[j].reviewCount
  {
    SelectOrdered(rows, HasLatitude)
  }
}
