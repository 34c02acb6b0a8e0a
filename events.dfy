/** The vehicle-records page: the records fetched from the search endpoint are filtered by
    a plate text (case-insensitive) and a date text, then sorted by a clicked column with a
    stable sort whose comparator is `localeCompare` on that column, missing values as "". */
module Events {
  import opened Wrappers
  import Text

  /** A record as the page receives it; a field may be missing. */
  datatype VehicleRecord = VehicleRecord(
    plate: Option<string>,
    timestamp: Option<string>,
    location: Option<string>,
    vehicleType: Option<string>)

  datatype Filters = Filters(plateNumber: string, date: string)

  datatype Column = PlateNumber | Timestamp

  datatype Direction = Asc | Desc

  datatype Sorting = Sorting(field: Option<Column>, direction: Direction)

  const InitialFilters := Filters("", "")
  const InitialSorting := Sorting(None, Asc)

  // ---------------------------------------------------------------------------
  // Filtering
  // ---------------------------------------------------------------------------

  /** `item['Plate Number']?.toLowerCase().includes(plate.toLowerCase()) &&
      item.Timestamp?.includes(date)`: a missing field fails the test. */
  predicate PassesFilters(r: VehicleRecord, f: Filters) {
    && r.plate.Some? && Text.Contains(Text.Lower(r.plate.value), Text.Lower(f.plateNumber))
    && r.timestamp.Some? && Text.Contains(r.timestamp.value, f.date)
  }

  /** `Array.prototype.filter`: the passing records, in their original order. */
  function FilterRecords(rows: seq<VehicleRecord>, f: Filters): (r: seq<VehicleRecord>)
    ensures |r| <= |rows|
    ensures forall i :: 0 <= i < |r| ==> PassesFilters(r[i], f)
  {
    if rows == [] then []
    else (if PassesFilters(rows[0], f) then [rows[0]] else []) + FilterRecords(rows[1..], f)
  }

  /** The filter keeps exactly the records that pass both tests. */
  lemma {:induction false} FilterRecordsExact(rows: seq<VehicleRecord>, f: Filters)
    ensures forall x :: x in FilterRecords(rows, f) <==> x in rows && PassesFilters(x, f)
  {
    if rows != [] {
      FilterRecordsExact(rows[1..], f);
      assert rows == [rows[0]] + rows[1..];
    }
  }

  /** Filtering distributes over concatenation, so the kept records stay in their order. */
  lemma {:induction false} FilterRecordsAppend(a: seq<VehicleRecord>, b: seq<VehicleRecord>, f: Filters)
    ensures FilterRecords(a + b, f) == FilterRecords(a, f) + FilterRecords(b, f)
    decreases |a|
  {
    if a == [] {
      assert a + b == b;
    } else {
      assert (a + b)[0] == a[0] && (a + b)[1..] == a[1..] + b;
      FilterRecordsAppend(a[1..], b, f);
    }
  }

  /** With both filters empty every record that has a plate and a timestamp passes,
      because every string contains the empty string. */
  lemma EmptyFiltersKeepComplete(r: VehicleRecord)
    ensures PassesFilters(r, InitialFilters) <==> r.plate.Some? && r.timestamp.Some?
  {
    assert Text.Lower("") == "";
    if r.plate.Some? {
      Text.ContainsEmpty(Text.Lower(r.plate.value));
    }
    if r.timestamp.Some? {
      Text.ContainsEmpty(r.timestamp.value);
    }
  }

  // ---------------------------------------------------------------------------
  // Sorting
  // ---------------------------------------------------------------------------

  /** `a[field] || ''` */
  function SortKey(r: VehicleRecord, c: Column): string {
    match c
    case PlateNumber => r.plate.GetOr("")
    case Timestamp => r.timestamp.GetOr("")
  }

  /** The comparator passed to `sort`. */
  function Comparator(s: Sorting, a: VehicleRecord, b: VehicleRecord): int {
    match s.field
    case None => 0
    case Some(c) =>
      if s.direction == Asc then Text.Compare(SortKey(a, c), SortKey(b, c))
      else Text.Compare(SortKey(b, c), SortKey(a, c))
  }

  lemma ComparatorFlip(s: Sorting, a: VehicleRecord, b: VehicleRecord)
    ensures Comparator(s, a, b) == -Comparator(s, b, a)
  {
    if s.field.Some? {
      Text.CompareFlip(SortKey(a, s.field.value), SortKey(b, s.field.value));
    }
  }

  /** Consecutive records are in comparator order. */
  predicate Ordered(s: Sorting, t: seq<VehicleRecord>) {
    forall i :: 0 <= i < |t| - 1 ==> Comparator(s, t[i], t[i + 1]) <= 0
  }

  /** Inserts `x` before the first element it does not sort after. */
  function Insert(s: Sorting, x: VehicleRecord, t: seq<VehicleRecord>): seq<VehicleRecord> {
    if t == [] then [x]
    else if Comparator(s, x, t[0]) <= 0 then [x] + t
    else [t[0]] + Insert(s, x, t[1..])
  }

  /** `Array.prototype.sort` with the comparator, as insertion sort: each record goes
      before the first record of the sorted rest that it does not sort after. The result
      is a permutation of the input in comparator order. */
  function SortRecords(s: Sorting, rows: seq<VehicleRecord>): (r: seq<VehicleRecord>)
    ensures multiset(r) == multiset(rows)
    ensures Ordered(s, r)
  {
    if rows == [] then []
    else
      var rest := SortRecords(s, rows[1..]);
      InsertFacts(s, rows[0], rest);
      assert rows == [rows[0]] + rows[1..];
      Insert(s, rows[0], rest)
  }

  lemma {:induction false} InsertFacts(s: Sorting, x: VehicleRecord, t: seq<VehicleRecord>)
    ensures var r := Insert(s, x, t);
      && |r| == |t| + 1
      && multiset(r) == multiset(t) + multiset{x}
      && (r[0] == x || (t != [] && r[0] == t[0]))
      && (Ordered(s, t) ==> Ordered(s, r))
    decreases |t|
  {
    if t != [] && Comparator(s, x, t[0]) > 0 {
      var rest := Insert(s, x, t[1..]);
      InsertFacts(s, x, t[1..]);
      assert t == [t[0]] + t[1..];
      ComparatorFlip(s, x, t[0]);
      var r := [t[0]] + rest;
      if Ordered(s, t) {
        assert Ordered(s, t[1..]) by {
          forall i | 0 <= i < |t[1..]| - 1 ensures Comparator(s, t[1..][i], t[1..][i + 1]) <= 0 {
            assert t[1..][i] == t[i + 1] && t[1..][i + 1] == t[i + 2];
          }
        }
        forall i | 0 <= i < |r| - 1 ensures Comparator(s, r[i], r[i + 1]) <= 0 {
          if i > 0 {
            assert r[i] == rest[i - 1] && r[i + 1] == rest[i];
          }
        }
      }
    }
  }

  /** With no sort field the comparator always returns 0 and the stable sort keeps the
      original order. */
  lemma {:induction false} NoFieldKeepsOrder(s: Sorting, rows: seq<VehicleRecord>)
    requires s.field.None?
    ensures SortRecords(s, rows) == rows
  {
    if rows != [] {
      NoFieldKeepsOrder(s, rows[1..]);
      assert rows == [rows[0]] + rows[1..];
    }
  }

  // ---------------------------------------------------------------------------
  // getFilteredAndSortedData
  // ---------------------------------------------------------------------------

  /** getFilteredAndSortedData: every displayed record passes the filters, and no more
      records are displayed than were fetched. */
  function FilteredAndSorted(rows: seq<VehicleRecord>, f: Filters, s: Sorting): (r: seq<VehicleRecord>)
    ensures |r| <= |rows|
    ensures forall i :: 0 <= i < |r| ==> PassesFilters(r[i], f)
  {
    var kept := FilterRecords(rows, f);
    var r := SortRecords(s, kept);
    assert |r| == |kept| by {
      assert |multiset(r)| == |multiset(kept)|;
    }
    assert forall i :: 0 <= i < |r| ==> r[i] in multiset(kept);
    r
  }

  /** The displayed records are exactly the records passing the filter, each as often as
      in the filtered list: sorting neither adds nor loses records. */
  lemma DisplayedAreFiltered(rows: seq<VehicleRecord>, f: Filters, s: Sorting)
    ensures var out := FilteredAndSorted(rows, f, s);
      && multiset(out) == multiset(FilterRecords(rows, f))
      && (forall x :: x in out <==> x in rows && PassesFilters(x, f))
  {
    var out := FilteredAndSorted(rows, f, s);
    FilterRecordsExact(rows, f);
    forall x ensures x in out <==> x in FilterRecords(rows, f) {
      assert x in out <==> x in multiset(out);
    }
  }

  /** Ascending: consecutive keys are non-decreasing; descending: non-increasing. */
  lemma DisplayedAreSorted(rows: seq<VehicleRecord>, f: Filters, s: Sorting)
    requires s.field.Some?
    ensures var out := FilteredAndSorted(rows, f, s);
      var c := s.field.value;
      && (s.direction == Asc ==>
            forall i :: 0 <= i < |out| - 1 ==> Text.LexLe(SortKey(out[i], c), SortKey(out[i + 1], c)))
      && (s.direction == Desc ==>
            forall i :: 0 <= i < |out| - 1 ==> Text.LexLe(SortKey(out[i + 1], c), SortKey(out[i], c)))
  {
    var out := FilteredAndSorted(rows, f, s);
    assert forall i :: 0 <= i < |out| - 1 ==> Comparator(s, out[i], out[i + 1]) <= 0;
  }

  /** With no sort field the display is the filtered list in its original order. */
  lemma UnsortedDisplayKeepsOrder(rows: seq<VehicleRecord>, f: Filters, s: Sorting)
    requires s.field.None?
    ensures FilteredAndSorted(rows, f, s) == FilterRecords(rows, f)
  {
    NoFieldKeepsOrder(s, FilterRecords(rows, f));
  }

  // ---------------------------------------------------------------------------
  // Header click
  // ---------------------------------------------------------------------------

  /** A click on a column header: sort by that column and flip the direction, whichever
      column was sorted before. */
  function ClickHeader(s: Sorting, c: Column): (t: Sorting)
    ensures t.field == Some(c)
    ensures t.direction != s.direction
  {
    Sorting(Some(c), if s.direction == Asc then Desc else Asc)
  }

  /** Two clicks restore the direction, even on different columns. */
  lemma ClickTwiceRestoresDirection(s: Sorting, c: Column, d: Column)
    ensures ClickHeader(ClickHeader(s, c), d) == Sorting(Some(d), s.direction)
  {
  }
}
