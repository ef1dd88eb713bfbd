/** The raw data table (src/app/data-table/page.tsx): the column headers are
    the union of all rows' keys, and every row is padded out to exactly those
    columns. */
module DataTable {
  import opened Options
  import opened Seqs
  import DataHelpers

  /** A value as the table meets it. `Inherited(name)` is a member of
      `Object.prototype` that `row[name]` reaches through the prototype chain
      when the row has no own entry of that name. */
  datatype Cell = Text(s: string) | Number(n: real) | Bool(b: bool) | Timestamp(seconds: int) | Null
                | Inherited(name: string)

  /** An uploaded row: its entries in `Object.keys` order. */
  type Row = seq<(string, Cell)>

  function Keys(row: Row): (r: seq<string>)
    ensures |r| == |row| && forall i :: 0 <= i < |row| ==> r[i] == row[i].0
  {
    seq(|row|, i requires 0 <= i < |row| => row[i].0)
  }

  /** `row[key]`: the value stored under the key; failing that, the
      `Object.prototype` member of that name; `None` for `undefined`. */
  function Lookup(row: Row, key: string): (r: Option<Cell>)
    ensures r.None? <==> key !in Keys(row) && key !in DataHelpers.ObjectPrototypeNames
    ensures key !in Keys(row) && key in DataHelpers.ObjectPrototypeNames ==> r == Some(Inherited(key))
  {
    if row == [] then (if key in DataHelpers.ObjectPrototypeNames then Some(Inherited(key)) else None)
    else if row[0].0 == key then Some(row[0].1)
    else (assert Keys(row[1..]) == Keys(row)[1..]; Lookup(row[1..], key))
  }

  /** With distinct keys, the value under the `i`-th key is the `i`-th value. */
  lemma {:induction false} LookupAt(row: Row, i: nat)
    requires i < |row| && NoDuplicates(Keys(row))
    ensures Lookup(row, row[i].0) == Some(row[i].1)
  {
    if i > 0 {
      assert Keys(row)[0] != Keys(row)[i];
      assert Keys(row[1..]) == Keys(row)[1..];
      LookupAt(row[1..], i - 1);
    }
  }

  /** `rows.flatMap(row => Object.keys(row))`. */
  function AllKeys(rows: seq<Row>): seq<string> {
    if rows == [] then [] else Keys(rows[0]) + AllKeys(rows[1..])
  }

  lemma {:induction false} AllKeysMembership(rows: seq<Row>, key: string)
    ensures key in AllKeys(rows) <==> exists i :: 0 <= i < |rows| && key in Keys(rows[i])
  {
    if rows != [] {
      AllKeysMembership(rows[1..], key);
      assert forall i :: 1 <= i < |rows| ==> rows[i] == rows[1..][i - 1];
      if exists i :: 0 <= i < |rows| && key in Keys(rows[i]) {
        var i :| 0 <= i < |rows| && key in Keys(rows[i]);
        if i > 0 {
          assert key in Keys(rows[1..][i - 1]);
        }
      }
    }
  }

  /** `headers`: no rows, no headers; otherwise the distinct keys in order of first appearance. */
  function Headers(rows: seq<Row>): seq<string> {
    if |rows| == 0 then [] else Dedup(AllKeys(rows))
  }

  /** The headers list each key once, and exactly the keys that some row has. */
  lemma HeadersSpec(rows: seq<Row>, key: string)
    ensures rows == [] ==> Headers(rows) == []
    ensures NoDuplicates(Headers(rows))
    ensures key in Headers(rows) <==> exists i :: 0 <= i < |rows| && key in Keys(rows[i])
  {
    AllKeysMembership(rows, key);
    var all := AllKeys(rows);
    if rows != [] {
      if key in all {
        var k :| 0 <= k < |all| && all[k] == key;
        assert all[k] in Dedup(all);
      }
    }
  }

  /** The headers list keys in the order of their first appearance, row by row and key by key. */
  lemma HeadersFirstOccurrenceOrder(rows: seq<Row>)
    ensures forall i, j :: 0 <= i < j < |Headers(rows)| ==>
              FirstIndex(AllKeys(rows), Headers(rows)[i]) < FirstIndex(AllKeys(rows), Headers(rows)[j])
  {
    if rows != [] {
      DedupFirstOccurrenceOrder(AllKeys(rows));
    }
  }

  /** `row[header] ?? ""`: a missing or `null` value becomes the empty string. */
  function CellOrEmpty(v: Option<Cell>): (c: Cell)
    ensures c != Null
  {
    match v
    case None => Text("")
    case Some(Null) => Text("")
    case Some(c) => c
  }

  /** The padded row for the given headers. */
  function NormalizedRow(row: Row, headers: seq<string>): (r: Row)
    ensures Keys(r) == headers
  {
    var r := seq(|headers|, i requires 0 <= i < |headers| => (headers[i], CellOrEmpty(Lookup(row, headers[i]))));
    assert Keys(r) == headers;
    r
  }

  /** Under the `k`-th header the padded row holds the row's value there, or "". */
  lemma NormalizedRowAt(row: Row, headers: seq<string>, k: nat)
    requires NoDuplicates(headers) && k < |headers|
    ensures Lookup(NormalizedRow(row, headers), headers[k]) == Some(CellOrEmpty(Lookup(row, headers[k])))
  {
    var nr := NormalizedRow(row, headers);
    assert nr[k] == (headers[k], CellOrEmpty(Lookup(row, headers[k])));
    LookupAt(nr, k);
  }

  /** A padded row has exactly the headers as keys; under each it holds the
      row's own value, the inherited `Object.prototype` member where the row
      lacks the key but the prototype has it, and "" where neither has it or
      the value is `null`. */
  lemma NormalizedRowSpec(row: Row, headers: seq<string>, h: string)
    requires NoDuplicates(headers)
    ensures Keys(NormalizedRow(row, headers)) == headers
    ensures h in headers && Lookup(row, h).Some? && Lookup(row, h) != Some(Null) ==>
              Lookup(NormalizedRow(row, headers), h) == Lookup(row, h)
    ensures h in headers && h !in Keys(row) && h in DataHelpers.ObjectPrototypeNames ==>
              Lookup(NormalizedRow(row, headers), h) == Some(Inherited(h))
    ensures h in headers && ((h !in Keys(row) && h !in DataHelpers.ObjectPrototypeNames) || Lookup(row, h) == Some(Null)) ==>
              Lookup(NormalizedRow(row, headers), h) == Some(Text(""))
  {
    if h in headers {
      var k :| 0 <= k < |headers| && headers[k] == h;
      NormalizedRowAt(row, headers, k);
      CellOrEmptyCases(Lookup(row, h));
    }
  }

  lemma CellOrEmptyCases(v: Option<Cell>)
    ensures v.Some? && v != Some(Null) ==> Some(CellOrEmpty(v)) == v
    ensures v.None? || v == Some(Null) ==> CellOrEmpty(v) == Text("")
  {
  }

  /** One `normalizedRow`, filled header by header. */
  method NormalizeRow(row: Row, headers: seq<string>) returns (normalized: Row)
    ensures normalized == NormalizedRow(row, headers)
  {
    normalized := [];
    var i := 0;
    while i < |headers|
      invariant 0 <= i <= |headers|
      invariant |normalized| == i
      invariant forall k :: 0 <= k < i ==> normalized[k] == (headers[k], CellOrEmpty(Lookup(row, headers[k])))
    {
      var header := headers[i];
      normalized := normalized + [(header, CellOrEmpty(Lookup(row, header)))];
      i := i + 1;
    }
  }

  /** `normalizedData`: one padded row per uploaded row, in order. */
  method NormalizeData(rows: seq<Row>) returns (normalized: seq<Row>)
    ensures |normalized| == |rows|
    ensures forall i :: 0 <= i < |rows| ==> normalized[i] == NormalizedRow(rows[i], Headers(rows))
  {
    var headers := Headers(rows);
    normalized := [];
    var i := 0;
    while i < |rows|
      invariant 0 <= i <= |rows|
      invariant |normalized| == i
      invariant forall k :: 0 <= k < i ==> normalized[k] == NormalizedRow(rows[k], headers)
    {
      var r := NormalizeRow(rows[i], headers);
      normalized := normalized + [r];
      i := i + 1;
    }
  }

  /** What the page shows once loading is over. */
  datatype TableView = NoData | Table(recordCount: nat, headers: seq<string>, rows: seq<Row>)

  method Render(rows: seq<Row>) returns (v: TableView)
    ensures v.NoData? <==> rows == []
    ensures v.Table? ==> v.recordCount == |rows| == |v.rows| && v.headers == Headers(rows)
    ensures v.Table? ==> forall i :: 0 <= i < |rows| ==> Keys(v.rows[i]) == v.headers
  {
    if |rows| == 0 {
      return NoData;
    }
    var normalized := NormalizeData(rows);
    v := Table(|rows|, Headers(rows), normalized);
  }
}
