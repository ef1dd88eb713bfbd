/** The editable table of the "whole" tab
    (src/app/analysis/components/Whole.tsx): the rows shown from existing
    data, rows added by hand, their removal and field-by-field editing, and
    the name search over them. */
module Whole {
  import opened Options
  import opened Seqs
  import opened Text
  import opened Records

  /** The record shape this component declares for its input. */
  datatype WholeRecord = WholeRecord(
    id: string,
    date: string,
    speed: real,
    spin: real,
    trueSpin: Option<real>,
    spinEff: Option<real>,
    spinDirect: Option<real>,
    verticalBreak: Option<real>,
    horizontalBreak: Option<real>,
    rating: Option<string>)

  /** One row of the table; every cell is text. */
  datatype InputRow = InputRow(
    id: string,
    playerId: string,
    playerName: string,
    date: string,
    speed: string,
    spinRate: string,
    trueSpin: string,
    spinEff: string,
    spinDirect: string,
    verticalBreak: string,
    horizontalBreak: string,
    rating: string,
    isNew: bool,
    isExisting: bool)

  /** `Number.prototype.toString`, which the model does not spell out. */
  type NumberText = real -> string

  const ExistingDataPrefix := "existing-data-"
  const NewPrefix := "new-"
  const ExistingPrefix := "existing-"

  /** The page hands its pitch records to this component, whose own record
      shape names some columns differently: `spinDirection`,
      `verticalMovement` and `horizontalMovement` do not fill `spinDirect`,
      `verticalBreak` and `horizontalBreak`, and there is no `rating`. */
  function AsWholeRecord(p: PitchRecord): (r: WholeRecord)
    ensures r.id == p.id && r.date == p.date && r.speed == p.speed && r.spin == p.spin as real
    ensures r.trueSpin == Some(p.trueSpin as real) && r.spinEff == Some(p.spinEff)
    ensures r.spinDirect.None? && r.verticalBreak.None? && r.horizontalBreak.None? && r.rating.None?
  {
    WholeRecord(p.id, p.date, p.speed, p.spin as real, Some(p.trueSpin as real), Some(p.spinEff),
                None, None, None, None)
  }

  /** `value?.toString() || ""`. */
  function OptionalText(v: Option<real>, show: NumberText): (r: string)
    ensures v.None? ==> r == ""
    ensures v.Some? ==> r == show(v.value)
  {
    match v
    case None => ""
    case Some(x) => show(x)
  }

  /** The row shown for the `index`-th existing record. */
  function ExistingRow(data: WholeRecord, index: nat, players: seq<Player>, show: NumberText, notFound: string): InputRow {
    InputRow(
      id := ExistingDataPrefix + NatToString(index),
      playerId := data.id,
      playerName := NameOr(FindPlayer(players, data.id), notFound),
      date := data.date,
      speed := show(data.speed),
      spinRate := show(data.spin),
      trueSpin := OptionalText(data.trueSpin, show),
      spinEff := OptionalText(data.spinEff, show),
      spinDirect := OptionalText(data.spinDirect, show),
      verticalBreak := OptionalText(data.verticalBreak, show),
      horizontalBreak := OptionalText(data.horizontalBreak, show),
      rating := data.rating.GetOr(""),
      isNew := false,
      isExisting := true)
  }

  /** The conversion effect: one existing row per record, in order. */
  function ExistingRows(data: seq<WholeRecord>, players: seq<Player>, show: NumberText, notFound: string): (r: seq<InputRow>)
    ensures |r| == |data|
    ensures forall i :: 0 <= i < |r| ==>
              r[i].isExisting && !r[i].isNew && r[i].playerId == data[i].id && r[i].date == data[i].date
    ensures forall i :: 0 <= i < |r| ==> r[i].id == ExistingDataPrefix + NatToString(i)
  {
    seq(|data|, i requires 0 <= i < |data| => ExistingRow(data[i], i, players, show, notFound))
  }

  /** The name shown is the roster name, or the "not found" text for an id
      missing from the roster (or with an empty name); absent optional
      values show as "". */
  lemma ExistingRowCells(data: seq<WholeRecord>, players: seq<Player>, show: NumberText, notFound: string, i: nat)
    requires i < |data|
    ensures var r := ExistingRows(data, players, show, notFound)[i];
            var p := FindPlayer(players, data[i].id);
            && (p.Some? && p.value.name != "" ==> r.playerName == p.value.name)
            && (p.None? ==> r.playerName == notFound)
            && (data[i].trueSpin.None? ==> r.trueSpin == "")
            && (data[i].verticalBreak.None? ==> r.verticalBreak == "")
            && (data[i].horizontalBreak.None? ==> r.horizontalBreak == "")
            && (data[i].rating.None? ==> r.rating == "")
            && r.speed == show(data[i].speed) && r.spinRate == show(data[i].spin)
  {
  }

  /** Rows built from the page's pitch records always leave the movement and
      rating columns blank. */
  lemma PitchRowsHaveBlankMovement(pitches: seq<PitchRecord>, players: seq<Player>, show: NumberText, notFound: string, i: nat)
    requires i < |pitches|
    ensures var data := seq(|pitches|, k requires 0 <= k < |pitches| => AsWholeRecord(pitches[k]));
            var r := ExistingRows(data, players, show, notFound)[i];
            r.spinDirect == "" && r.verticalBreak == "" && r.horizontalBreak == "" && r.rating == ""
  {
  }

  lemma PrefixCancel(p: string, a: string, b: string)
    requires p + a == p + b
    ensures a == b
  {
    assert a == (p + a)[|p|..];
    assert b == (p + b)[|p|..];
  }

  /** The existing rows have pairwise distinct ids. */
  lemma ExistingRowIdsDistinct(data: seq<WholeRecord>, players: seq<Player>, show: NumberText, notFound: string)
    ensures var r := ExistingRows(data, players, show, notFound);
            forall i, j :: 0 <= i < j < |r| ==> r[i].id != r[j].id
  {
    var r := ExistingRows(data, players, show, notFound);
    forall i, j | 0 <= i < j < |r| ensures r[i].id != r[j].id {
      if r[i].id == r[j].id {
        PrefixCancel(ExistingDataPrefix, NatToString(i), NatToString(j));
        NatToStringInjective(i, j);
      }
    }
  }

  /** A freshly added row: the given id and date, every other cell blank. */
  function BlankRow(id: string, playerId: string, playerName: string, today: string, isNew: bool): InputRow {
    InputRow(id, playerId, playerName, today, "", "", "", "", "", "", "", "", isNew, false)
  }

  // ---------------------------------------------------------------------
  // Cells by name

  /** The text columns, as `keyof InputRow` names them. */
  datatype Field = Id | PlayerId | PlayerName | Date | Speed | SpinRate | TrueSpin | SpinEff
                 | SpinDirect | VerticalBreak | HorizontalBreak | Rating

  function GetField(row: InputRow, f: Field): string {
    match f
    case Id => row.id
    case PlayerId => row.playerId
    case PlayerName => row.playerName
    case Date => row.date
    case Speed => row.speed
    case SpinRate => row.spinRate
    case TrueSpin => row.trueSpin
    case SpinEff => row.spinEff
    case SpinDirect => row.spinDirect
    case VerticalBreak => row.verticalBreak
    case HorizontalBreak => row.horizontalBreak
    case Rating => row.rating
  }

  /** `{ ...row, [field]: value }`. */
  function SetField(row: InputRow, f: Field, value: string): (r: InputRow)
    ensures GetField(r, f) == value
    ensures forall g :: g != f ==> GetField(r, g) == GetField(row, g)
    ensures r.isNew == row.isNew && r.isExisting == row.isExisting
  {
    match f
    case Id => row.(id := value)
    case PlayerId => row.(playerId := value)
    case PlayerName => row.(playerName := value)
    case Date => row.(date := value)
    case Speed => row.(speed := value)
    case SpinRate => row.(spinRate := value)
    case TrueSpin => row.(trueSpin := value)
    case SpinEff => row.(spinEff := value)
    case SpinDirect => row.(spinDirect := value)
    case VerticalBreak => row.(verticalBreak := value)
    case HorizontalBreak => row.(horizontalBreak := value)
    case Rating => row.(rating := value)
  }

  /** A row is determined by its text cells and its two flags. */
  lemma RowExtensionality(a: InputRow, b: InputRow)
    requires forall f :: GetField(a, f) == GetField(b, f)
    requires a.isNew == b.isNew && a.isExisting == b.isExisting
    ensures a == b
  {
    assert GetField(a, Id) == GetField(b, Id);
    assert GetField(a, PlayerId) == GetField(b, PlayerId);
    assert GetField(a, PlayerName) == GetField(b, PlayerName);
    assert GetField(a, Date) == GetField(b, Date);
    assert GetField(a, Speed) == GetField(b, Speed);
    assert GetField(a, SpinRate) == GetField(b, SpinRate);
    assert GetField(a, TrueSpin) == GetField(b, TrueSpin);
    assert GetField(a, SpinEff) == GetField(b, SpinEff);
    assert GetField(a, SpinDirect) == GetField(b, SpinDirect);
    assert GetField(a, VerticalBreak) == GetField(b, VerticalBreak);
    assert GetField(a, HorizontalBreak) == GetField(b, HorizontalBreak);
    assert GetField(a, Rating) == GetField(b, Rating);
  }

  /** Writing back the value a cell already holds changes nothing. */
  lemma SetFieldOwnValue(row: InputRow, f: Field)
    ensures SetField(row, f, GetField(row, f)) == row
  {
    RowExtensionality(SetField(row, f, GetField(row, f)), row);
  }

  // ---------------------------------------------------------------------
  // Search and display order

  predicate NameMatches(row: InputRow, search: string) {
    Contains(Lower(row.playerName), Lower(search))
  }

  /** `filteredRows`: all rows for a blank search, otherwise the rows whose
      lower-cased name contains the lower-cased search text as typed. */
  function FilteredRows(rows: seq<InputRow>, search: string): seq<InputRow> {
    if Trim(search) == "" then rows else Filter(rows, (row: InputRow) => NameMatches(row, search))
  }

  /** A whitespace-only search keeps every row; any other keeps, in order,
      exactly the rows whose name matches. */
  lemma FilteredRowsSpec(rows: seq<InputRow>, search: string, row: InputRow)
    ensures IsBlank(search) ==> FilteredRows(rows, search) == rows
    ensures !IsBlank(search) ==> (row in FilteredRows(rows, search) <==> row in rows && NameMatches(row, search))
    ensures IsSubsequence(FilteredRows(rows, search), rows)
  {
    TrimEmptyIffBlank(search);
    var p := (row: InputRow) => NameMatches(row, search);
    FilterMembership(rows, p, row);
    FilterIsSubsequence(rows, p);
    if IsBlank(search) {
      SubsequenceReflexive(rows);
    }
  }


  /** `displayRows`: the rows not marked existing, then the existing ones. */
  function DisplayRows(filtered: seq<InputRow>): seq<InputRow> {
    Filter(filtered, (r: InputRow) => !r.isExisting) + Filter(filtered, (r: InputRow) => r.isExisting)
  }

  /** `displayRows` holds the same rows as its input, each as often. */
  lemma DisplayRowsIsPermutation(filtered: seq<InputRow>)
    ensures multiset(DisplayRows(filtered)) == multiset(filtered)
    ensures |DisplayRows(filtered)| == |filtered|
  {
    var a := Filter(filtered, (r: InputRow) => !r.isExisting);
    var b := Filter(filtered, (r: InputRow) => r.isExisting);
    FilterPartition(filtered, (r: InputRow) => !r.isExisting, (r: InputRow) => r.isExisting);
    assert multiset(a + b) == multiset(a) + multiset(b);
  }

  /** `displayRows` lists the rows not marked existing first, then the
      existing ones, each group in its original order: a stable partition. */
  lemma DisplayRowsIsStablePartition(filtered: seq<InputRow>)
    ensures var k := |Filter(filtered, (r: InputRow) => !r.isExisting)|;
            && (forall i :: 0 <= i < k ==> !DisplayRows(filtered)[i].isExisting)
            && (forall i :: k <= i < |DisplayRows(filtered)| ==> DisplayRows(filtered)[i].isExisting)
            && IsSubsequence(DisplayRows(filtered)[..k], filtered)
            && IsSubsequence(DisplayRows(filtered)[k..], filtered)
    ensures IsSubsequence(Filter(filtered, (r: InputRow) => !r.isExisting), filtered)
    ensures IsSubsequence(Filter(filtered, (r: InputRow) => r.isExisting), filtered)
  {
    var a := Filter(filtered, (r: InputRow) => !r.isExisting);
    var b := Filter(filtered, (r: InputRow) => r.isExisting);
    var shown := DisplayRows(filtered);
    assert shown == a + b;
    assert shown[..|a|] == a && shown[|a|..] == b;
    assert forall i :: 0 <= i < |a| ==> shown[i] == a[i];
    assert forall i :: |a| <= i < |a| + |b| ==> shown[i] == b[i - |a|];
    FilterIsSubsequence(filtered, (r: InputRow) => !r.isExisting);
    FilterIsSubsequence(filtered, (r: InputRow) => r.isExisting);
  }

  // ---------------------------------------------------------------------
  // The component state

  class WholeEditor {
    var rows: seq<InputRow>
    var searchName: string

    constructor ()
      ensures rows == [] && searchName == ""
    {
      rows := [];
      searchName := "";
    }

    /** The conversion effect, run when the records or the roster change. */
    method LoadExisting(data: seq<WholeRecord>, players: seq<Player>, show: NumberText, notFound: string)
      modifies this`rows
      ensures rows == ExistingRows(data, players, show, notFound)
    {
      rows := ExistingRows(data, players, show, notFound);
    }

    /** `addNewRow`, with `Date.now()` and today's date passed in. */
    method AddNewRow(now: nat, today: string)
      modifies this`rows
      ensures |rows| == |old(rows)| + 1 && rows[1..] == old(rows)
      ensures rows[0] == BlankRow(NewPrefix + NatToString(now), "", "", today, true)
      ensures rows[0].isNew && !rows[0].isExisting
    {
      rows := [BlankRow(NewPrefix + NatToString(now), "", "", today, true)] + rows;
    }

    /** `addExistingPlayerRow`: nothing happens for an id missing from the roster. */
    method AddExistingPlayerRow(players: seq<Player>, playerId: string, now: nat, today: string)
      modifies this`rows
      ensures FindPlayer(players, playerId).None? ==> rows == old(rows)
      ensures FindPlayer(players, playerId).Some? ==>
                var p := FindPlayer(players, playerId).value;
                && rows == [BlankRow(ExistingPrefix + NatToString(now), p.id, p.name, today, false)] + old(rows)
                && rows[0].playerId == playerId && !rows[0].isNew && !rows[0].isExisting
    {
      var player := FindPlayer(players, playerId);
      if player.Some? {
        var p := player.value;
        rows := [BlankRow(ExistingPrefix + NatToString(now), p.id, p.name, today, false)] + rows;
      }
    }

    /** `removeRow`: drops every row with the id and keeps the others in order. */
    method RemoveRow(id: string)
      modifies this`rows
      ensures rows == Filter(old(rows), (row: InputRow) => row.id != id)
      ensures forall row :: row in rows <==> row in old(rows) && row.id != id
      ensures IsSubsequence(rows, old(rows))
    {
      var p := (row: InputRow) => row.id != id;
      forall row ensures row in Filter(rows, p) <==> row in rows && row.id != id {
        FilterMembership(rows, p, row);
      }
      FilterIsSubsequence(rows, p);
      rows := Filter(rows, p);
    }

    /** `updateRow`: in the rows with the id, the field takes the value;
        nothing else changes. */
    method UpdateRow(id: string, field: Field, value: string)
      modifies this`rows
      ensures |rows| == |old(rows)|
      ensures forall i :: 0 <= i < |rows| && old(rows)[i].id != id ==> rows[i] == old(rows)[i]
      ensures forall i :: 0 <= i < |rows| && old(rows)[i].id == id ==> GetField(rows[i], field) == value
      ensures forall i, g :: 0 <= i < |rows| && g != field ==> GetField(rows[i], g) == GetField(old(rows)[i], g)
      ensures forall i :: 0 <= i < |rows| ==>
                rows[i].isNew == old(rows)[i].isNew && rows[i].isExisting == old(rows)[i].isExisting
    {
      var old_rows := rows;
      rows := seq(|old_rows|, i requires 0 <= i < |old_rows| =>
                if old_rows[i].id == id then SetField(old_rows[i], field, value) else old_rows[i]);
    }

    /** The search box. */
    method SetSearchName(s: string)
      modifies this`searchName
      ensures searchName == s
    {
      searchName := s;
    }

    /** What the table shows. */
    function Displayed(): (r: seq<InputRow>)
      reads this
      ensures multiset(r) == multiset(FilteredRows(rows, searchName))
    {
      DisplayRowsIsPermutation(FilteredRows(rows, searchName));
      DisplayRows(FilteredRows(rows, searchName))
    }
  }
}
