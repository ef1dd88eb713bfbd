/** The individual tab (src/app/analysis/components/IndividualAnalysis.tsx):
    the guards for a missing player or missing data, the selected player's
    records sorted by date, their statistics, and the speed and spin chart
    series with their month labels. */
module IndividualAnalysis {
  import opened Options
  import opened Seqs
  import opened Text
  import opened Records
  import opened PitchStats
  import opened Analysis

  const SelectPlayerKey := "analysis.selectPlayer"

  // ---------------------------------------------------------------------
  // Sorting by date

  /** The comparator `new Date(a.date) - new Date(b.date)` is positive:
      both dates are valid and `a` is later. When either date is invalid the
      difference is `NaN`, which the sort treats as "equal". */
  predicate Later(dayOf: DayParser, a: PitchRecord, b: PitchRecord) {
    dayOf(a.date).Some? && dayOf(b.date).Some? && dayOf(a.date).value > dayOf(b.date).value
  }

  /** Inserts `x` after the last element that is not later than it (stable). */
  function Insert(dayOf: DayParser, x: PitchRecord, r: seq<PitchRecord>): (res: seq<PitchRecord>)
    ensures |res| == |r| + 1
    decreases |r|
  {
    if r == [] then [x]
    else if Later(dayOf, r[|r| - 1], x) then Insert(dayOf, x, r[..|r| - 1]) + [r[|r| - 1]]
    else r + [x]
  }

  /** A stable insertion sort by the comparator; over records with valid
      dates it is the sort the source asks for. */
  function SortByDate(dayOf: DayParser, s: seq<PitchRecord>): (r: seq<PitchRecord>)
    ensures |r| == |s|
  {
    if s == [] then [] else Insert(dayOf, s[|s| - 1], SortByDate(dayOf, s[..|s| - 1]))
  }

  lemma {:induction false} InsertPermutation(dayOf: DayParser, x: PitchRecord, r: seq<PitchRecord>)
    ensures multiset(Insert(dayOf, x, r)) == multiset(r) + multiset{x}
    decreases |r|
  {
    if r != [] && Later(dayOf, r[|r| - 1], x) {
      InsertPermutation(dayOf, x, r[..|r| - 1]);
      assert r == r[..|r| - 1] + [r[|r| - 1]];
    }
  }

  /** Sorting rearranges and neither drops nor duplicates a record. */
  lemma {:induction false} SortIsPermutation(dayOf: DayParser, s: seq<PitchRecord>)
    ensures multiset(SortByDate(dayOf, s)) == multiset(s)
  {
    if s != [] {
      SortIsPermutation(dayOf, s[..|s| - 1]);
      InsertPermutation(dayOf, s[|s| - 1], SortByDate(dayOf, s[..|s| - 1]));
      assert s == s[..|s| - 1] + [s[|s| - 1]];
    }
  }

  predicate AllDated(dayOf: DayParser, s: seq<PitchRecord>) {
    forall i :: 0 <= i < |s| ==> dayOf(s[i].date).Some?
  }

  /** Non-decreasing dates. */
  predicate SortedByDate(dayOf: DayParser, s: seq<PitchRecord>)
    requires AllDated(dayOf, s)
  {
    forall i, j :: 0 <= i < j < |s| ==> dayOf(s[i].date).value <= dayOf(s[j].date).value
  }

  lemma AppendSorted(dayOf: DayParser, a: seq<PitchRecord>, y: PitchRecord)
    requires AllDated(dayOf, a) && SortedByDate(dayOf, a) && dayOf(y.date).Some?
    requires forall i :: 0 <= i < |a| ==> dayOf(a[i].date).value <= dayOf(y.date).value
    ensures AllDated(dayOf, a + [y]) && SortedByDate(dayOf, a + [y])
  {
    var r := a + [y];
    assert forall i :: 0 <= i < |a| ==> r[i] == a[i];
  }

  lemma {:induction false} InsertSorted(dayOf: DayParser, x: PitchRecord, r: seq<PitchRecord>)
    requires AllDated(dayOf, r) && SortedByDate(dayOf, r) && dayOf(x.date).Some?
    ensures AllDated(dayOf, Insert(dayOf, x, r)) && SortedByDate(dayOf, Insert(dayOf, x, r))
    decreases |r|
  {
    if r == [] {
    } else {
      var n := |r| - 1;
      var last := r[n];
      var front := r[..n];
      assert forall i :: 0 <= i < n ==> front[i] == r[i];
      if Later(dayOf, last, x) {
        InsertSorted(dayOf, x, front);
        var bound := dayOf(last.date).value;
        assert forall i :: 0 <= i < n ==> dayOf(front[i].date).value <= bound;
        InsertBounded(dayOf, x, front, bound);
        var ins := Insert(dayOf, x, front);
        AppendSorted(dayOf, ins, last);
        assert Insert(dayOf, x, r) == ins + [last];
      } else {
        AppendSorted(dayOf, r, x);
        assert Insert(dayOf, x, r) == r + [x];
      }
    }
  }

  /** Inserting keeps every date at or below a bound that all elements respect. */
  lemma InsertBounded(dayOf: DayParser, x: PitchRecord, r: seq<PitchRecord>, bound: int)
    requires AllDated(dayOf, r) && dayOf(x.date).Some? && dayOf(x.date).value <= bound
    requires forall i :: 0 <= i < |r| ==> dayOf(r[i].date).value <= bound
    ensures AllDated(dayOf, Insert(dayOf, x, r))
    ensures forall i :: 0 <= i < |Insert(dayOf, x, r)| ==> dayOf(Insert(dayOf, x, r)[i].date).value <= bound
  {
    var ins := Insert(dayOf, x, r);
    InsertPermutation(dayOf, x, r);
    forall i | 0 <= i < |ins| ensures dayOf(ins[i].date).Some? && dayOf(ins[i].date).value <= bound {
      assert ins[i] in multiset(r) + multiset{x};
      if ins[i] != x {
        assert ins[i] in r;
      }
    }
  }

  /** With every date valid the result is ordered by non-decreasing date. */
  lemma {:induction false} SortIsSorted(dayOf: DayParser, s: seq<PitchRecord>)
    requires AllDated(dayOf, s)
    ensures AllDated(dayOf, SortByDate(dayOf, s)) && SortedByDate(dayOf, SortByDate(dayOf, s))
  {
    if s != [] {
      assert forall i :: 0 <= i < |s| - 1 ==> s[..|s| - 1][i] == s[i];
      SortIsSorted(dayOf, s[..|s| - 1]);
      InsertSorted(dayOf, s[|s| - 1], SortByDate(dayOf, s[..|s| - 1]));
    }
  }

  /** `filteredData`: the selected player's records, sorted by date. */
  function FilteredData(dayOf: DayParser, data: seq<PitchRecord>, id: string): seq<PitchRecord> {
    SortByDate(dayOf, Filter(data, (d: PitchRecord) => d.id == id))
  }

  /** `filteredData` holds exactly the selected player's records, each as
      often as in the data, and is ordered by date when that player's dates
      are valid (other players' dates do not matter). */
  lemma FilteredDataSpec(dayOf: DayParser, data: seq<PitchRecord>, id: string, d: PitchRecord)
    ensures multiset(FilteredData(dayOf, data, id)) == multiset(Filter(data, (d: PitchRecord) => d.id == id))
    ensures d in FilteredData(dayOf, data, id) <==> d in data && d.id == id
    ensures AllDated(dayOf, Filter(data, (d: PitchRecord) => d.id == id)) ==>
              AllDated(dayOf, FilteredData(dayOf, data, id)) && SortedByDate(dayOf, FilteredData(dayOf, data, id))
  {
    var p := (d: PitchRecord) => d.id == id;
    var own := Filter(data, p);
    SortIsPermutation(dayOf, own);
    FilterMembership(data, p, d);
    assert d in FilteredData(dayOf, data, id) <==> d in multiset(own);
    if AllDated(dayOf, own) {
      SortIsSorted(dayOf, own);
    }
  }

  lemma OwnRecordsDated(dayOf: DayParser, data: seq<PitchRecord>, id: string)
    requires AllDated(dayOf, data)
    ensures AllDated(dayOf, Filter(data, (d: PitchRecord) => d.id == id))
  {
    var p := (d: PitchRecord) => d.id == id;
    var own := Filter(data, p);
    forall i | 0 <= i < |own| ensures dayOf(own[i].date).Some? {
      FilterMembership(data, p, own[i]);
    }
  }

  /** The record shown as the latest is the last one, and no record is later. */
  lemma LatestIsMaximal(dayOf: DayParser, data: seq<PitchRecord>, id: string)
    requires AllDated(dayOf, Filter(data, (d: PitchRecord) => d.id == id))
    requires |FilteredData(dayOf, data, id)| > 0
    ensures var fd := FilteredData(dayOf, data, id);
            AllDated(dayOf, fd) && forall i :: 0 <= i < |fd| ==> dayOf(fd[i].date).value <= dayOf(fd[|fd| - 1].date).value
  {
    var fd := FilteredData(dayOf, data, id);
    FilteredDataSpec(dayOf, data, id, fd[0]);
  }

  // ---------------------------------------------------------------------
  // Chart series

  /** `parseInt(date.split('/')[k], 10)`; a missing field is `undefined`,
      which parses as `NaN`. */
  function DateField(date: string, k: nat): Option<int> {
    var parts := Split(date, '/');
    if k < |parts| then ParseInt10(parts[k]) else None
  }

  function MonthOf(date: string): Option<int> {
    DateField(date, 1)
  }

  function DayOfMonth(date: string): Option<int> {
    DateField(date, 2)
  }

  /** A number in a template string: `NaN` as "NaN". */
  function ShowNumber(v: Option<int>): (s: string)
    ensures s != ""
  {
    match v
    case None => "NaN"
    case Some(n) => IntToString(n)
  }

  /** The month label of the `i`-th point. */
  function MonthLabel(fd: seq<PitchRecord>, i: nat): string
    requires i < |fd|
  {
    var month := MonthOf(fd[i].date);
    if i > 0 && month.Some? && month == MonthOf(fd[i - 1].date) then "" else ShowNumber(month)
  }

  datatype ChartPoint = ChartPoint(name: string, displayDate: string, value: real)

  function PointFor(fd: seq<PitchRecord>, i: nat, value: real): ChartPoint
    requires i < |fd|
  {
    ChartPoint(MonthLabel(fd, i), ShowNumber(MonthOf(fd[i].date)) + "/" + ShowNumber(DayOfMonth(fd[i].date)), value)
  }

  /** `speedChartData`: one point per record, in order. */
  function SpeedChartData(fd: seq<PitchRecord>): (r: seq<ChartPoint>)
    ensures |r| == |fd| && forall i :: 0 <= i < |fd| ==> r[i] == PointFor(fd, i, fd[i].speed)
  {
    seq(|fd|, i requires 0 <= i < |fd| => PointFor(fd, i, fd[i].speed))
  }

  /** `spinChartData`: one point per record, in order. */
  function SpinChartData(fd: seq<PitchRecord>): (r: seq<ChartPoint>)
    ensures |r| == |fd| && forall i :: 0 <= i < |fd| ==> r[i] == PointFor(fd, i, fd[i].spin as real)
  {
    seq(|fd|, i requires 0 <= i < |fd| => PointFor(fd, i, fd[i].spin as real))
  }

  /** The month is shown at the first point and wherever it differs from the
      previous point's; a month that does not parse (`NaN`) never equals the
      previous one and is always shown. Both series carry the same labels. */
  lemma MonthLabelRule(fd: seq<PitchRecord>, i: nat)
    requires i < |fd|
    ensures SpeedChartData(fd)[i].name == "" <==>
              i > 0 && MonthOf(fd[i].date).Some? && MonthOf(fd[i].date) == MonthOf(fd[i - 1].date)
    ensures SpeedChartData(fd)[i].name != "" ==> SpeedChartData(fd)[i].name == ShowNumber(MonthOf(fd[i].date))
    ensures SpinChartData(fd)[i].name == SpeedChartData(fd)[i].name
    ensures SpinChartData(fd)[i].displayDate == SpeedChartData(fd)[i].displayDate
  {
  }

  lemma NoSlashInIntToString(n: int)
    ensures '/' !in IntToString(n)
  {
    var s := NatToString(if n >= 0 then n else -n);
    assert forall i :: 0 <= i < |s| ==> IsDigit(s[i]);
  }

  /** For a date written "year/month/day" with a month and day of at least
      one digit and no sign, the labels read back the month and the day. */
  lemma SlashDateFields(year: int, month: nat, day: nat)
    ensures var date := IntToString(year) + "/" + NatToString(month) + "/" + NatToString(day);
            && MonthOf(date) == Some(month) && DayOfMonth(date) == Some(day)
            && ShowNumber(MonthOf(date)) + "/" + ShowNumber(DayOfMonth(date)) == NatToString(month) + "/" + NatToString(day)
  {
    var y, m, d := IntToString(year), NatToString(month), NatToString(day);
    NoSlashInIntToString(year);
    NoSlashInIntToString(month);
    NoSlashInIntToString(day);
    var date := y + "/" + m + "/" + d;
    assert date == y + ['/'] + m + ['/'] + d;
    SplitThree(y, m, d, '/');
    var parts := Split(date, '/');
    assert parts == [y, m, d];
    ParseIntOfNatToString(month);
    ParseIntOfNatToString(day);
    assert MonthOf(date) == ParseInt10(parts[1]);
    assert DayOfMonth(date) == ParseInt10(parts[2]);
  }

  // ---------------------------------------------------------------------
  // The component

  datatype IndividualView =
    | NoPlayerSelected
    | NoData(title: DisplayText)
    | Charts(title: DisplayText, avgSpeed: real, avgSpin: real, strikeRate: real,
             latestDate: string, speedChart: seq<ChartPoint>, spinChart: seq<ChartPoint>)

  /** `player?.name || t("analysis.selectPlayer")`. */
  function Title(players: seq<Player>, id: string): DisplayText {
    var p := FindPlayer(players, id);
    if p.Some? && p.value.name != "" then Literal(p.value.name) else Translated(SelectPlayerKey)
  }

  /** The component: the guards first, then the figures of the sorted records. */
  function Render(dayOf: DayParser, selectedPlayer: Option<string>, players: seq<Player>,
                  data: seq<PitchRecord>): (v: IndividualView)
    ensures v.NoPlayerSelected? <==> !Truthy(selectedPlayer)
    ensures v.NoData? <==> Truthy(selectedPlayer) && forall i :: 0 <= i < |data| ==> data[i].id != selectedPlayer.value
    ensures v.Charts? ==> v.title == Title(players, selectedPlayer.value)
    ensures v.Charts? ==>
              var fd := FilteredData(dayOf, data, selectedPlayer.value);
              && |fd| > 0 && v.latestDate == fd[|fd| - 1].date
              && v.avgSpeed == Mean(Speeds(fd)) && v.avgSpin == Mean(Spins(fd)) && v.strikeRate == StrikeRate(fd)
              && v.speedChart == SpeedChartData(fd) && v.spinChart == SpinChartData(fd)
  {
    if !Truthy(selectedPlayer) then NoPlayerSelected
    else
      var id := selectedPlayer.value;
      var fd := FilteredData(dayOf, data, id);
      NoRecordsIffEmpty(dayOf, data, id);
      if |fd| == 0 then NoData(Title(players, id))
      else Charts(Title(players, id), Mean(Speeds(fd)), Mean(Spins(fd)), StrikeRate(fd),
                  fd[|fd| - 1].date, SpeedChartData(fd), SpinChartData(fd))
  }

  lemma NoRecordsIffEmpty(dayOf: DayParser, data: seq<PitchRecord>, id: string)
    ensures |FilteredData(dayOf, data, id)| == 0 <==> forall i :: 0 <= i < |data| ==> data[i].id != id
  {
    var p := (d: PitchRecord) => d.id == id;
    if exists i :: 0 <= i < |data| && data[i].id == id {
      var i :| 0 <= i < |data| && data[i].id == id;
      FilterMembership(data, p, data[i]);
    } else {
      var own := Filter(data, p);
      if |own| > 0 {
        FilterMembership(data, p, own[0]);
      }
    }
  }

  /** With data on screen the figures are well formed: the strike rate is a
      percentage and the average speed is at most the fastest pitch. */
  lemma ChartsFigures(dayOf: DayParser, selectedPlayer: Option<string>, players: seq<Player>, data: seq<PitchRecord>)
    requires Render(dayOf, selectedPlayer, players, data).Charts?
    ensures var v := Render(dayOf, selectedPlayer, players, data);
            var fd := FilteredData(dayOf, data, selectedPlayer.value);
            0.0 <= v.strikeRate <= 100.0 && v.avgSpeed <= Max(Speeds(fd))
  {
    var fd := FilteredData(dayOf, data, selectedPlayer.value);
    StrikeRateIsPercentage(fd);
    MeanAtMostMax(Speeds(fd));
  }
}
