/** The comparison tab (src/app/analysis/components/ComparisonGraph.tsx):
    one bar-chart point and one radar point per metric, holding a value for
    each of the first five selected players that has records, and the
    statistics table. */
module ComparisonGraph {
  import opened Seqs
  import opened Records
  import opened PitchStats

  datatype Metric = AverageSpeed | MaximumSpeed | AverageSpin | AverageTrueSpin | AverageSpinEff | StrikePercentage

  /** The bar chart's metrics, in display order. */
  const BarMetrics: seq<Metric> := [AverageSpeed, MaximumSpeed, AverageSpin, AverageTrueSpin, AverageSpinEff, StrikePercentage]

  /** The radar chart's metrics, in display order. */
  const RadarMetrics: seq<Metric> := [AverageSpeed, AverageSpin, AverageTrueSpin, AverageSpinEff, StrikePercentage]

  /** The fixed value that a bar of 100 stands for. */
  function Ceiling(m: Metric): (c: real)
    ensures c >= 100.0
  {
    match m
    case AverageSpeed => 200.0
    case MaximumSpeed => 200.0
    case AverageSpin => 3000.0
    case AverageTrueSpin => 3000.0
    case AverageSpinEff => 100.0
    case StrikePercentage => 100.0
  }

  /** `selectedPlayers.slice(0, 5)`. */
  function FirstFive(selected: seq<string>): (r: seq<string>)
    ensures |r| <= 5 && |r| <= |selected| && r == selected[..|r|]
    ensures |selected| <= 5 ==> r == selected
  {
    if |selected| <= 5 then selected else selected[..5]
  }

  /** `playerData.filter(data => data.id === playerId)`. */
  function RecordsOf(data: seq<PitchRecord>, id: string): seq<PitchRecord> {
    Filter(data, (d: PitchRecord) => d.id == id)
  }

  /** The unscaled value of a metric over a player's records. */
  function MetricValue(m: Metric, stats: seq<PitchRecord>): real
    requires |stats| > 0
  {
    match m
    case AverageSpeed => Mean(Speeds(stats))
    case MaximumSpeed => Max(Speeds(stats))
    case AverageSpin => Mean(Spins(stats))
    case AverageTrueSpin => Mean(TrueSpins(stats))
    case AverageSpinEff => Mean(SpinEffs(stats))
    case StrikePercentage => StrikeRate(stats)
  }

  /** The radar's cohort maxima. */
  datatype Scales = Scales(speed: real, spin: real, trueSpin: real)

  datatype Chart = Bar | Radar(scales: Scales)

  predicate ScalesPositive(chart: Chart) {
    chart.Radar? ==> chart.scales.speed > 0.0 && chart.scales.spin > 0.0 && chart.scales.trueSpin > 0.0
  }

  /** `Math.max(...xs, 1)`. */
  function MaxOrOne(xs: seq<real>): (m: real)
    ensures m >= 1.0 && forall i :: 0 <= i < |xs| ==> xs[i] <= m
    ensures m == 1.0 || m in xs
  {
    var all := xs + [1.0];
    assert forall i :: 0 <= i < |xs| ==> xs[i] == all[i];
    assert all[|xs|] == 1.0;
    Max(all)
  }

  /** The records of every selected player, all of them and not only the first five. */
  function CohortRecords(data: seq<PitchRecord>, selected: seq<string>): seq<PitchRecord> {
    Filter(data, (d: PitchRecord) => d.id in selected)
  }

  /** The radar's scales: the largest speed, spin and true spin among the
      selected players' records, and never below 1. */
  function RadarScales(data: seq<PitchRecord>, selected: seq<string>): (s: Scales)
    ensures s.speed >= 1.0 && s.spin >= 1.0 && s.trueSpin >= 1.0
  {
    var all := CohortRecords(data, selected);
    Scales(MaxOrOne(Speeds(all)), MaxOrOne(Spins(all)), MaxOrOne(TrueSpins(all)))
  }

  /** The value a player gets in one point of a chart (before rounding). */
  function PointValue(chart: Chart, m: Metric, stats: seq<PitchRecord>): real
    requires |stats| > 0 && ScalesPositive(chart)
  {
    match chart
    case Bar => MetricValue(m, stats) / Ceiling(m) * 100.0
    case Radar(sc) =>
      match m
      case AverageSpeed => MetricValue(m, stats) / sc.speed * 100.0
      case AverageSpin => MetricValue(m, stats) / sc.spin * 100.0
      case AverageTrueSpin => MetricValue(m, stats) / sc.trueSpin * 100.0
      case _ => MetricValue(m, stats)
  }

  /** The player values of one chart point: a key for each of the first five
      selected ids that has records, and no key for the others. */
  function PointValues(chart: Chart, m: Metric, data: seq<PitchRecord>, selected: seq<string>): map<string, real>
    requires ScalesPositive(chart)
  {
    map id | id in FirstFive(selected) && |RecordsOf(data, id)| > 0 :: PointValue(chart, m, RecordsOf(data, id))
  }

  datatype SeriesPoint = SeriesPoint(metric: Metric, values: map<string, real>)

  function Series(chart: Chart, metrics: seq<Metric>, data: seq<PitchRecord>, selected: seq<string>): seq<SeriesPoint>
    requires ScalesPositive(chart)
  {
    seq(|metrics|, i requires 0 <= i < |metrics| => SeriesPoint(metrics[i], PointValues(chart, metrics[i], data, selected)))
  }

  // ---------------------------------------------------------------------
  // Building the chart data

  /** One `dataPoint`: walks the first five selected ids and stores a value
      for each one with records. */
  method FillDataPoint(chart: Chart, m: Metric, data: seq<PitchRecord>, selected: seq<string>)
    returns (point: map<string, real>)
    requires ScalesPositive(chart)
    ensures point == PointValues(chart, m, data, selected)
  {
    point := map[];
    var ids := FirstFive(selected);
    var i := 0;
    while i < |ids|
      invariant 0 <= i <= |ids|
      invariant forall id :: id in point <==> id in ids[..i] && |RecordsOf(data, id)| > 0
      invariant forall id :: id in point ==> point[id] == PointValue(chart, m, RecordsOf(data, id))
    {
      var id := ids[i];
      var stats := RecordsOf(data, id);
      if |stats| > 0 {
        point := point[id := PointValue(chart, m, stats)];
      }
      assert ids[..i + 1] == ids[..i] + [id];
      i := i + 1;
    }
    assert ids[..i] == ids;
    forall id
      ensures id in point <==> id in PointValues(chart, m, data, selected)
    {
      PointValuesDomain(chart, m, data, selected, id);
    }
  }

  method BuildSeries(chart: Chart, metrics: seq<Metric>, data: seq<PitchRecord>, selected: seq<string>)
    returns (points: seq<SeriesPoint>)
    requires ScalesPositive(chart)
    ensures points == Series(chart, metrics, data, selected)
  {
    points := [];
    var i := 0;
    while i < |metrics|
      invariant 0 <= i <= |metrics|
      invariant points == Series(chart, metrics[..i], data, selected)
    {
      var values := FillDataPoint(chart, metrics[i], data, selected);
      points := points + [SeriesPoint(metrics[i], values)];
      i := i + 1;
    }
    assert metrics[..i] == metrics;
  }

  /** `prepareHorizontalBarData`. */
  method PrepareHorizontalBarData(data: seq<PitchRecord>, selected: seq<string>) returns (points: seq<SeriesPoint>)
    ensures points == Series(Bar, BarMetrics, data, selected)
  {
    points := BuildSeries(Bar, BarMetrics, data, selected);
  }

  /** `prepareRadarData`: the cohort maxima first, then one point per radar metric. */
  method PrepareRadarData(data: seq<PitchRecord>, selected: seq<string>) returns (points: seq<SeriesPoint>)
    ensures points == Series(Radar(RadarScales(data, selected)), RadarMetrics, data, selected)
  {
    var scales := RadarScales(data, selected);
    points := BuildSeries(Radar(scales), RadarMetrics, data, selected);
  }

  // ---------------------------------------------------------------------
  // What the chart data promises

  /** The bar chart has one point per metric, in fixed order, with ceilings
      200, 200, 3000, 3000, 100 and 100; the radar has five points. */
  lemma BarSeriesShape(data: seq<PitchRecord>, selected: seq<string>)
    ensures var s := Series(Bar, BarMetrics, data, selected);
            |s| == 6 && forall i :: 0 <= i < 6 ==> s[i].metric == BarMetrics[i]
    ensures seq(6, i requires 0 <= i < 6 => Ceiling(BarMetrics[i])) == [200.0, 200.0, 3000.0, 3000.0, 100.0, 100.0]
    ensures |Series(Radar(RadarScales(data, selected)), RadarMetrics, data, selected)| == 5
  {
  }

  /** A key of a chart point is one of the first five selected ids, and it
      is there exactly when the data holds records of that player. */
  lemma PointKeys(chart: Chart, m: Metric, data: seq<PitchRecord>, selected: seq<string>, id: string)
    requires ScalesPositive(chart)
    ensures id in PointValues(chart, m, data, selected) <==>
              id in FirstFive(selected) && exists k :: 0 <= k < |data| && data[k].id == id
    ensures id in PointValues(chart, m, data, selected) ==> id in selected
  {
    PointValuesDomain(chart, m, data, selected, id);
    HasRecordsIff(data, id);
    FirstFiveSelected(selected, id);
  }

  lemma PointValuesDomain(chart: Chart, m: Metric, data: seq<PitchRecord>, selected: seq<string>, id: string)
    requires ScalesPositive(chart)
    ensures id in PointValues(chart, m, data, selected) <==> id in FirstFive(selected) && |RecordsOf(data, id)| > 0
  {
  }

  /** A player has records exactly when some record carries the id. */
  lemma HasRecordsIff(data: seq<PitchRecord>, id: string)
    ensures |RecordsOf(data, id)| > 0 <==> exists k :: 0 <= k < |data| && data[k].id == id
  {
    var p := (d: PitchRecord) => d.id == id;
    if exists k :: 0 <= k < |data| && data[k].id == id {
      var k :| 0 <= k < |data| && data[k].id == id;
      FilterMembership(data, p, data[k]);
    }
    if |RecordsOf(data, id)| > 0 {
      var d := RecordsOf(data, id)[0];
      FilterMembership(data, p, d);
    }
  }

  lemma FirstFiveSelected(selected: seq<string>, id: string)
    ensures id in FirstFive(selected) ==> id in selected
  {
    if id in FirstFive(selected) {
      var r := FirstFive(selected);
      var j :| 0 <= j < |r| && r[j] == id;
      assert selected[j] == id;
    }
  }

  /** Bar values are over the fixed ceilings: the strike bar is a
      percentage, and the maximum-speed bar is never shorter than the
      average-speed bar. */
  lemma BarValues(data: seq<PitchRecord>, selected: seq<string>, id: string)
    requires id in PointValues(Bar, StrikePercentage, data, selected)
    ensures 0.0 <= PointValues(Bar, StrikePercentage, data, selected)[id] <= 100.0
    ensures PointValues(Bar, AverageSpeed, data, selected)[id] <= PointValues(Bar, MaximumSpeed, data, selected)[id]
  {
    BarStrike(data, selected, id);
    PointValuesDomain(Bar, StrikePercentage, data, selected, id);
    PointValuesDomain(Bar, AverageSpeed, data, selected, id);
    PointValuesDomain(Bar, MaximumSpeed, data, selected, id);
    BarSpeeds(data, selected, id);
  }

  lemma BarStrike(data: seq<PitchRecord>, selected: seq<string>, id: string)
    requires id in PointValues(Bar, StrikePercentage, data, selected)
    ensures 0.0 <= PointValues(Bar, StrikePercentage, data, selected)[id] <= 100.0
  {
    BarValueAt(StrikePercentage, data, selected, id);
    var rate := StrikeRate(RecordsOf(data, id));
    StrikeRateIsPercentage(RecordsOf(data, id));
    PercentUnchanged(rate);
  }

  lemma PercentUnchanged(x: real)
    ensures x / 100.0 * 100.0 == x
  {
  }

  lemma BarSpeeds(data: seq<PitchRecord>, selected: seq<string>, id: string)
    requires id in PointValues(Bar, AverageSpeed, data, selected) && id in PointValues(Bar, MaximumSpeed, data, selected)
    ensures PointValues(Bar, AverageSpeed, data, selected)[id] <= PointValues(Bar, MaximumSpeed, data, selected)[id]
  {
    BarValueAt(AverageSpeed, data, selected, id);
    BarValueAt(MaximumSpeed, data, selected, id);
    var stats := RecordsOf(data, id);
    MeanAtMostMax(Speeds(stats));
    ScaledMonotone(Mean(Speeds(stats)), Max(Speeds(stats)), 200.0);
  }

  lemma ScaledMonotone(a: real, b: real, scale: real)
    requires scale > 0.0 && a <= b
    ensures a / scale * 100.0 <= b / scale * 100.0
  {
  }

  lemma BarValueAt(m: Metric, data: seq<PitchRecord>, selected: seq<string>, id: string)
    requires id in PointValues(Bar, m, data, selected)
    ensures |RecordsOf(data, id)| > 0
    ensures PointValues(Bar, m, data, selected)[id] == MetricValue(m, RecordsOf(data, id)) / Ceiling(m) * 100.0
  {
  }

  /** Every selected player's record is below the radar's scales. */
  lemma ScalesBoundCohort(data: seq<PitchRecord>, selected: seq<string>, d: PitchRecord)
    requires d in data && d.id in selected
    ensures var sc := RadarScales(data, selected);
            d.speed <= sc.speed && d.spin as real <= sc.spin && d.trueSpin as real <= sc.trueSpin
  {
    var all := CohortRecords(data, selected);
    FilterMembership(data, (d: PitchRecord) => d.id in selected, d);
    var k :| 0 <= k < |all| && all[k] == d;
    assert Speeds(all)[k] == d.speed;
    assert Spins(all)[k] == d.spin as real;
    assert TrueSpins(all)[k] == d.trueSpin as real;
  }

  lemma ScaledAtMostHundred(x: real, scale: real)
    requires scale > 0.0 && x <= scale
    ensures x / scale * 100.0 <= 100.0
  {
    DivideAtMost(x, scale, 1.0);
  }

  /** A mean of values at most `scale`, divided by `scale`, is at most 100 percent. */
  lemma ScaledMeanAtMostHundred(xs: seq<real>, scale: real)
    requires |xs| > 0 && scale > 0.0
    requires forall i :: 0 <= i < |xs| ==> xs[i] <= scale
    ensures Mean(xs) / scale * 100.0 <= 100.0
  {
    MeanAtMostMax(xs);
    ScaledAtMostHundred(Mean(xs), scale);
  }

  /** A selected player's records lie within the radar's scales. */
  lemma PlayerWithinScales(data: seq<PitchRecord>, selected: seq<string>, id: string)
    requires id in selected
    ensures var sc, stats := RadarScales(data, selected), RecordsOf(data, id);
            forall k :: 0 <= k < |stats| ==>
              stats[k].speed <= sc.speed && stats[k].spin as real <= sc.spin && stats[k].trueSpin as real <= sc.trueSpin
  {
    var stats := RecordsOf(data, id);
    forall k | 0 <= k < |stats|
      ensures var sc := RadarScales(data, selected);
              stats[k].speed <= sc.speed && stats[k].spin as real <= sc.spin && stats[k].trueSpin as real <= sc.trueSpin
    {
      FilterMembership(data, (d: PitchRecord) => d.id == id, stats[k]);
      ScalesBoundCohort(data, selected, stats[k]);
    }
  }

  /** The radar's speed, spin and true-spin values never exceed 100: a
      player's average is at most that player's maximum, which is at most the
      cohort's. */
  lemma RadarScaledAtMostHundred(data: seq<PitchRecord>, selected: seq<string>, id: string)
    requires id in FirstFive(selected) && |RecordsOf(data, id)| > 0
    ensures PointValue(Radar(RadarScales(data, selected)), AverageSpeed, RecordsOf(data, id)) <= 100.0
    ensures PointValue(Radar(RadarScales(data, selected)), AverageSpin, RecordsOf(data, id)) <= 100.0
    ensures PointValue(Radar(RadarScales(data, selected)), AverageTrueSpin, RecordsOf(data, id)) <= 100.0
  {
    FirstFiveSelected(selected, id);
    PlayerWithinScales(data, selected, id);
    RecordsWithinScales(RadarScales(data, selected), RecordsOf(data, id));
  }

  /** Records that lie within the scales average to at most 100 on the radar. */
  lemma RecordsWithinScales(sc: Scales, stats: seq<PitchRecord>)
    requires |stats| > 0 && sc.speed >= 1.0 && sc.spin >= 1.0 && sc.trueSpin >= 1.0
    requires forall k :: 0 <= k < |stats| ==>
               stats[k].speed <= sc.speed && stats[k].spin as real <= sc.spin && stats[k].trueSpin as real <= sc.trueSpin
    ensures PointValue(Radar(sc), AverageSpeed, stats) <= 100.0
    ensures PointValue(Radar(sc), AverageSpin, stats) <= 100.0
    ensures PointValue(Radar(sc), AverageTrueSpin, stats) <= 100.0
  {
    ScaledMeanAtMostHundred(Speeds(stats), sc.speed);
    ScaledMeanAtMostHundred(Spins(stats), sc.spin);
    ScaledMeanAtMostHundred(TrueSpins(stats), sc.trueSpin);
  }

  /** Spin efficiency and strike rate are not divided by a cohort maximum:
      their radar values equal their bar values, whose ceiling is 100. */
  lemma RadarUnscaledMetrics(scales: Scales, stats: seq<PitchRecord>)
    requires |stats| > 0 && ScalesPositive(Radar(scales))
    ensures PointValue(Radar(scales), AverageSpinEff, stats) == PointValue(Bar, AverageSpinEff, stats)
    ensures PointValue(Radar(scales), StrikePercentage, stats) == PointValue(Bar, StrikePercentage, stats)
  {
  }

  // ---------------------------------------------------------------------
  // The statistics table

  datatype TableRow = TableRow(
    playerId: string, name: string,
    avgSpeed: real, maxSpeed: real, avgSpin: real, maxSpin: real,
    avgTrueSpin: real, avgSpinEff: real, strikeRate: real)

  function StatsRow(players: seq<Player>, id: string, stats: seq<PitchRecord>): TableRow
    requires |stats| > 0
  {
    TableRow(id, NameOr(FindPlayer(players, id), "Unknown"),
             Mean(Speeds(stats)), Max(Speeds(stats)), Mean(Spins(stats)), Max(Spins(stats)),
             Mean(TrueSpins(stats)), Mean(SpinEffs(stats)), StrikeRate(stats))
  }

  /** The table body: a row for each selected player (all of them) with
      records, in selection order. */
  function TableRows(players: seq<Player>, data: seq<PitchRecord>, selected: seq<string>): (r: seq<TableRow>)
    ensures |r| <= |selected|
    ensures forall i :: 0 <= i < |r| ==> r[i].playerId in selected && |RecordsOf(data, r[i].playerId)| > 0
  {
    if selected == [] then []
    else
      var stats := RecordsOf(data, selected[0]);
      var rest := TableRows(players, data, selected[1..]);
      TailMembers(selected);
      (if |stats| > 0 then [StatsRow(players, selected[0], stats)] else []) + rest
  }

  lemma TailMembers(s: seq<string>)
    requires s != []
    ensures forall x :: x in s[1..] ==> x in s
  {
    forall x | x in s[1..]
      ensures x in s
    {
      var k :| 0 <= k < |s| - 1 && s[1..][k] == x;
      assert s[k + 1] == x;
    }
  }

  /** One step of the table body: the first player's row, if any, then the rest. */
  lemma TableRowsCons(players: seq<Player>, data: seq<PitchRecord>, selected: seq<string>)
    requires selected != []
    ensures var stats := RecordsOf(data, selected[0]);
            TableRows(players, data, selected) ==
              (if |stats| > 0 then [StatsRow(players, selected[0], stats)] else []) + TableRows(players, data, selected[1..])
  {
  }

  /** Each row holds the statistics of its player's records. */
  lemma {:induction false} TableRowStats(players: seq<Player>, data: seq<PitchRecord>, selected: seq<string>, i: nat)
    requires i < |TableRows(players, data, selected)|
    ensures var row := TableRows(players, data, selected)[i];
            row == StatsRow(players, row.playerId, RecordsOf(data, row.playerId))
  {
    var stats := RecordsOf(data, selected[0]);
    if |stats| == 0 || i > 0 {
      TableRowStats(players, data, selected[1..], if |stats| == 0 then i else i - 1);
    }
  }

  /** A row's figures are consistent: the maxima are not below the averages,
      the strike rate is a percentage, and the name falls back to "Unknown". */
  lemma StatsRowConsistent(players: seq<Player>, id: string, stats: seq<PitchRecord>)
    requires |stats| > 0
    ensures var row := StatsRow(players, id, stats);
            && row.avgSpeed <= row.maxSpeed && row.avgSpin <= row.maxSpin
            && 0.0 <= row.strikeRate <= 100.0
            && (FindPlayer(players, id).None? ==> row.name == "Unknown")
  {
    MeanAtMostMax(Speeds(stats));
    MeanAtMostMax(Spins(stats));
    StrikeRateIsPercentage(stats);
  }

  /** Every selected player with records has a row. */
  lemma {:induction false} TableRowsComplete(players: seq<Player>, data: seq<PitchRecord>, selected: seq<string>, id: string)
    requires id in selected && |RecordsOf(data, id)| > 0
    ensures exists i :: 0 <= i < |TableRows(players, data, selected)| && TableRows(players, data, selected)[i].playerId == id
  {
    var stats := RecordsOf(data, selected[0]);
    var head: seq<TableRow> := if |stats| > 0 then [StatsRow(players, selected[0], stats)] else [];
    var rest := TableRows(players, data, selected[1..]);
    TableRowsCons(players, data, selected);
    if selected[0] == id {
      assert (head + rest)[0].playerId == id;
    } else {
      InTail(selected, id);
      TableRowsComplete(players, data, selected[1..], id);
      RowAfterHead(head, rest, id);
    }
  }

  lemma InTail(s: seq<string>, x: string)
    requires x in s && s[0] != x
    ensures x in s[1..]
  {
    var j :| 0 <= j < |s| && s[j] == x;
    assert s[1..][j - 1] == x;
  }

  lemma RowAfterHead(head: seq<TableRow>, rest: seq<TableRow>, id: string)
    requires exists i :: 0 <= i < |rest| && rest[i].playerId == id
    ensures exists i :: 0 <= i < |head + rest| && (head + rest)[i].playerId == id
  {
    var i :| 0 <= i < |rest| && rest[i].playerId == id;
    assert (head + rest)[|head| + i] == rest[i];
  }

  // ---------------------------------------------------------------------
  // The component

  datatype ComparisonView =
    | NoPlayerSelected
    | Charts(bar: seq<SeriesPoint>, radar: seq<SeriesPoint>, table: seq<TableRow>)

  /** The component: the no-player message for an empty selection, otherwise both charts and the table. */
  method Render(players: seq<Player>, data: seq<PitchRecord>, selected: seq<string>) returns (v: ComparisonView)
    ensures v.NoPlayerSelected? <==> selected == []
    ensures v.Charts? ==> v.bar == Series(Bar, BarMetrics, data, selected)
    ensures v.Charts? ==> v.radar == Series(Radar(RadarScales(data, selected)), RadarMetrics, data, selected)
    ensures v.Charts? ==> v.table == TableRows(players, data, selected)
  {
    if |selected| == 0 {
      return NoPlayerSelected;
    }
    var bar := PrepareHorizontalBarData(data, selected);
    var radar := PrepareRadarData(data, selected);
    v := Charts(bar, radar, TableRows(players, data, selected));
  }
}
