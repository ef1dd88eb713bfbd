/** The roster page (src/app/home/page.tsx): each player's speed summary
    from their uploaded records, the name and grade lists, the filter run by
    the Filter button, the name suggestions and the tag labels. */
module Home {
  import opened Options
  import opened Seqs
  import opened Text
  import opened Records
  import PitchStats
  import DataHelpers
  import opened DateFormatter

  /** A roster player with the fields the page reads. */
  datatype RosterPlayer = RosterPlayer(
    id: string,
    name: string,
    grade: string,
    creationDate: Option<Timestamp>,
    throwingHand: Option<string>,
    favoritePitch: Option<string>,
    maxSpeed: Option<real>,
    recentSpeed: Option<real>)

  /** The calendar day (in the display locale) of a timestamp given in
      seconds; what `toLocaleDateString("en-GB")` compares. */
  type StampDay = int -> int

  // ---------------------------------------------------------------------
  // Speeds from the uploaded records

  /** The candidate column names of the speed, tried in this order. */
  const SpeedKeys: seq<string> := ["速度(kph)", "速度", "releaseSpeed", "Release Speed", "speed",
                                   "Speed", "リリース速度", "球速", "RELEASE_SPEED", "release_speed"]

  /** The record holds a usable value under the key: not `undefined`, not
      `null` and not "". */
  predicate Present(r: DataHelpers.RawRecord, key: string) {
    key in r && r[key].Str? && r[key].s != ""
  }

  /** The value under the first candidate key that holds a usable value. */
  function FindFieldValue(r: DataHelpers.RawRecord, keys: seq<string>): (v: Option<string>)
    ensures v.None? <==> forall i :: 0 <= i < |keys| ==> !Present(r, keys[i])
    ensures v.Some? ==> v.value != ""
  {
    if keys == [] then None
    else if Present(r, keys[0]) then Some(r[keys[0]].s)
    else
      assert forall i :: 1 <= i < |keys| ==> keys[i] == keys[1..][i - 1];
      FindFieldValue(r, keys[1..])
  }

  /** A found value is the one under the first candidate key holding a usable value. */
  lemma {:induction false} FindFieldValueFirst(r: DataHelpers.RawRecord, keys: seq<string>)
    requires FindFieldValue(r, keys).Some?
    ensures exists i :: 0 <= i < |keys| && keys[i] in r && r[keys[i]] == DataHelpers.Str(FindFieldValue(r, keys).value)
                        && forall j :: 0 <= j < i ==> !Present(r, keys[j])
  {
    var v := FindFieldValue(r, keys).value;
    if Present(r, keys[0]) {
      assert keys[0] in r && r[keys[0]] == DataHelpers.Str(v);
    } else {
      var tail := keys[1..];
      FindFieldValueFirst(r, tail);
      var i :| 0 <= i < |tail| && tail[i] in r && r[tail[i]] == DataHelpers.Str(v)
               && forall j :: 0 <= j < i ==> !Present(r, tail[j]);
      assert keys[i + 1] == tail[i];
      forall j | 0 <= j < i + 1 ensures !Present(r, keys[j]) {
        if j > 0 {
          assert keys[j] == tail[j - 1];
        }
      }
    }
  }

  /** The speed a found text stands for: its numeric characters parsed, 0 when that is `NaN`. */
  function SpeedOfText(v: string, parse: DataHelpers.FloatParser): real {
    match parse(KeepNumericChars(v))
    case Some(x) => x
    case None => 0.0
  }

  /** The speed of one record: 0 when no candidate key holds a non-empty value. */
  function SpeedOf(r: DataHelpers.RawRecord, parse: DataHelpers.FloatParser): real {
    var value := FindFieldValue(r, SpeedKeys);
    if value.Some? then SpeedOfText(value.value, parse) else 0.0
  }

  function RecordSpeeds(records: seq<DataHelpers.RawRecord>, parse: DataHelpers.FloatParser): (r: seq<real>)
    ensures |r| == |records| && forall i :: 0 <= i < |records| ==> r[i] == SpeedOf(records[i], parse)
  {
    seq(|records|, i requires 0 <= i < |records| => SpeedOf(records[i], parse))
  }

  /** `speeds`: the per-record speeds, keeping only the strictly positive ones. */
  function ExtractSpeeds(records: seq<DataHelpers.RawRecord>, parse: DataHelpers.FloatParser): seq<real> {
    Filter(RecordSpeeds(records, parse), (s: real) => s > 0.0)
  }

  /** The kept speeds are positive, in record order, and are exactly the
      positive speeds that some record yields. */
  lemma ExtractSpeedsSpec(records: seq<DataHelpers.RawRecord>, parse: DataHelpers.FloatParser, x: real)
    ensures |ExtractSpeeds(records, parse)| <= |records|
    ensures forall i :: 0 <= i < |ExtractSpeeds(records, parse)| ==> ExtractSpeeds(records, parse)[i] > 0.0
    ensures IsSubsequence(ExtractSpeeds(records, parse), RecordSpeeds(records, parse))
    ensures x in ExtractSpeeds(records, parse) <==>
              x > 0.0 && exists i :: 0 <= i < |records| && SpeedOf(records[i], parse) == x
  {
    var all := RecordSpeeds(records, parse);
    FilterIsSubsequence(all, (s: real) => s > 0.0);
    FilterMembership(all, (s: real) => s > 0.0, x);
    if x > 0.0 && exists i :: 0 <= i < |records| && SpeedOf(records[i], parse) == x {
      var i :| 0 <= i < |records| && SpeedOf(records[i], parse) == x;
      assert all[i] == x;
    }
  }

  /** A record without a usable speed value counts as 0 and is dropped. */
  lemma MissingSpeedIsZero(r: DataHelpers.RawRecord, parse: DataHelpers.FloatParser)
    requires forall i :: 0 <= i < |SpeedKeys| ==> SpeedKeys[i] !in r || r[SpeedKeys[i]] in {DataHelpers.Null, DataHelpers.Str("")}
    ensures SpeedOf(r, parse) == 0.0
    ensures ExtractSpeeds([r], parse) == []
  {
    assert FindFieldValue(r, SpeedKeys).None?;
    assert RecordSpeeds([r], parse) == [0.0];
  }

  /** Units and other decoration around the number do not matter: a text
      and its numeric characters give the same speed. */
  lemma SpeedIgnoresDecoration(v: string, parse: DataHelpers.FloatParser)
    ensures SpeedOfText(KeepNumericChars(v), parse) == SpeedOfText(v, parse)
  {
    KeepNumericCharsIdempotent(v);
  }

  /** `maxSpeed` and `recentSpeed` after the fetch: set from the kept speeds
      when there are any, otherwise the player as stored. */
  function WithSpeedSummary(p: RosterPlayer, speeds: seq<real>): (q: RosterPlayer)
    ensures |speeds| == 0 ==> q == p
    ensures |speeds| > 0 ==> q.maxSpeed.Some? && q.maxSpeed.value in speeds
    ensures |speeds| > 0 ==> forall i :: 0 <= i < |speeds| ==> speeds[i] <= q.maxSpeed.value
    ensures |speeds| > 0 ==> q.recentSpeed == Some(speeds[|speeds| - 1])
    ensures q.(maxSpeed := p.maxSpeed, recentSpeed := p.recentSpeed) == p
  {
    if |speeds| > 0 then p.(maxSpeed := Some(PitchStats.Max(speeds)), recentSpeed := Some(speeds[|speeds| - 1]))
    else p
  }

  /** Once summarised, the most recent speed is never above the maximum, and both are positive. */
  lemma SpeedSummaryOrdered(p: RosterPlayer, records: seq<DataHelpers.RawRecord>, parse: DataHelpers.FloatParser)
    requires |ExtractSpeeds(records, parse)| > 0
    ensures WithSpeedSummary(p, ExtractSpeeds(records, parse)).recentSpeed.value
         <= WithSpeedSummary(p, ExtractSpeeds(records, parse)).maxSpeed.value
    ensures WithSpeedSummary(p, ExtractSpeeds(records, parse)).recentSpeed.value > 0.0
  {
    var speeds := ExtractSpeeds(records, parse);
    ExtractSpeedsSpec(records, parse, 0.0);
    assert speeds[|speeds| - 1] > 0.0;
  }

  /** One fetched player: the stored player and their uploaded records. */
  function Fetched(p: RosterPlayer, records: seq<DataHelpers.RawRecord>, parse: DataHelpers.FloatParser): RosterPlayer {
    WithSpeedSummary(p, ExtractSpeeds(records, parse))
  }

  // ---------------------------------------------------------------------
  // Names and grades

  function Names(players: seq<RosterPlayer>): (r: seq<string>)
    ensures |r| == |players| && forall i :: 0 <= i < |players| ==> r[i] == players[i].name
  {
    seq(|players|, i requires 0 <= i < |players| => players[i].name)
  }

  function Grades(players: seq<RosterPlayer>): (r: seq<string>)
    ensures |r| == |players| && forall i :: 0 <= i < |players| ==> r[i] == players[i].grade
  {
    seq(|players|, i requires 0 <= i < |players| => players[i].grade)
  }

  /** `uniqueNames`. */
  function UniqueNames(players: seq<RosterPlayer>): seq<string> {
    Dedup(Names(players))
  }

  /** `uniqueGrades`. */
  function UniqueGrades(players: seq<RosterPlayer>): seq<string> {
    Dedup(Grades(players))
  }

  /** Each name once, every player's name present, none other, in order of first appearance. */
  lemma UniqueNamesSpec(players: seq<RosterPlayer>, n: string)
    ensures NoDuplicates(UniqueNames(players))
    ensures n in UniqueNames(players) <==> exists i :: 0 <= i < |players| && players[i].name == n
    ensures forall i, j :: 0 <= i < j < |UniqueNames(players)| ==>
              FirstIndex(Names(players), UniqueNames(players)[i]) < FirstIndex(Names(players), UniqueNames(players)[j])
  {
    var all := Names(players);
    DedupFirstOccurrenceOrder(all);
    if exists i :: 0 <= i < |players| && players[i].name == n {
      var i :| 0 <= i < |players| && players[i].name == n;
      assert all[i] in Dedup(all);
    }
  }

  /** Each grade once, every player's grade present, none other, in order of first appearance. */
  lemma UniqueGradesSpec(players: seq<RosterPlayer>, g: string)
    ensures NoDuplicates(UniqueGrades(players))
    ensures g in UniqueGrades(players) <==> exists i :: 0 <= i < |players| && players[i].grade == g
    ensures forall i, j :: 0 <= i < j < |UniqueGrades(players)| ==>
              FirstIndex(Grades(players), UniqueGrades(players)[i]) < FirstIndex(Grades(players), UniqueGrades(players)[j])
  {
    var all := Grades(players);
    DedupFirstOccurrenceOrder(all);
    if exists i :: 0 <= i < |players| && players[i].grade == g {
      var i :| 0 <= i < |players| && players[i].grade == g;
      assert all[i] in Dedup(all);
    }
  }

  // ---------------------------------------------------------------------
  // The filter

  /** `name.toLowerCase().includes(search.toLowerCase())`. */
  predicate NameMatches(name: string, search: string) {
    Contains(Lower(name), Lower(search))
  }

  /** A player passes the date criterion when created on the chosen day. A
      date-string `creationDate` is read through `.seconds`, which it does
      not have, so it yields an invalid date that equals no chosen day. */
  predicate CreatedOn(stampDay: StampDay, p: RosterPlayer, day: int) {
    p.creationDate.Some? && p.creationDate.value.Stamp? && stampDay(p.creationDate.value.seconds) == day
  }

  predicate PassesName(searchName: string, p: RosterPlayer) {
    searchName != "" ==> NameMatches(p.name, searchName)
  }

  predicate PassesGrade(searchGrade: string, p: RosterPlayer) {
    searchGrade != "" ==> p.grade == searchGrade
  }

  predicate PassesDate(stampDay: StampDay, selectedDate: Option<int>, p: RosterPlayer) {
    selectedDate.Some? ==> CreatedOn(stampDay, p, selectedDate.value)
  }

  predicate PassesAll(stampDay: StampDay, searchName: string, searchGrade: string, selectedDate: Option<int>, p: RosterPlayer) {
    PassesName(searchName, p) && PassesGrade(searchGrade, p) && PassesDate(stampDay, selectedDate, p)
  }

  /** The players `handleFilter` keeps. */
  function FilterPlayers(players: seq<RosterPlayer>, stampDay: StampDay, searchName: string,
                         searchGrade: string, selectedDate: Option<int>): seq<RosterPlayer>
  {
    Filter(players, p => PassesAll(stampDay, searchName, searchGrade, selectedDate, p))
  }

  /** The filter keeps players in roster order, and keeps a player exactly
      when each criterion that is set holds of them. */
  lemma FilterPlayersSpec(players: seq<RosterPlayer>, stampDay: StampDay, searchName: string,
                          searchGrade: string, selectedDate: Option<int>, p: RosterPlayer)
    ensures IsSubsequence(FilterPlayers(players, stampDay, searchName, searchGrade, selectedDate), players)
    ensures p in FilterPlayers(players, stampDay, searchName, searchGrade, selectedDate) <==>
              && p in players
              && (searchName != "" ==> Contains(Lower(p.name), Lower(searchName)))
              && (searchGrade != "" ==> p.grade == searchGrade)
              && (selectedDate.Some? ==> p.creationDate.Some? && p.creationDate.value.Stamp?
                                         && stampDay(p.creationDate.value.seconds) == selectedDate.value)
  {
    var f := (p: RosterPlayer) => PassesAll(stampDay, searchName, searchGrade, selectedDate, p);
    FilterIsSubsequence(players, f);
    FilterMembership(players, f, p);
  }

  /** With no criterion set the filter keeps every player. */
  lemma NoCriteriaKeepsAll(players: seq<RosterPlayer>, stampDay: StampDay)
    ensures FilterPlayers(players, stampDay, "", "", None) == players
  {
    FilterAll(players, p => PassesAll(stampDay, "", "", None, p));
  }

  /** With a date chosen, a player without a creation timestamp is never kept. */
  lemma DateExcludesUndated(players: seq<RosterPlayer>, stampDay: StampDay, searchName: string,
                            searchGrade: string, day: int, p: RosterPlayer)
    requires p.creationDate.None? || p.creationDate.value.DateString?
    ensures p !in FilterPlayers(players, stampDay, searchName, searchGrade, Some(day))
  {
    FilterPlayersSpec(players, stampDay, searchName, searchGrade, Some(day), p);
  }

  lemma LowerCharIdempotent(c: char)
    ensures LowerChar(LowerChar(c)) == LowerChar(c)
  {
  }

  /** The case of the search text does not matter. */
  lemma FilterIgnoresSearchCase(players: seq<RosterPlayer>, stampDay: StampDay, searchName: string,
                                searchGrade: string, selectedDate: Option<int>)
    ensures FilterPlayers(players, stampDay, Lower(searchName), searchGrade, selectedDate)
         == FilterPlayers(players, stampDay, searchName, searchGrade, selectedDate)
  {
    forall c | c in searchName ensures LowerChar(LowerChar(c)) == LowerChar(c) {
      LowerCharIdempotent(c);
    }
    assert Lower(Lower(searchName)) == Lower(searchName);
    FilterExt(players, p => PassesAll(stampDay, Lower(searchName), searchGrade, selectedDate, p),
                       p => PassesAll(stampDay, searchName, searchGrade, selectedDate, p));
  }

  // ---------------------------------------------------------------------
  // Name suggestions

  /** The suggestions for an input: none for an empty input, otherwise the names that match it. */
  function Suggestions(names: seq<string>, input: string): seq<string> {
    if input == "" then [] else Filter(names, n => NameMatches(n, input))
  }

  /** Suggestions are drawn from the name list in its order, and for a
      non-empty input are exactly the names containing it, ignoring case. */
  lemma SuggestionsSpec(names: seq<string>, input: string, n: string)
    ensures input == "" ==> Suggestions(names, input) == []
    ensures IsSubsequence(Suggestions(names, input), names)
    ensures input != "" ==> (n in Suggestions(names, input) <==> n in names && Contains(Lower(n), Lower(input)))
    ensures NoDuplicates(names) ==> NoDuplicates(Suggestions(names, input))
  {
    if input != "" {
      var f := (n: string) => NameMatches(n, input);
      FilterIsSubsequence(names, f);
      FilterMembership(names, f, n);
      if NoDuplicates(names) {
        FilterNoDuplicates(names, f);
      }
    }
  }

  // ---------------------------------------------------------------------
  // Tag labels

  /** `getThrowingHandLabel`. */
  function ThrowingHandLabel(hand: string): (r: DisplayText)
    ensures hand == "right" ==> r == Translated("createPlayer.rightHanded")
    ensures hand == "left" ==> r == Translated("createPlayer.leftHanded")
    ensures hand != "right" && hand != "left" ==> r == Literal(hand)
  {
    if hand == "right" then Translated("createPlayer.rightHanded")
    else if hand == "left" then Translated("createPlayer.leftHanded")
    else Literal(hand)
  }

  /** Two different unlisted hands keep two different labels. */
  lemma ThrowingHandLabelInjective(a: string, b: string)
    requires ThrowingHandLabel(a) == ThrowingHandLabel(b)
    ensures a == b
  {
  }

  /** The seven pitch keys of `pitchMap`. */
  const PitchKeys: set<string> := {"fastball", "curveball", "slider", "changeup", "splitter", "forkball", "cutter"}

  /** `pitchMap`: each pitch key to its translation key. */
  const PitchTable: map<string, string> := map pitch | pitch in PitchKeys :: "createPlayer." + pitch

  /** What `pitchMap[pitch] || pitch` evaluates to as written: a label, or an
      inherited member of `Object.prototype`, which is truthy and not text. */
  datatype PitchLabel = Label(text: DisplayText) | PrototypeMember(name: string)

  /** `getFavoritePitchLabel` as written. */
  function FavoritePitchLabelAsWritten(pitch: string): (r: PitchLabel)
    ensures pitch !in DataHelpers.ObjectPrototypeNames ==> r.Label?
  {
    match DataHelpers.LiteralLookup(PitchTable, pitch)
    case Own(key) => Label(Translated(key))
    case Inherited(name) => PrototypeMember(name)
    case Undefined => Label(Literal(pitch))
  }

  /** A favourite pitch stored as "constructor" shows the `Object` function rather than a label. */
  lemma FavoritePitchLabelAsWrittenReturnsFunction()
    ensures FavoritePitchLabelAsWritten("constructor") == PrototypeMember("constructor")
  {
    assert "constructor" !in PitchTable;
  }

  /** `getFavoritePitchLabel` as intended: the seven keys translate, every
      other text is shown unchanged. */
  function FavoritePitchLabel(pitch: string): (r: DisplayText)
    ensures pitch in PitchKeys ==> r == Translated("createPlayer." + pitch)
    ensures pitch !in PitchKeys ==> r == Literal(pitch)
  {
    if pitch in PitchTable then Translated(PitchTable[pitch]) else Literal(pitch)
  }

  /** Off the inherited names the two versions agree. */
  lemma FavoritePitchLabelAgreesOffPrototype(pitch: string)
    requires pitch !in DataHelpers.ObjectPrototypeNames
    ensures FavoritePitchLabelAsWritten(pitch) == Label(FavoritePitchLabel(pitch))
  {
  }

  /** The body of `handleFilter`: `filtered` narrowed by name, then grade, then date. */
  method NarrowPlayers(all: seq<RosterPlayer>, day: StampDay, name: string, grade: string, date: Option<int>)
    returns (filtered: seq<RosterPlayer>)
    ensures filtered == FilterPlayers(all, day, name, grade, date)
  {
    ghost var byName := (p: RosterPlayer) => PassesName(name, p);
    ghost var byGrade := (p: RosterPlayer) => PassesGrade(grade, p);
    ghost var byDate := (p: RosterPlayer) => PassesDate(day, date, p);
    ghost var both := (p: RosterPlayer) => PassesName(name, p) && PassesGrade(grade, p);

    filtered := all;
    if name != "" {
      filtered := Filter(filtered, (p: RosterPlayer) => NameMatches(p.name, name));
      FilterExt(all, (p: RosterPlayer) => NameMatches(p.name, name), byName);
    } else {
      FilterAll(all, byName);
    }
    assert filtered == Filter(all, byName);
    ghost var step1 := filtered;

    if grade != "" {
      filtered := Filter(filtered, (p: RosterPlayer) => p.grade == grade);
      FilterExt(step1, (p: RosterPlayer) => p.grade == grade, byGrade);
    } else {
      FilterAll(step1, byGrade);
    }
    assert filtered == Filter(step1, byGrade);
    FilterFilter(all, byName, byGrade, both);
    ghost var step2 := filtered;

    if date.Some? {
      var d := date.value;
      filtered := Filter(filtered, (p: RosterPlayer) => CreatedOn(day, p, d));
      FilterExt(step2, (p: RosterPlayer) => CreatedOn(day, p, d), byDate);
    } else {
      FilterAll(step2, byDate);
    }
    assert filtered == Filter(step2, byDate);
    FilterFilter(all, both, byDate, p => PassesAll(day, name, grade, date, p));
  }

  /** The fetch's update of one player: `maxSpeed` and `recentSpeed` are set
      when some speed was kept. */
  method SummariseSpeeds(p: RosterPlayer, records: seq<DataHelpers.RawRecord>, parse: DataHelpers.FloatParser)
    returns (q: RosterPlayer)
    ensures q == Fetched(p, records, parse)
  {
    q := p;
    var speeds := ExtractSpeeds(records, parse);
    if |speeds| > 0 {
      q := q.(maxSpeed := Some(PitchStats.Max(speeds)));
      q := q.(recentSpeed := Some(speeds[|speeds| - 1]));
    }
  }

  /** The fetched roster: each player with their speed summary, in order. */
  method FetchAll(fetched: seq<(RosterPlayer, seq<DataHelpers.RawRecord>)>, parse: DataHelpers.FloatParser)
    returns (list: seq<RosterPlayer>)
    ensures |list| == |fetched|
    ensures forall i :: 0 <= i < |fetched| ==> list[i] == Fetched(fetched[i].0, fetched[i].1, parse)
  {
    list := [];
    var i := 0;
    while i < |fetched|
      invariant 0 <= i <= |fetched|
      invariant |list| == i
      invariant forall k :: 0 <= k < i ==> list[k] == Fetched(fetched[k].0, fetched[k].1, parse)
    {
      var p := SummariseSpeeds(fetched[i].0, fetched[i].1, parse);
      list := list + [p];
      i := i + 1;
    }
  }

  // ---------------------------------------------------------------------
  // The page state

  class HomePage {
    const stampDay: StampDay
    var selectedDate: Option<int>
    var players: seq<RosterPlayer>
    var filteredPlayers: seq<RosterPlayer>
    var names: seq<string>
    var grades: seq<string>
    var searchName: string
    var nameSuggestions: seq<string>
    var searchGrade: string

    /** The name and grade lists are those of the roster, and the shown
        players are drawn from the roster in its order. */
    ghost predicate Valid()
      reads this
    {
      && names == UniqueNames(players)
      && grades == UniqueGrades(players)
      && IsSubsequence(filteredPlayers, players)
    }

    constructor (stampDay: StampDay)
      ensures Valid()
      ensures this.stampDay == stampDay && selectedDate.None?
      ensures players == [] && filteredPlayers == [] && names == [] && grades == []
      ensures searchName == "" && nameSuggestions == [] && searchGrade == ""
    {
      this.stampDay := stampDay;
      selectedDate := None;
      players := [];
      filteredPlayers := [];
      names := [];
      grades := [];
      searchName := "";
      nameSuggestions := [];
      searchGrade := "";
    }

    /** The fetch: every player with their speed summary; all of them shown. */
    method Load(fetched: seq<(RosterPlayer, seq<DataHelpers.RawRecord>)>, parse: DataHelpers.FloatParser)
      modifies this`players, this`filteredPlayers, this`names, this`grades
      ensures Valid()
      ensures |players| == |fetched|
      ensures forall i :: 0 <= i < |fetched| ==> players[i] == Fetched(fetched[i].0, fetched[i].1, parse)
      ensures filteredPlayers == players
      ensures names == UniqueNames(players) && grades == UniqueGrades(players)
    {
      var list := FetchAll(fetched, parse);
      SubsequenceReflexive(list);
      players := list;
      filteredPlayers := list;
      names := UniqueNames(list);
      grades := UniqueGrades(list);
    }

    /** `handleFilter`: the shown players become the roster narrowed by the current criteria. */
    method HandleFilter()
      requires Valid()
      modifies this`filteredPlayers
      ensures Valid()
      ensures filteredPlayers == FilterPlayers(players, stampDay, searchName, searchGrade, selectedDate)
    {
      var all, day, name, grade, date := players, stampDay, searchName, searchGrade, selectedDate;
      var filtered := NarrowPlayers(all, day, name, grade, date);
      FilterIsSubsequence(all, p => PassesAll(day, name, grade, date, p));
      filteredPlayers := filtered;
    }

    /** `handleNameInputChange`: the search text becomes the input and the suggestions follow it. */
    method HandleNameInputChange(input: string)
      requires Valid()
      modifies this`searchName, this`nameSuggestions
      ensures Valid()
      ensures searchName == input && nameSuggestions == Suggestions(names, input)
    {
      searchName := input;
      if input != "" {
        nameSuggestions := Filter(names, n => NameMatches(n, input));
      } else {
        nameSuggestions := [];
      }
    }

    /** `handleNameSelect`: the chosen name becomes the search text and the suggestions close. */
    method HandleNameSelect(name: string)
      requires Valid()
      modifies this`searchName, this`nameSuggestions
      ensures Valid()
      ensures searchName == name && nameSuggestions == []
    {
      searchName := name;
      nameSuggestions := [];
    }

    /** The grade select. */
    method SetSearchGrade(grade: string)
      requires Valid()
      modifies this`searchGrade
      ensures Valid() && searchGrade == grade
    {
      searchGrade := grade;
    }

    /** The date picker. */
    method SetSelectedDate(day: Option<int>)
      requires Valid()
      modifies this`selectedDate
      ensures Valid() && selectedDate == day
    {
      selectedDate := day;
    }
  }
}
