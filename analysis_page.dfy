/** The analysis page (src/app/analysis/page.tsx): which tab is shown, which
    player or players are selected, the date range, and the data the charts
    receive. React state becomes the fields of `AnalysisPage`; the filter
    effect, which React re-runs after every change of its dependencies,
    becomes `Refresh`, run at the end of every handler. */
module Analysis {
  import opened Options
  import opened Seqs
  import opened Records

  datatype Tab = Individual | Comparison | Whole

  /** The multi-selection holds at most this many ids. */
  const MaxSelected := 5

  /** `new Date(text)` as a day number, `None` for an invalid date. */
  type DayParser = string -> Option<int>

  /** A `string | null` that is truthy: present and non-empty. */
  predicate Truthy(s: Option<string>) {
    s.Some? && s.value != ""
  }

  // ---------------------------------------------------------------------
  // The filter, as one predicate over a record

  predicate DateFilterActive(showAllPeriod: bool, startDate: Option<int>, endDate: Option<int>) {
    !showAllPeriod && startDate.Some? && endDate.Some?
  }

  /** Both bounds inclusive; a record whose date does not parse compares
      false against both bounds, as an invalid `Date` does. */
  predicate WithinPeriod(dayOf: DayParser, start: int, end: int, d: PitchRecord) {
    dayOf(d.date).Some? && start <= dayOf(d.date).value <= end
  }

  predicate PassesPeriod(dayOf: DayParser, showAllPeriod: bool, startDate: Option<int>, endDate: Option<int>, d: PitchRecord) {
    DateFilterActive(showAllPeriod, startDate, endDate) ==> WithinPeriod(dayOf, startDate.value, endDate.value, d)
  }

  /** Which player filter the current tab and selections call for. */
  datatype PlayerFilter = OnlyPlayer(id: string) | AnyOf(ids: seq<string>) | AllPlayers

  function PlayerFilterOf(tab: Tab, selectedPlayer: Option<string>, selectedPlayers: seq<string>): PlayerFilter {
    if tab == Individual && Truthy(selectedPlayer) then OnlyPlayer(selectedPlayer.value)
    else if tab == Comparison && |selectedPlayers| > 0 then AnyOf(selectedPlayers)
    else AllPlayers
  }

  predicate PassesPlayer(f: PlayerFilter, d: PitchRecord) {
    match f
    case OnlyPlayer(id) => d.id == id
    case AnyOf(ids) => d.id in ids
    case AllPlayers => true
  }

  /** The data handed to the charts: the records that pass both filters, in their order. */
  function VisibleData(all: seq<PitchRecord>, dayOf: DayParser, showAllPeriod: bool,
                       startDate: Option<int>, endDate: Option<int>, tab: Tab,
                       selectedPlayer: Option<string>, selectedPlayers: seq<string>): seq<PitchRecord>
  {
    var f := PlayerFilterOf(tab, selectedPlayer, selectedPlayers);
    Filter(all, d => PassesPeriod(dayOf, showAllPeriod, startDate, endDate, d) && PassesPlayer(f, d))
  }

  // ---------------------------------------------------------------------
  // What the filter promises

  /** The result is an order-preserving subsequence of all data, and a record
      is in it exactly when it is in the data and passes both filters. */
  lemma VisibleIsSubsequence(all: seq<PitchRecord>, dayOf: DayParser, showAllPeriod: bool,
                             startDate: Option<int>, endDate: Option<int>, tab: Tab,
                             selectedPlayer: Option<string>, selectedPlayers: seq<string>, d: PitchRecord)
    ensures IsSubsequence(VisibleData(all, dayOf, showAllPeriod, startDate, endDate, tab, selectedPlayer, selectedPlayers), all)
    ensures d in VisibleData(all, dayOf, showAllPeriod, startDate, endDate, tab, selectedPlayer, selectedPlayers)
        <==> d in all && PassesPeriod(dayOf, showAllPeriod, startDate, endDate, d)
                      && PassesPlayer(PlayerFilterOf(tab, selectedPlayer, selectedPlayers), d)
  {
    var f := PlayerFilterOf(tab, selectedPlayer, selectedPlayers);
    var p := (d: PitchRecord) => PassesPeriod(dayOf, showAllPeriod, startDate, endDate, d) && PassesPlayer(f, d);
    FilterIsSubsequence(all, p);
    FilterMembership(all, p, d);
  }

  /** The date range takes effect only when "all period" is off and both
      dates are set; then it keeps exactly the records dated within both
      bounds. */
  lemma DateRule(all: seq<PitchRecord>, dayOf: DayParser, showAllPeriod: bool,
                 startDate: Option<int>, endDate: Option<int>, d: PitchRecord)
    ensures !DateFilterActive(showAllPeriod, startDate, endDate) ==>
              VisibleData(all, dayOf, showAllPeriod, startDate, endDate, Whole, None, []) == all
    ensures DateFilterActive(showAllPeriod, startDate, endDate) ==>
              (d in VisibleData(all, dayOf, showAllPeriod, startDate, endDate, Whole, None, []) <==>
               d in all && dayOf(d.date).Some? && startDate.value <= dayOf(d.date).value <= endDate.value)
  {
    var p := (d: PitchRecord) => PassesPeriod(dayOf, showAllPeriod, startDate, endDate, d) && PassesPlayer(AllPlayers, d);
    if !DateFilterActive(showAllPeriod, startDate, endDate) {
      FilterAll(all, p);
    }
    FilterMembership(all, p, d);
  }

  /** Individual tab with a selected player: only that player's records, all
      of them within the period. */
  lemma IndividualRule(all: seq<PitchRecord>, dayOf: DayParser, showAllPeriod: bool,
                       startDate: Option<int>, endDate: Option<int>,
                       selectedPlayer: Option<string>, selectedPlayers: seq<string>, d: PitchRecord)
    requires Truthy(selectedPlayer)
    ensures d in VisibleData(all, dayOf, showAllPeriod, startDate, endDate, Individual, selectedPlayer, selectedPlayers)
        <==> d in all && d.id == selectedPlayer.value && PassesPeriod(dayOf, showAllPeriod, startDate, endDate, d)
  {
    VisibleIsSubsequence(all, dayOf, showAllPeriod, startDate, endDate, Individual, selectedPlayer, selectedPlayers, d);
  }

  /** Comparison tab with a non-empty list: the records of listed players. */
  lemma ComparisonRule(all: seq<PitchRecord>, dayOf: DayParser, showAllPeriod: bool,
                       startDate: Option<int>, endDate: Option<int>,
                       selectedPlayer: Option<string>, selectedPlayers: seq<string>, d: PitchRecord)
    requires |selectedPlayers| > 0
    ensures d in VisibleData(all, dayOf, showAllPeriod, startDate, endDate, Comparison, selectedPlayer, selectedPlayers)
        <==> d in all && d.id in selectedPlayers && PassesPeriod(dayOf, showAllPeriod, startDate, endDate, d)
  {
    VisibleIsSubsequence(all, dayOf, showAllPeriod, startDate, endDate, Comparison, selectedPlayer, selectedPlayers, d);
  }

  /** Any other situation, the whole tab included, filters by period only:
      the result does not depend on the selections. */
  lemma NoPlayerRule(all: seq<PitchRecord>, dayOf: DayParser, showAllPeriod: bool,
                     startDate: Option<int>, endDate: Option<int>, tab: Tab,
                     selectedPlayer: Option<string>, selectedPlayers: seq<string>)
    requires !(tab == Individual && Truthy(selectedPlayer))
    requires !(tab == Comparison && |selectedPlayers| > 0)
    ensures VisibleData(all, dayOf, showAllPeriod, startDate, endDate, tab, selectedPlayer, selectedPlayers)
         == VisibleData(all, dayOf, showAllPeriod, startDate, endDate, Whole, None, [])
  {
    FilterExt(all,
              d => PassesPeriod(dayOf, showAllPeriod, startDate, endDate, d)
                   && PassesPlayer(PlayerFilterOf(tab, selectedPlayer, selectedPlayers), d),
              d => PassesPeriod(dayOf, showAllPeriod, startDate, endDate, d) && PassesPlayer(AllPlayers, d));
  }

  // ---------------------------------------------------------------------
  // The page state

  /** The date step of the filter effect: only records inside the chosen
      period remain, unless the filter is off. */
  method FilterByPeriod(all: seq<PitchRecord>, parse: DayParser, showAll: bool, start: Option<int>, end: Option<int>)
    returns (dated: seq<PitchRecord>)
    ensures dated == Filter(all, (d: PitchRecord) => PassesPeriod(parse, showAll, start, end, d))
  {
    ghost var inPeriod := (d: PitchRecord) => PassesPeriod(parse, showAll, start, end, d);
    dated := all;
    if !showAll && start.Some? && end.Some? {
      var s, e := start.value, end.value;
      dated := Filter(all, d => WithinPeriod(parse, s, e, d));
      FilterExt(all, d => WithinPeriod(parse, s, e, d), inPeriod);
    } else {
      FilterAll(all, inPeriod);
    }
  }

  /** The player step of the filter effect: the single player on the
      individual tab, the selection on the comparison tab, else everyone. */
  method FilterByPlayer(dated: seq<PitchRecord>, tab: Tab, selectedPlayer: Option<string>, selectedPlayers: seq<string>)
    returns (filtered: seq<PitchRecord>)
    ensures var f := PlayerFilterOf(tab, selectedPlayer, selectedPlayers);
            filtered == Filter(dated, (d: PitchRecord) => PassesPlayer(f, d))
  {
    var f := PlayerFilterOf(tab, selectedPlayer, selectedPlayers);
    ghost var ofPlayer := (d: PitchRecord) => PassesPlayer(f, d);
    if tab == Individual && Truthy(selectedPlayer) {
      var id := selectedPlayer.value;
      filtered := Filter(dated, (d: PitchRecord) => d.id == id);
      FilterExt(dated, (d: PitchRecord) => d.id == id, ofPlayer);
    } else if tab == Comparison && |selectedPlayers| > 0 {
      var ids := selectedPlayers;
      filtered := Filter(dated, (d: PitchRecord) => d.id in ids);
      FilterExt(dated, (d: PitchRecord) => d.id in ids, ofPlayer);
    } else {
      filtered := dated;
      FilterAll(dated, ofPlayer);
    }
  }

    class AnalysisPage {
    const dayOf: DayParser
    var startDate: Option<int>
    var endDate: Option<int>
    var showAllPeriod: bool
    var players: seq<Player>
    var selectedPlayer: Option<string>
    var selectedPlayers: seq<string>
    var allPlayerData: seq<PitchRecord>
    var filteredPlayerData: seq<PitchRecord>
    var currentTab: Tab

    /** At most five players in the multi-selection, never both selection
        kinds at once, and the charts see the filter of the current state. */
    ghost predicate Valid()
      reads this
    {
      && |selectedPlayers| <= MaxSelected
      && (selectedPlayer.Some? ==> selectedPlayers == [])
      && filteredPlayerData == VisibleData(allPlayerData, dayOf, showAllPeriod, startDate, endDate,
                                           currentTab, selectedPlayer, selectedPlayers)
    }

    /** The initial state: whole tab, all periods, no dates, nothing loaded or selected. */
    constructor (dayOf: DayParser)
      ensures Valid()
      ensures this.dayOf == dayOf
      ensures startDate.None? && endDate.None? && showAllPeriod
      ensures players == [] && selectedPlayer.None? && selectedPlayers == []
      ensures allPlayerData == [] && filteredPlayerData == [] && currentTab == Whole
    {
      this.dayOf := dayOf;
      startDate := None;
      endDate := None;
      showAllPeriod := true;
      players := [];
      selectedPlayer := None;
      selectedPlayers := [];
      allPlayerData := [];
      filteredPlayerData := [];
      currentTab := Whole;
    }

    /** The filter effect: narrows the data step by step, first by date,
        then by player; the outcome is `VisibleData`. */
    method Refresh()
      modifies this`filteredPlayerData
      ensures filteredPlayerData == VisibleData(allPlayerData, dayOf, showAllPeriod, startDate, endDate,
                                                currentTab, selectedPlayer, selectedPlayers)
    {
      var all, parse, showAll, start, end := allPlayerData, dayOf, showAllPeriod, startDate, endDate;
      var f := PlayerFilterOf(currentTab, selectedPlayer, selectedPlayers);
      var dated := FilterByPeriod(all, parse, showAll, start, end);
      var filtered := FilterByPlayer(dated, currentTab, selectedPlayer, selectedPlayers);
      FilterFilter(all, (d: PitchRecord) => PassesPeriod(parse, showAll, start, end, d), (d: PitchRecord) => PassesPlayer(f, d),
                   d => PassesPeriod(parse, showAll, start, end, d) && PassesPlayer(f, d));
      filteredPlayerData := filtered;
    }

    /** `handlePlayerSelect`: the single selection becomes the id, the multi-selection empties. */
    method HandlePlayerSelect(playerId: string)
      requires Valid()
      modifies this
      ensures Valid()
      ensures selectedPlayer == Some(playerId) && selectedPlayers == []
      ensures currentTab == old(currentTab) && allPlayerData == old(allPlayerData) && players == old(players)
      ensures startDate == old(startDate) && endDate == old(endDate) && showAllPeriod == old(showAllPeriod)
    {
      selectedPlayer := Some(playerId);
      selectedPlayers := [];
      Refresh();
    }

    /** `handlePlayersSelect`: keeps the first five ids, in order, and clears the single selection. */
    method HandlePlayersSelect(playerIds: seq<string>)
      requires Valid()
      modifies this
      ensures Valid()
      ensures selectedPlayers == if |playerIds| <= MaxSelected then playerIds else playerIds[..MaxSelected]
      ensures selectedPlayer.None?
      ensures currentTab == old(currentTab) && allPlayerData == old(allPlayerData) && players == old(players)
      ensures startDate == old(startDate) && endDate == old(endDate) && showAllPeriod == old(showAllPeriod)
    {
      selectedPlayers := if |playerIds| <= MaxSelected then playerIds else playerIds[..MaxSelected];
      selectedPlayer := None;
      Refresh();
    }

    /** `handleTabChange`: the individual tab drops the multi-selection,
        every other tab drops the single selection. */
    method HandleTabChange(tab: Tab)
      requires Valid()
      modifies this
      ensures Valid()
      ensures currentTab == tab
      ensures tab == Individual ==> selectedPlayers == [] && selectedPlayer == old(selectedPlayer)
      ensures tab != Individual ==> selectedPlayer.None? && selectedPlayers == old(selectedPlayers)
      ensures allPlayerData == old(allPlayerData) && players == old(players)
      ensures startDate == old(startDate) && endDate == old(endDate) && showAllPeriod == old(showAllPeriod)
    {
      currentTab := tab;
      if tab == Individual {
        selectedPlayers := [];
      } else {
        selectedPlayer := None;
      }
      Refresh();
    }

    /** The start-date picker (`setStartDate`). */
    method SetStartDate(date: Option<int>)
      requires Valid()
      modifies this
      ensures Valid()
      ensures startDate == date && endDate == old(endDate) && showAllPeriod == old(showAllPeriod)
      ensures currentTab == old(currentTab) && selectedPlayer == old(selectedPlayer) && selectedPlayers == old(selectedPlayers)
      ensures allPlayerData == old(allPlayerData) && players == old(players)
    {
      startDate := date;
      Refresh();
    }

    /** The end-date picker (`setEndDate`). */
    method SetEndDate(date: Option<int>)
      requires Valid()
      modifies this
      ensures Valid()
      ensures endDate == date && startDate == old(startDate) && showAllPeriod == old(showAllPeriod)
      ensures currentTab == old(currentTab) && selectedPlayer == old(selectedPlayer) && selectedPlayers == old(selectedPlayers)
      ensures allPlayerData == old(allPlayerData) && players == old(players)
    {
      endDate := date;
      Refresh();
    }

    /** The "all period" checkbox (`setShowAllPeriod`). */
    method SetShowAllPeriod(show: bool)
      requires Valid()
      modifies this
      ensures Valid()
      ensures showAllPeriod == show && startDate == old(startDate) && endDate == old(endDate)
      ensures currentTab == old(currentTab) && selectedPlayer == old(selectedPlayer) && selectedPlayers == old(selectedPlayers)
      ensures allPlayerData == old(allPlayerData) && players == old(players)
    {
      showAllPeriod := show;
      Refresh();
    }

    /** What the two fetch effects store: the roster and all of its records. */
    method Load(roster: seq<Player>, data: seq<PitchRecord>)
      requires Valid()
      modifies this
      ensures Valid()
      ensures players == roster && allPlayerData == data
      ensures startDate == old(startDate) && endDate == old(endDate) && showAllPeriod == old(showAllPeriod)
      ensures currentTab == old(currentTab) && selectedPlayer == old(selectedPlayer) && selectedPlayers == old(selectedPlayers)
    {
      players := roster;
      allPlayerData := data;
      Refresh();
    }
  }
}
