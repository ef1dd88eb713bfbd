/** The filter panel of the analysis page
    (src/app/analysis/components/FilterSection.tsx): the player dropdown,
    what a click on a player does, and the label of the dropdown button. */
module FilterSection {
  import opened Options
  import opened Seqs
  import opened Text
  import opened Records
  import opened Analysis

  const SelectPlayerKey := "analysis.selectPlayer"
  const SelectPlayersKey := "analysis.selectPlayers"
  const NameSeparator := ", "

  /** What a click on a player's checkbox asks of the page. */
  datatype ClickOutcome =
    | SelectOne(id: string)          // `onPlayerSelect(id)`
    | SelectMany(ids: seq<string>)   // `onPlayersSelect(ids)`
    | Ignored                        // no handler is called

  /** `handlePlayerCheckboxChange`, as the call it makes. */
  function CheckboxOutcome(tab: Tab, selectedPlayers: seq<string>, playerId: string): ClickOutcome {
    if tab == Individual then SelectOne(playerId)
    else if playerId in selectedPlayers then SelectMany(Filter(selectedPlayers, (id: string) => id != playerId))
    else if |selectedPlayers| < MaxSelected then SelectMany(selectedPlayers + [playerId])
    else Ignored
  }

  /** The checkbox (or radio button) of the player is checked. */
  predicate IsSelected(tab: Tab, selectedPlayer: Option<string>, selectedPlayers: seq<string>, playerId: string) {
    if tab == Individual then selectedPlayer == Some(playerId) else playerId in selectedPlayers
  }

  /** The checkbox of the player is greyed out. */
  predicate IsDisabled(tab: Tab, selectedPlayers: seq<string>, playerId: string) {
    tab != Individual && playerId !in selectedPlayers && |selectedPlayers| >= MaxSelected
  }

  // ---------------------------------------------------------------------
  // What a click does

  /** In individual mode the click selects exactly that player. */
  lemma IndividualClickSelects(selectedPlayers: seq<string>, playerId: string)
    ensures CheckboxOutcome(Individual, selectedPlayers, playerId) == SelectOne(playerId)
    ensures !IsDisabled(Individual, selectedPlayers, playerId)
  {
  }

  /** Clicking a selected player removes every occurrence of it and keeps
      the others in their order. */
  lemma DeselectRemovesAll(tab: Tab, selectedPlayers: seq<string>, playerId: string)
    requires tab != Individual && playerId in selectedPlayers
    ensures CheckboxOutcome(tab, selectedPlayers, playerId).SelectMany?
    ensures playerId !in CheckboxOutcome(tab, selectedPlayers, playerId).ids
    ensures IsSubsequence(CheckboxOutcome(tab, selectedPlayers, playerId).ids, selectedPlayers)
    ensures |CheckboxOutcome(tab, selectedPlayers, playerId).ids| < |selectedPlayers|
    ensures forall x :: x in CheckboxOutcome(tab, selectedPlayers, playerId).ids <==> x in selectedPlayers && x != playerId
  {
    var p := (id: string) => id != playerId;
    var ids := Filter(selectedPlayers, p);
    assert CheckboxOutcome(tab, selectedPlayers, playerId) == SelectMany(ids);
    FilterIsSubsequence(selectedPlayers, p);
    forall x ensures x in ids <==> x in selectedPlayers && x != playerId {
      FilterMembership(selectedPlayers, p, x);
    }
    FilterShrinks(selectedPlayers, p, playerId);
  }

  /** Clicking an unselected player appends it when fewer than five are
      selected and does nothing otherwise; a player is disabled exactly when
      the click would do nothing. */
  lemma DisabledIffIgnored(tab: Tab, selectedPlayers: seq<string>, playerId: string)
    ensures IsDisabled(tab, selectedPlayers, playerId) <==> CheckboxOutcome(tab, selectedPlayers, playerId) == Ignored
    ensures tab != Individual && playerId !in selectedPlayers && |selectedPlayers| < MaxSelected ==>
              CheckboxOutcome(tab, selectedPlayers, playerId) == SelectMany(selectedPlayers + [playerId])
    ensures IsDisabled(tab, selectedPlayers, playerId) ==> !IsSelected(tab, None, selectedPlayers, playerId)
  {
  }

  /** The multi-selection stays within five ids without duplicates, whatever is clicked. */
  lemma ClickKeepsSelectionValid(tab: Tab, selectedPlayers: seq<string>, playerId: string)
    requires |selectedPlayers| <= MaxSelected && NoDuplicates(selectedPlayers)
    ensures var o := CheckboxOutcome(tab, selectedPlayers, playerId);
            o.SelectMany? ==> |o.ids| <= MaxSelected && NoDuplicates(o.ids)
  {
    if tab != Individual {
      if playerId in selectedPlayers {
        FilterNoDuplicates(selectedPlayers, (id: string) => id != playerId);
      } else if |selectedPlayers| < MaxSelected {
        AppendBackNoDuplicates(selectedPlayers, playerId);
      }
    }
  }

  /** Any multi-selection a click produces has at most five ids, so the
      page's cut to five keeps it whole. */
  lemma ClickWithinLimit(tab: Tab, selectedPlayers: seq<string>, playerId: string)
    requires |selectedPlayers| <= MaxSelected
    ensures var o := CheckboxOutcome(tab, selectedPlayers, playerId);
            o.SelectMany? ==> |o.ids| <= MaxSelected
  {
  }

  /** Checking an unselected player and then unchecking it restores the selection. */
  lemma {:induction false} ToggleRoundTrip(tab: Tab, selectedPlayers: seq<string>, playerId: string)
    requires tab != Individual && playerId !in selectedPlayers && |selectedPlayers| < MaxSelected
    ensures var o := CheckboxOutcome(tab, selectedPlayers, playerId);
            o == SelectMany(selectedPlayers + [playerId])
            && CheckboxOutcome(tab, o.ids, playerId) == SelectMany(selectedPlayers)
  {
    var p := (id: string) => id != playerId;
    FilterConcat(selectedPlayers, [playerId], p);
    FilterAll(selectedPlayers, p);
    assert Filter([playerId], p) == [];
  }

  // ---------------------------------------------------------------------
  // The dropdown label

  /** The names of the selected players found in the roster, in selection
      order; unknown ids and empty names are dropped (`.filter(Boolean)`). */
  function NamesOf(selectedPlayers: seq<string>, players: seq<Player>): (r: seq<string>)
    ensures |r| <= |selectedPlayers|
    ensures forall i :: 0 <= i < |r| ==> r[i] != ""
  {
    if selectedPlayers == [] then [] else NameOf(selectedPlayers[0], players) + NamesOf(selectedPlayers[1..], players)
  }

  /** The name one id contributes: the found player's name, or nothing for
      an unknown id or an empty name. */
  function NameOf(id: string, players: seq<Player>): (r: seq<string>)
    ensures |r| <= 1 && forall i :: 0 <= i < |r| ==> r[i] != ""
  {
    var p := FindPlayer(players, id);
    if p.Some? && p.value.name != "" then [p.value.name] else []
  }

  /** Names are collected id by id: the names of a concatenation are the
      concatenation of the names. */
  lemma {:induction false} NamesOfConcat(a: seq<string>, b: seq<string>, players: seq<Player>)
    ensures NamesOf(a + b, players) == NamesOf(a, players) + NamesOf(b, players)
  {
    if a == [] {
      assert a + b == b;
    } else {
      var ab, tail := a + b, a[1..];
      assert ab[0] == a[0] && ab[1..] == tail + b;
      NamesOfConcat(tail, b, players);
    }
  }

  /** When every selected id names a known player with a name, there is one
      name per id, in order. */
  lemma {:induction false} NamesOfAllKnown(selectedPlayers: seq<string>, players: seq<Player>)
    requires forall i :: 0 <= i < |selectedPlayers| ==>
               FindPlayer(players, selectedPlayers[i]).Some? && FindPlayer(players, selectedPlayers[i]).value.name != ""
    ensures |NamesOf(selectedPlayers, players)| == |selectedPlayers|
    ensures forall i :: 0 <= i < |selectedPlayers| ==>
              NamesOf(selectedPlayers, players)[i] == FindPlayer(players, selectedPlayers[i]).value.name
  {
    if selectedPlayers != [] {
      NamesOfAllKnown(selectedPlayers[1..], players);
    }
  }

  /** An id missing from the roster contributes no name. */
  lemma UnknownIdNoName(id: string, players: seq<Player>)
    requires forall i :: 0 <= i < |players| ==> players[i].id != id
    ensures NamesOf([id], players) == []
  {
  }

  /** `getSelectedPlayerNames`. */
  function SelectedPlayerNames(tab: Tab, selectedPlayer: Option<string>, selectedPlayers: seq<string>,
                               players: seq<Player>): (r: DisplayText)
    ensures tab == Individual ==>
              (r.Literal? <==> Truthy(selectedPlayer) && FindPlayer(players, selectedPlayer.value).Some?
                               && FindPlayer(players, selectedPlayer.value).value.name != "")
    ensures tab == Individual && r.Literal? ==> r.text == FindPlayer(players, selectedPlayer.value).value.name
    ensures tab == Individual && r.Translated? ==> r.key == SelectPlayerKey
    ensures tab != Individual ==> (r.Translated? <==> selectedPlayers == [])
    ensures tab != Individual && r.Translated? ==> r.key == SelectPlayersKey
    ensures tab != Individual && r.Literal? ==> r.text == Join(NamesOf(selectedPlayers, players), NameSeparator)
  {
    if tab == Individual then
      if !Truthy(selectedPlayer) then Translated(SelectPlayerKey)
      else
        var p := FindPlayer(players, selectedPlayer.value);
        if p.Some? && p.value.name != "" then Literal(p.value.name) else Translated(SelectPlayerKey)
    else if |selectedPlayers| == 0 then Translated(SelectPlayersKey)
    else Literal(Join(NamesOf(selectedPlayers, players), NameSeparator))
  }

  // ---------------------------------------------------------------------
  // The component state

  /** The dropdown: its own open flag, and the page whose handlers it calls. */
  class Dropdown {
    var isDropdownOpen: bool
    const page: AnalysisPage

    constructor (page: AnalysisPage)
      ensures this.page == page && !isDropdownOpen
    {
      this.page := page;
      isDropdownOpen := false;
    }

    /** The button toggles the menu. */
    method ToggleDropdown()
      modifies this
      ensures isDropdownOpen == !old(isDropdownOpen)
    {
      isDropdownOpen := !isDropdownOpen;
    }

    /** `handlePlayerCheckboxChange`: forwards the click's outcome to the
        page; in individual mode it also closes the menu. */
    method HandlePlayerCheckboxChange(playerId: string)
      requires page.Valid()
      modifies this, page
      ensures page.Valid()
      ensures var o := CheckboxOutcome(old(page.currentTab), old(page.selectedPlayers), playerId);
              match o
              case SelectOne(id) =>
                page.selectedPlayer == Some(id) && page.selectedPlayers == [] && !isDropdownOpen
              case SelectMany(ids) =>
                page.selectedPlayers == ids && page.selectedPlayer.None? && isDropdownOpen == old(isDropdownOpen)
              case Ignored =>
                page.selectedPlayers == old(page.selectedPlayers) && page.selectedPlayer == old(page.selectedPlayer)
                && isDropdownOpen == old(isDropdownOpen)
      ensures page.currentTab == old(page.currentTab) && page.allPlayerData == old(page.allPlayerData)
      ensures page.startDate == old(page.startDate) && page.endDate == old(page.endDate)
      ensures page.showAllPeriod == old(page.showAllPeriod) && page.players == old(page.players)
    {
      var o := CheckboxOutcome(page.currentTab, page.selectedPlayers, playerId);
      ClickWithinLimit(page.currentTab, page.selectedPlayers, playerId);
      match o {
        case SelectOne(id) =>
          page.HandlePlayerSelect(id);
          isDropdownOpen := false;
        case SelectMany(ids) =>
          page.HandlePlayersSelect(ids);
        case Ignored =>
      }
    }

    /** The clear button empties the multi-selection. */
    method Clear()
      requires page.Valid()
      modifies page
      ensures page.Valid()
      ensures page.selectedPlayers == [] && page.selectedPlayer.None?
      ensures page.currentTab == old(page.currentTab) && page.allPlayerData == old(page.allPlayerData)
      ensures page.startDate == old(page.startDate) && page.endDate == old(page.endDate)
      ensures page.showAllPeriod == old(page.showAllPeriod) && page.players == old(page.players)
    {
      page.HandlePlayersSelect([]);
    }
  }
}
