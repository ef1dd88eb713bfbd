/** The record shapes of the analysis pages (src/app/analysis/types.ts). */
module Records {
  import opened Options

  /** One pitch, as `mapRawDataToPlayerData` produces it. `spinDirection` is
      `None` when the raw record has no usable value: the source passes the raw
      `undefined`/`null` straight through although the declared type is `string`. */
  datatype PitchRecord = PitchRecord(
    id: string,
    documentId: Option<string>,
    date: string,
    speed: real,
    spin: int,
    trueSpin: int,
    spinEff: real,
    spinDirection: Option<string>,
    verticalMovement: real,
    horizontalMovement: real,
    strike: int,
    releasePoint: real,
    absorption: string)

  /** A roster entry as the analysis pages see it. */
  datatype Player = Player(id: string, name: string)

  /** What a component shows as text: a translation key looked up by the
      language context (`t(key)`), or literal text. */
  datatype DisplayText = Translated(key: string) | Literal(text: string)

  /** `players.find(p => p.id === id)`: the first player with that id. */
  function FindPlayer(players: seq<Player>, id: string): (r: Option<Player>)
    ensures r.Some? ==> r.value in players && r.value.id == id
    ensures r.None? <==> forall i :: 0 <= i < |players| ==> players[i].id != id
    ensures r.Some? ==> exists k :: 0 <= k < |players| && players[k] == r.value
                                    && forall j :: 0 <= j < k ==> players[j].id != id
  {
    if players == [] then None
    else if players[0].id == id then Some(players[0])
    else
      var r := FindPlayer(players[1..], id);
      assert r.Some? ==> exists k :: 0 <= k < |players[1..]| && players[1..][k] == r.value
                                     && forall j :: 0 <= j < k ==> players[1..][j].id != id;
      if r.Some? then
        var k :| 0 <= k < |players[1..]| && players[1..][k] == r.value
                 && forall j :: 0 <= j < k ==> players[1..][j].id != id;
        assert players[k + 1] == r.value;
        assert forall j :: 0 <= j < k + 1 ==> players[j].id != id;
        r
      else r
  }

  /** `player?.name || fallback`: the found player's name unless it is missing or empty. */
  function NameOr(p: Option<Player>, fallback: string): (r: string)
    ensures p.Some? && p.value.name != "" ==> r == p.value.name
    ensures p.None? || p.value.name == "" ==> r == fallback
  {
    if p.Some? && p.value.name != "" then p.value.name else fallback
  }
}
