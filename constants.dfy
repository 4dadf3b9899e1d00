/** The default room template and the player palette. */
module Constants {
  import opened Types

  datatype Theme = Light | Dark

  /** One palette entry, reduced to its hue and the theme it was built for. */
  datatype PlayerColor = PlayerColor(hue: string, theme: Theme)

  const Hues: seq<string> := ["blue", "red", "emerald", "amber", "fuchsia", "indigo", "orange", "teal"]

  /** The palette; `colorIdx` of a new den player is taken modulo its length. */
  function PlayerColors(theme: Theme): (r: seq<PlayerColor>)
    ensures |r| == 8
    ensures forall i :: 0 <= i < |r| ==> r[i].theme == theme
    ensures forall i, j :: 0 <= i < j < |r| ==> r[i].hue != r[j].hue
  {
    seq(|Hues|, i requires 0 <= i < |Hues| => PlayerColor(Hues[i], theme))
  }

  const DefaultShotClock := ShotClock(30, 30, false, map[])

  /** The template a fresh room starts from and a reset installs. */
  function DefaultGameData(): (d: GameData)
    ensures d.gameMode == OneVsOne && d.raceTo == 7 && d.unitPrice == 10000
    ensures d.tableBill == 0 && d.splitMode == SeventyThirty && d.history == []
    ensures |d.players1vs1| == 2
    ensures d.players1vs1[0].id == 1 && d.players1vs1[1].id == 2
    ensures forall p :: p in d.players1vs1 ==> p.score == 0 && p.personal == 0
    ensures |d.playersDen| == 3
    ensures forall i :: 0 <= i < |d.playersDen| ==> d.playersDen[i].id == i + 1 && d.playersDen[i].score == 0
    ensures d.shotClock.seconds == d.shotClock.initialSeconds == 30 && !d.shotClock.isRunning
    ensures d.breakPlayerId == None
  {
    GameData(
      OneVsOne, 7, 10000, 0, SeventyThirty, [],
      [Player(1, "PLAYER 01", 0, 0, 0), Player(2, "PLAYER 02", 0, 0, 1)],
      [Player(1, "PLAYER A", 0, 0, 0), Player(2, "PLAYER B", 0, 0, 1), Player(3, "PLAYER C", 0, 0, 2)],
      DefaultShotClock,
      None)
  }
}
