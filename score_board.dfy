/**
 * The scoreboard's derived indicators (hill-hill, leading score, balance,
 * fever) and the edits it hands straight to `handleUpdate`.
 */
module ScoreBoard {
  import opened Types
  import opened Scoring
  import Transitions
  import GameLogic

  /** The leading 1vs1 score, 0 when there are no players. */
  function LeadingScore(ps: seq<Player>): (m: int)
    ensures ps == [] ==> m == 0
    ensures ps != [] ==> (forall i :: 0 <= i < |ps| ==> ps[i].score <= m) && exists i :: 0 <= i < |ps| && ps[i].score == m
  {
    if |ps| > 0 then MaxScore(ps) else 0
  }

  /** Hill-hill: exactly two players, both one rack from a target above 1. */
  predicate IsHillHill(d: GameData) {
    |d.players1vs1| == 2 && d.raceTo > 1 &&
    d.players1vs1[0].score == d.raceTo - 1 && d.players1vs1[1].score == d.raceTo - 1
  }

  /**
   * Hill-hill is match point for both: nobody has won yet, and the next
   * point for either player makes that player the winner.
   */
  lemma HillHillIsMatchPoint(d: GameData, k: int, now: int, clock: string)
    requires d.gameMode == OneVsOne && IsHillHill(d) && d.players1vs1[0].id != d.players1vs1[1].id && 0 <= k < 2
    ensures GameLogic.DerivedWinner(d) == None
    ensures var r := Transitions.ScoredData(d, OneVsOne, d.players1vs1[k].id, 1, true, now, clock);
      GameLogic.WinnerReadable(r) && GameLogic.DerivedWinner(r) == Some(d.players1vs1[k].name)
  {
    GameLogic.ScoreDecidesWinner(d, k, 1, now, clock);
  }

  /** The race-to minus button: one less, never below 1. */
  function RaceToDown(d: GameData): (r: GameData)
    ensures r.raceTo >= 1
    ensures d.raceTo > 1 ==> r.raceTo == d.raceTo - 1
    ensures d.raceTo <= 1 ==> r.raceTo == 1
    ensures r.(raceTo := d.raceTo) == d
  {
    d.(raceTo := Max(1, d.raceTo - 1))
  }

  /** The race-to plus button. */
  function RaceToUp(d: GameData): (r: GameData)
    ensures r.raceTo == d.raceTo + 1
    ensures r.(raceTo := d.raceTo) == d
  {
    d.(raceTo := d.raceTo + 1)
  }

  /** From any positive target, plus then minus gives the same data back; so does minus then plus above 1. */
  lemma RaceToEditsInverse(d: GameData)
    requires d.raceTo >= 1
    ensures RaceToDown(RaceToUp(d)) == d
    ensures d.raceTo > 1 ==> RaceToUp(RaceToDown(d)) == d
  {
  }

  /** The mode buttons. */
  function SwitchMode(d: GameData, mode: GameMode): (r: GameData)
    ensures r.gameMode == mode
    ensures r.(gameMode := d.gameMode) == d
  {
    d.(gameMode := mode)
  }

  /** Switching away and back leaves the data as it was: both player lists survive a switch. */
  lemma SwitchModeRoundTrip(d: GameData, mode: GameMode)
    ensures SwitchMode(SwitchMode(d, mode), d.gameMode) == d
  {
  }

  /** The den indicator: BALANCED, or the table total. */
  datatype Indicator = Balanced | Diff(total: int)

  function BalanceIndicator(den: seq<Player>): (r: Indicator)
    ensures r == Balanced <==> Sum(den) == 0
    ensures r.Diff? ==> r.total == Sum(den) && r.total != 0
  {
    if Sum(den) == 0 then Balanced else Diff(Sum(den))
  }

  /** Auto-balancing a present player (ids unique) turns the indicator to BALANCED. */
  lemma AutoBalanceShowsBalanced(d: GameData, k: int, now: int, clock: string)
    requires UniqueIds(d.playersDen) && 0 <= k < |d.playersDen|
    ensures BalanceIndicator(Transitions.BalancedData(d, d.playersDen[k].id, now, clock).playersDen) == Balanced
  {
    UniqueIdCount(d.playersDen, k);
  }

  /** A player is on fever while holding a streak of three or more. */
  predicate IsFever(streak: Streak, id: int) {
    streak.playerId == Some(id) && streak.count >= 3
  }

  /** Three points in a row by the same player put that player on fever, whatever came before. */
  lemma ThreeInARowIsFever(s: Streak, id: int)
    requires s.count >= 0
    ensures IsFever(NextStreak(NextStreak(NextStreak(s, id, 1), id, 1), id, 1), id)
  {
  }

  /** A correction by the streak holder ends the fever. */
  lemma CorrectionEndsFever(s: Streak, id: int, delta: int)
    requires delta <= 0 && IsFever(s, id)
    ensures !IsFever(NextStreak(s, id, delta), id)
  {
  }
}
