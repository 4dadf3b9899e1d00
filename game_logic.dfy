/**
 * The scoring hook: the host applies every action to the shared `GameData`
 * and hands the result to `handleUpdate`; a viewer forwards score changes to
 * the host as commands and does nothing else. The hook's own state is the
 * `winner` latch, derived from the data, and the scoring streak.
 */
module GameLogic {
  import opened Types
  import opened Scoring
  import opened Transitions
  import Constants

  /** The effect's precondition: the players the winner check reads exist. */
  predicate WinnerReadable(d: GameData) {
    d.gameMode == OneVsOne && d.raceTo > 0 ==>
      |d.players1vs1| >= 1 && (d.players1vs1[0].score < d.raceTo ==> |d.players1vs1| >= 2)
  }

  /**
   * The winner the restore effect derives from the data: in a 1vs1 race with
   * a positive target, the first of the two players who has reached it.
   */
  function DerivedWinner(d: GameData): (w: Option<string>)
    requires WinnerReadable(d)
    ensures w.Some? ==>
      d.gameMode == OneVsOne && d.raceTo > 0 &&
      exists i :: 0 <= i < 2 && i < |d.players1vs1| && d.players1vs1[i].name == w.value && d.players1vs1[i].score >= d.raceTo
    ensures w.None? ==>
      d.gameMode != OneVsOne || d.raceTo <= 0 ||
      forall i :: 0 <= i < 2 && i < |d.players1vs1| ==> d.players1vs1[i].score < d.raceTo
    ensures d.gameMode == OneVsOne && d.raceTo > 0 && d.players1vs1[0].score >= d.raceTo ==> w == Some(d.players1vs1[0].name)
  {
    if d.gameMode == OneVsOne && d.raceTo > 0 then
      if d.players1vs1[0].score >= d.raceTo then Some(d.players1vs1[0].name)
      else if d.players1vs1[1].score >= d.raceTo then Some(d.players1vs1[1].name)
      else None
    else None
  }

  /**
   * What one `updateScore` call does: a viewer sends a SCORE command; the host
   * refuses a positive change while a winner stands (a correction is still
   * allowed) and otherwise rescores, resetting the shot clock on a point.
   */
  function ScoreEffect(winner: Option<string>, isHost: bool, d: GameData, mode: GameMode, id: int, delta: int, now: int, clock: string): (e: Effect)
    ensures !isHost <==> e.Send?
    ensures e.Send? ==> e.command == ScoreCommand(mode, id, delta)
    ensures e.NoEffect? <==> isHost && Latched(winner) && delta > 0
    ensures e.Update? ==> e.data == ScoredData(d, mode, id, delta, delta > 0, now, clock)
  {
    if !isHost then Send(ScoreCommand(mode, id, delta))
    else if Latched(winner) && delta > 0 then NoEffect
    else Update(ScoredData(d, mode, id, delta, delta > 0, now, clock))
  }

  /** The streak after a `updateScore` call: only a call that gets past both guards moves it. */
  function StreakAfter(s: Streak, winner: Option<string>, isHost: bool, id: int, delta: int): (r: Streak)
    ensures isHost && !(Latched(winner) && delta > 0) ==> r == NextStreak(s, id, delta)
    ensures !isHost || (Latched(winner) && delta > 0) ==> r == s
  {
    if !isHost || (Latched(winner) && delta > 0) then s else NextStreak(s, id, delta)
  }

  /**
   * `toggleBreak`: in 1vs1 the break passes to the second player if the first
   * holds it, and otherwise (including no break recorded) to the first.
   */
  function ToggleBreak(d: GameData, isHost: bool): (e: Effect)
    requires isHost && d.gameMode == OneVsOne ==>
      |d.players1vs1| >= 1 && (d.breakPlayerId == Some(d.players1vs1[0].id) ==> |d.players1vs1| >= 2)
    ensures e.Update? <==> isHost && d.gameMode == OneVsOne
    ensures !e.Update? ==> e == NoEffect
    ensures e.Update? ==> e.data.(breakPlayerId := d.breakPlayerId) == d
    ensures e.Update? && d.breakPlayerId == Some(d.players1vs1[0].id) ==> e.data.breakPlayerId == Some(d.players1vs1[1].id)
    ensures e.Update? && d.breakPlayerId != Some(d.players1vs1[0].id) ==> e.data.breakPlayerId == Some(d.players1vs1[0].id)
  {
    if !isHost || d.gameMode != OneVsOne then NoEffect
    else
      var p1 := d.players1vs1[0];
      var next := if d.breakPlayerId == Some(p1.id) then d.players1vs1[1].id else p1.id;
      Update(d.(breakPlayerId := Some(next)))
  }

  /**
   * With two distinct ids the break alternates: one toggle lands on one of the
   * two players, and two toggles from there come back to the same player.
   */
  lemma ToggleBreakAlternates(d: GameData)
    requires d.gameMode == OneVsOne && |d.players1vs1| >= 2 && d.players1vs1[0].id != d.players1vs1[1].id
    ensures var once := ToggleBreak(d, true).data;
      once.breakPlayerId == Some(d.players1vs1[0].id) || once.breakPlayerId == Some(d.players1vs1[1].id)
    ensures d.breakPlayerId == Some(d.players1vs1[0].id) || d.breakPlayerId == Some(d.players1vs1[1].id) ==>
      ToggleBreak(d, true).data.breakPlayerId != d.breakPlayerId
    ensures var once := ToggleBreak(d, true).data;
      ToggleBreak(ToggleBreak(once, true).data, true).data.breakPlayerId == once.breakPlayerId
  {
  }

  /** `editName`: the host renames every player of the id in the mode's list. */
  function EditName(d: GameData, isHost: bool, mode: GameMode, id: int, name: string): (e: Effect)
    ensures e.Update? <==> isHost
    ensures !e.Update? ==> e == NoEffect
    ensures e.Update? ==> e.data == RenamedData(d, mode, id, name)
  {
    if !isHost then NoEffect else Update(RenamedData(d, mode, id, name))
  }

  /** `addPlayerDen`: the host adds a player while the table has fewer than five. */
  function AddPlayerDen(d: GameData, isHost: bool, theme: Constants.Theme, now: int, clock: string): (e: Effect)
    ensures e.Update? <==> isHost && |d.playersDen| < MaxDen
    ensures !e.Update? ==> e == NoEffect
    ensures e.Update? ==> e.data == WithDenPlayer(d, theme, now, clock)
  {
    if !isHost || |d.playersDen| >= MaxDen then NoEffect else Update(WithDenPlayer(d, theme, now, clock))
  }

  /** `removePlayerDen`: the host removes a player while the table has more than two. */
  function RemovePlayerDen(d: GameData, isHost: bool, id: int, now: int, clock: string): (e: Effect)
    ensures e.Update? <==> isHost && |d.playersDen| > MinDen
    ensures !e.Update? ==> e == NoEffect
    ensures e.Update? ==> e.data == WithoutDenPlayer(d, id, now, clock)
  {
    if !isHost || |d.playersDen| <= MinDen then NoEffect else Update(WithoutDenPlayer(d, id, now, clock))
  }

  /** A filter keeps ids unique. */
  lemma {:induction false} WithoutIdUnique(ps: seq<Player>, id: int)
    requires UniqueIds(ps)
    ensures UniqueIds(WithoutId(ps, id))
  {
    if ps != [] {
      var n := |ps| - 1;
      assert UniqueIds(ps[..n]);
      WithoutIdUnique(ps[..n], id);
      WithoutIdSpec(ps[..n], id);
      var rest := WithoutId(ps[..n], id);
      forall k | 0 <= k < |rest|
        ensures rest[k].id != ps[n].id
      {
        assert rest[k] in ps[..n];
      }
    }
  }

  /** With unique ids, a present id is carried by exactly one player; an absent one by none. */
  lemma UniqueCountAtMostOne(ps: seq<Player>, id: int)
    requires UniqueIds(ps)
    ensures CountId(ps, id) <= 1
  {
    LastWithIdSpec(ps, id);
    if LastWithId(ps, id).None? {
      NoIdNoCount(ps, id);
    } else {
      var k :| 0 <= k < |ps| && ps[k] == LastWithId(ps, id).value && ps[k].id == id &&
        forall j :: k < j < |ps| ==> ps[j].id != id;
      UniqueIdCount(ps, k);
    }
  }

  /**
   * The den roster stays between two and five players with unique ids under
   * both roster actions, given that `Date.now()` is not already an id.
   */
  lemma DenRosterBounded(d: GameData, isHost: bool, theme: Constants.Theme, id: int, now: int, clock: string)
    requires MinDen <= |d.playersDen| <= MaxDen && UniqueIds(d.playersDen)
    requires forall p :: p in d.playersDen ==> p.id != now
    ensures var e := AddPlayerDen(d, isHost, theme, now, clock);
      e.Update? ==> MinDen <= |e.data.playersDen| <= MaxDen && UniqueIds(e.data.playersDen)
    ensures var e := RemovePlayerDen(d, isHost, id, now, clock);
      e.Update? ==> MinDen <= |e.data.playersDen| <= MaxDen && UniqueIds(e.data.playersDen)
  {
    var e := AddPlayerDen(d, isHost, theme, now, clock);
    if e.Update? {
      var ps := e.data.playersDen;
      forall i, j | 0 <= i < j < |ps|
        ensures ps[i].id != ps[j].id
      {
        if j == |d.playersDen| {
          assert ps[i] == d.playersDen[i];
          assert d.playersDen[i] in d.playersDen;
        } else {
          assert ps[i] == d.playersDen[i] && ps[j] == d.playersDen[j];
        }
      }
    }
    WithoutIdSpec(d.playersDen, id);
    WithoutIdUnique(d.playersDen, id);
    UniqueCountAtMostOne(d.playersDen, id);
  }

  /** `autoBalance` on the host. */
  function AutoBalanceEffect(d: GameData, isHost: bool, targetId: int, now: int, clock: string): (e: Effect)
    ensures e.Update? <==> isHost
    ensures !e.Update? ==> e == NoEffect
    ensures e.Update? ==> e.data == BalancedData(d, targetId, now, clock)
  {
    if !isHost then NoEffect else Update(BalancedData(d, targetId, now, clock))
  }

  /** `movePlayer` on the host: a swap with the neighbour, or nothing past either end. */
  function MoveEffect(d: GameData, isHost: bool, index: int, direction: int): (e: Effect)
    requires isHost ==> 0 <= index < |d.playersDen|
    ensures e.Update? <==> isHost && 0 <= index + direction < |d.playersDen|
    ensures !e.Update? ==> e == NoEffect
    ensures e.Update? ==> e.data == d.(playersDen := Swapped(d.playersDen, index, index + direction))
  {
    if !isHost then NoEffect
    else match Moved(d.playersDen, index, direction)
      case None => NoEffect
      case Some(ps) => Update(d.(playersDen := ps))
  }

  /**
   * `resetGame`: the default template, keeping mode, race target and unit
   * price; the active list keeps its players at score 0, the other list and
   * everything else come from the template, and the log restarts with one
   * 'system' entry. There is no host check.
   */
  function ResetData(d: GameData, now: int, clock: string): (r: GameData)
    ensures r.gameMode == d.gameMode && r.raceTo == d.raceTo && r.unitPrice == d.unitPrice
    ensures r.tableBill == 0 && r.splitMode == SeventyThirty
    ensures r.history == [HistoryEntry(now, clock, NewMatchMsg, System, Blank)]
    ensures r.shotClock == Constants.DefaultShotClock && r.breakPlayerId == None
    ensures d.gameMode == OneVsOne ==> r.playersDen == Constants.DefaultGameData().playersDen
    ensures d.gameMode == Den ==> r.players1vs1 == Constants.DefaultGameData().players1vs1
    ensures |r.Players(d.gameMode)| == |d.Players(d.gameMode)|
    ensures forall i :: 0 <= i < |d.Players(d.gameMode)| ==>
      r.Players(d.gameMode)[i] == d.Players(d.gameMode)[i].(score := 0)
    ensures Sum(r.players1vs1) == 0 && Sum(r.playersDen) == 0
  {
    DefaultDenRoster();
    ZeroScoresSumZero(Constants.DefaultGameData().players1vs1);
    var template := FreshMatch(now, clock).(gameMode := d.gameMode, raceTo := d.raceTo, unitPrice := d.unitPrice, tableBill := 0);
    if d.gameMode == OneVsOne then template.(players1vs1 := Zeroed(d.players1vs1))
    else template.(playersDen := Zeroed(d.playersDen))
  }

  /** After a reset of a two-player race nobody has won. */
  lemma ResetClearsWinner(d: GameData, now: int, clock: string)
    requires |d.players1vs1| >= 2
    ensures DerivedWinner(ResetData(d, now, clock)) == None
  {
    var r := ResetData(d, now, clock);
    if d.gameMode == Den {
      assert r.players1vs1 == Constants.DefaultGameData().players1vs1;
    }
  }

  /**
   * In a two-player race where neither has reached the target, a point that
   * takes a player to the target or beyond makes that player the winner the
   * restore effect derives; a correction that brings the winner back below
   * the target while the other is below it clears it.
   */
  lemma ScoreDecidesWinner(d: GameData, k: int, delta: int, now: int, clock: string)
    requires d.gameMode == OneVsOne && d.raceTo > 0 && |d.players1vs1| == 2
    requires d.players1vs1[0].id != d.players1vs1[1].id && 0 <= k < 2
    requires d.players1vs1[1 - k].score < d.raceTo
    ensures var r := ScoredData(d, OneVsOne, d.players1vs1[k].id, delta, delta > 0, now, clock);
      WinnerReadable(r) &&
      (Max(0, d.players1vs1[k].score + delta) >= d.raceTo ==> DerivedWinner(r) == Some(d.players1vs1[k].name)) &&
      (Max(0, d.players1vs1[k].score + delta) < d.raceTo ==> DerivedWinner(r) == None)
  {
    var r := ScoredData(d, OneVsOne, d.players1vs1[k].id, delta, delta > 0, now, clock);
    assert r.players1vs1[k].score == Max(0, d.players1vs1[k].score + delta);
    assert r.players1vs1[1 - k] == d.players1vs1[1 - k];
  }

  /**
   * The race-to-7 walk-through: at 6–5 a point for the first player wins the
   * race; a further point for either player is refused; a correction of the
   * winner is accepted and the derived winner clears.
   */
  lemma RaceToSevenScenario(d: GameData, now: int, clock: string)
    requires d.gameMode == OneVsOne && d.raceTo == 7 && |d.players1vs1| == 2
    requires d.players1vs1[0].id == 1 && d.players1vs1[1].id == 2
    requires d.players1vs1[0].score == 6 && d.players1vs1[1].score == 5 && d.players1vs1[0].name != ""
    ensures DerivedWinner(d) == None
    ensures var e1 := ScoreEffect(DerivedWinner(d), true, d, OneVsOne, 1, 1, now, clock);
      e1.Update? && e1.data.players1vs1[0].score == 7 && WinnerReadable(e1.data) &&
      DerivedWinner(e1.data) == Some(d.players1vs1[0].name) &&
      ScoreEffect(DerivedWinner(e1.data), true, e1.data, OneVsOne, 1, 1, now, clock) == NoEffect &&
      ScoreEffect(DerivedWinner(e1.data), true, e1.data, OneVsOne, 2, 1, now, clock) == NoEffect &&
      var e2 := ScoreEffect(DerivedWinner(e1.data), true, e1.data, OneVsOne, 1, -1, now, clock);
      e2.Update? && e2.data.players1vs1[0].score == 6 && WinnerReadable(e2.data) && DerivedWinner(e2.data) == None
  {
    ScoreDecidesWinner(d, 0, 1, now, clock);
    var d1 := ScoredData(d, OneVsOne, 1, 1, true, now, clock);
    assert d1.players1vs1[0].score == 7 && d1.players1vs1[1] == d.players1vs1[1];
    ScoreDecidesWinner(d1, 0, -1, now, clock);
  }

  /**
   * The hook's state: the `winner` latch and the scoring streak. The game
   * data, `handleUpdate` and `sendCommand` belong to the caller; every action
   * returns the effect it asks for.
   */
  class ScoreHook {
    var winner: Option<string>
    var streak: Streak

    constructor()
      ensures winner == None && streak == NoStreak
    {
      winner := None;
      streak := NoStreak;
    }

    /** The restore effect, run whenever the 1vs1 list, the target or the mode changes. */
    method RestoreWinner(d: GameData)
      requires WinnerReadable(d)
      modifies this`winner
      ensures winner == DerivedWinner(d)
    {
      if d.gameMode == OneVsOne && d.raceTo > 0 {
        var p1 := d.players1vs1[0];
        if p1.score >= d.raceTo {
          winner := Some(p1.name);
        } else {
          var p2 := d.players1vs1[1];
          if p2.score >= d.raceTo {
            winner := Some(p2.name);
          } else {
            winner := None;
          }
        }
      } else {
        winner := None;
      }
    }

    /** `updateScore`: the effect and the streak move of one call. */
    method UpdateScore(isHost: bool, d: GameData, mode: GameMode, id: int, delta: int, now: int, clock: string)
      returns (e: Effect)
      modifies this`streak
      ensures e == ScoreEffect(winner, isHost, d, mode, id, delta, now, clock)
      ensures streak == StreakAfter(old(streak), winner, isHost, id, delta)
    {
      if !isHost {
        e := Send(ScoreCommand(mode, id, delta));
        return;
      }
      if Latched(winner) && delta > 0 {
        e := NoEffect;
        return;
      }
      if delta > 0 {
        streak := if streak.playerId == Some(id) then Streak(Some(id), streak.count + delta) else Streak(Some(id), delta);
      } else if streak.playerId == Some(id) {
        streak := NoStreak;
      }
      var newData := Scored(d, mode, id, delta, delta > 0, now, clock);
      e := Update(newData);
    }

    /** `autoBalance`, with its filter-reduce and map as loops. */
    method AutoBalance(isHost: bool, d: GameData, targetId: int, now: int, clock: string) returns (e: Effect)
      ensures e == AutoBalanceEffect(d, isHost, targetId, now, clock)
    {
      if !isHost {
        return NoEffect;
      }
      var newData := AutoBalanced(d, targetId, now, clock);
      e := Update(newData);
    }

    /** `movePlayer`, swapping in a copy of the roster. */
    method MovePlayer(isHost: bool, d: GameData, index: int, direction: int) returns (e: Effect)
      requires isHost ==> 0 <= index < |d.playersDen|
      ensures e == MoveEffect(d, isHost, index, direction)
    {
      if !isHost {
        return NoEffect;
      }
      e := MovedData(d, index, direction);
    }

    /** `resetGame`: install the reset data and clear the winner and the streak. */
    method ResetGame(d: GameData, now: int, clock: string) returns (e: Effect)
      modifies this`winner, this`streak
      ensures e == Update(ResetData(d, now, clock))
      ensures winner == None && streak == NoStreak
    {
      winner := None;
      streak := NoStreak;
      e := Update(ResetData(d, now, clock));
    }
  }
}
