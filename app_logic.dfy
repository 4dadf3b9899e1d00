/**
 * The scoring actions the App component defines for itself. They share the
 * list transformations of the scoring hook but not its guards: there is no
 * host check, no five-player cap and no shot-clock reset; the winner is set
 * inside the score map when a 1vs1 player lands exactly on the target, and
 * once set it blocks every score change, corrections included. A full reset
 * keeps a one-step backup that can be recalled.
 */
module AppLogic {
  import opened Types
  import opened Scoring
  import opened Transitions
  import History
  import Constants

  /** `winner` after the score map: the last call of `setWinner`, if any, wins. */
  function Latch(prev: Option<string>, hit: Option<string>): Option<string> {
    match hit
    case Some(n) => Some(n)
    case None => prev
  }

  /**
   * The name of the last player of the id whose clamped new score equals a
   * positive target, i.e. the last `setWinner` call the map makes.
   */
  function WinnerHit(ps: seq<Player>, id: int, delta: int, raceTo: int): (r: Option<string>)
    ensures r.Some? ==>
      raceTo > 0 &&
      exists k :: 0 <= k < |ps| && ps[k].id == id && ps[k].name == r.value && Bump(ps[k].score, delta, true) == raceTo
    ensures r.None? ==>
      raceTo <= 0 || forall k :: 0 <= k < |ps| && ps[k].id == id ==> Bump(ps[k].score, delta, true) != raceTo
  {
    if ps == [] then None
    else
      var n := |ps| - 1;
      var rest := WinnerHit(ps[..n], id, delta, raceTo);
      assert forall k :: 0 <= k < n ==> ps[..n][k] == ps[k];
      if ps[n].id == id && Bump(ps[n].score, delta, true) == raceTo && raceTo > 0 then Some(ps[n].name)
      else rest
  }

  /** `updateScore`'s effect: nothing while a winner stands, otherwise the rescored data. */
  function ScoreEffect(winner: Option<string>, d: GameData, mode: GameMode, id: int, delta: int, now: int, clock: string): (e: Effect)
    ensures !e.Send?
    ensures e.NoEffect? <==> Latched(winner)
    ensures e.Update? ==> e.data == ScoredData(d, mode, id, delta, false, now, clock)
    ensures e.Update? ==> e.data.shotClock == d.shotClock
  {
    if Latched(winner) then NoEffect else Update(ScoredData(d, mode, id, delta, false, now, clock))
  }

  /** The winner after an `updateScore` call. */
  function WinnerAfter(prev: Option<string>, d: GameData, mode: GameMode, id: int, delta: int): (w: Option<string>)
    ensures Latched(prev) ==> w == prev
    ensures mode == Den ==> w == prev
    ensures w != prev ==> w.Some? && w.value in NamesOf(d.players1vs1)
    ensures !Latched(prev) && mode == OneVsOne ==> w == Latch(prev, WinnerHit(d.players1vs1, id, delta, d.raceTo))
  {
    if Latched(prev) || mode == Den then prev
    else
      var hit := WinnerHit(d.players1vs1, id, delta, d.raceTo);
      if hit.Some? then
        var k :| 0 <= k < |d.players1vs1| && d.players1vs1[k].id == id && d.players1vs1[k].name == hit.value &&
          Bump(d.players1vs1[k].score, delta, true) == d.raceTo;
        assert d.players1vs1[k].name == NamesOf(d.players1vs1)[k];
        Latch(prev, hit)
      else prev
  }

  function NamesOf(ps: seq<Player>): (r: seq<string>)
    ensures |r| == |ps| && forall k :: 0 <= k < |ps| ==> r[k] == ps[k].name
  {
    seq(|ps|, k requires 0 <= k < |ps| => ps[k].name)
  }

  /**
   * Unlike the hook, which declares a winner once a score reaches the target,
   * App only does so when the new score lands on it exactly: a change that
   * jumps past the target names nobody.
   */
  lemma OvershootNamesNobody(d: GameData, id: int, delta: int)
    requires d.raceTo > 0
    requires forall k :: 0 <= k < |d.players1vs1| && d.players1vs1[k].id == id ==> d.players1vs1[k].score + delta > d.raceTo
    ensures WinnerAfter(None, d, OneVsOne, id, delta) == None
  {
  }

  /** `addPlayerDen`: App appends a player whatever the table size. */
  function AddPlayerDen(d: GameData, theme: Constants.Theme, now: int, clock: string): (e: Effect)
    ensures e.Update? && |e.data.playersDen| == |d.playersDen| + 1
    ensures e.data == WithDenPlayer(d, theme, now, clock)
  {
    Update(WithDenPlayer(d, theme, now, clock))
  }

  /** `removePlayerDen`: App removes while the table has more than two players. */
  function RemovePlayerDen(d: GameData, id: int, now: int, clock: string): (e: Effect)
    ensures e.Update? <==> |d.playersDen| > MinDen
    ensures !e.Update? ==> e == NoEffect
    ensures e.Update? ==> e.data == WithoutDenPlayer(d, id, now, clock)
  {
    if |d.playersDen| <= MinDen then NoEffect else Update(WithoutDenPlayer(d, id, now, clock))
  }

  /** Without the cap, an App addition to a table of five leaves more than five players. */
  lemma NoDenCap(d: GameData, theme: Constants.Theme, now: int, clock: string)
    requires |d.playersDen| == MaxDen
    ensures |AddPlayerDen(d, theme, now, clock).data.playersDen| > MaxDen
  {
  }

  /** The App component's own state. */
  class AppState {
    var winner: Option<string>
    var streak: Streak
    var lastSessionBackup: Option<GameData>

    constructor()
      ensures winner == None && streak == NoStreak && lastSessionBackup == None
    {
      winner := None;
      streak := NoStreak;
      lastSessionBackup := None;
    }

    /** `updateScore`, with `setWinner` called from inside the score map. */
    method UpdateScore(d: GameData, mode: GameMode, id: int, delta: int, now: int, clock: string) returns (e: Effect)
      modifies this`winner, this`streak
      ensures e == ScoreEffect(old(winner), d, mode, id, delta, now, clock)
      ensures winner == WinnerAfter(old(winner), d, mode, id, delta)
      ensures streak == if Latched(old(winner)) then old(streak) else NextStreak(old(streak), id, delta)
    {
      if Latched(winner) {
        return NoEffect;
      }
      if delta > 0 {
        streak := if streak.playerId == Some(id) then Streak(Some(id), streak.count + delta) else Streak(Some(id), delta);
      } else if streak.playerId == Some(id) {
        streak := NoStreak;
      }
      var newData: GameData;
      var playerName, oldScore, newScore;
      if mode == OneVsOne {
        var out;
        out, playerName, oldScore, newScore := ScoreMap(d.players1vs1, id, delta, d.raceTo);
        newData := d.(players1vs1 := out);
      } else {
        var out;
        out, playerName, oldScore, newScore := ApplyDelta(d.playersDen, id, delta, false);
        newData := d.(playersDen := out);
      }
      newData := newData.(history := History.AddHistory(newData, ScoreMsg(playerName, delta, oldScore, newScore), Score, now, clock));
      e := Update(newData);
    }

    /** The 1vs1 score map of `updateScore`, calling `setWinner` as it goes. */
    method ScoreMap(ps: seq<Player>, id: int, delta: int, raceTo: int)
      returns (out: seq<Player>, playerName: string, oldScore: int, newScore: int)
      modifies this`winner
      ensures out == Rescored(ps, id, delta, true)
      ensures (playerName, oldScore, newScore) == ScoreReport(LastWithId(ps, id), delta, true)
      ensures winner == Latch(old(winner), WinnerHit(ps, id, delta, raceTo))
    {
      out, playerName, oldScore, newScore := [], "", 0, 0;
      var i := 0;
      while i < |ps|
        invariant 0 <= i <= |ps|
        invariant |out| == i
        invariant forall k :: 0 <= k < i ==> out[k] == Rescored(ps, id, delta, true)[k]
        invariant (playerName, oldScore, newScore) == ScoreReport(LastWithId(ps[..i], id), delta, true)
        invariant winner == Latch(old(winner), WinnerHit(ps[..i], id, delta, raceTo))
      {
        var p := ps[i];
        PrefixStep(ps, i);
        if p.id == id {
          playerName := p.name;
          oldScore := p.score;
          newScore := Max(0, p.score + delta);
          if newScore == raceTo && raceTo > 0 {
            winner := Some(p.name);
          }
          out := out + [p.(score := newScore)];
        } else {
          out := out + [p];
        }
        i := i + 1;
      }
      assert ps[..|ps|] == ps;
    }

    /**
     * `resetAllData`: after confirmation, keep the current data as the backup,
     * install the default template with one 'system' entry and clear the
     * winner and the streak; without confirmation nothing happens.
     */
    method ResetAllData(confirmed: bool, d: GameData, now: int, clock: string) returns (e: Effect)
      modifies this
      ensures confirmed ==> e == Update(FreshMatch(now, clock))
      ensures confirmed ==> lastSessionBackup == Some(d) && winner == None && streak == NoStreak
      ensures !confirmed ==> e == NoEffect && unchanged(this)
    {
      if confirmed {
        lastSessionBackup := Some(d);
        winner := None;
        streak := NoStreak;
        e := Update(FreshMatch(now, clock));
      } else {
        e := NoEffect;
      }
    }

    /** `recallData`: put the backup back and forget it; nothing without a backup. */
    method RecallData() returns (e: Effect)
      modifies this`lastSessionBackup
      ensures old(lastSessionBackup).None? ==> e == NoEffect && lastSessionBackup == None
      ensures old(lastSessionBackup).Some? ==> e == Update(old(lastSessionBackup).value) && lastSessionBackup == None
    {
      match lastSessionBackup
      case None =>
        e := NoEffect;
      case Some(backup) =>
        e := Update(backup);
        lastSessionBackup := None;
    }
  }

  /** A confirmed reset followed by a recall gives back the data from before the reset, once. */
  method ResetThenRecall(app: AppState, d: GameData, now: int, clock: string) returns (reset: Effect, recalled: Effect, again: Effect)
    modifies app
    ensures reset == Update(FreshMatch(now, clock))
    ensures recalled == Update(d)
    ensures again == NoEffect
  {
    reset := app.ResetAllData(true, d, now, clock);
    recalled := app.RecallData();
    again := app.RecallData();
  }
}
