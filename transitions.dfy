/**
 * `GameData` transitions whose code is the same in the scoring hook and in
 * the App component: rename, den add/remove, auto-balance and reorder. The
 * two callers differ only in the guards around them.
 */
module Transitions {
  import opened Types
  import opened Scoring
  import History
  import Constants

  /** `editName`: rename every player of the given id in the given mode's list. */
  function RenamedData(d: GameData, mode: GameMode, id: int, name: string): (r: GameData)
    ensures |r.Players(mode)| == |d.Players(mode)|
    ensures forall i :: 0 <= i < |d.Players(mode)| ==>
      r.Players(mode)[i].name == (if d.Players(mode)[i].id == id then name else d.Players(mode)[i].name) &&
      r.Players(mode)[i].(name := d.Players(mode)[i].name) == d.Players(mode)[i]
    ensures mode == OneVsOne ==> r.(players1vs1 := d.players1vs1) == d
    ensures mode == Den ==> r.(playersDen := d.playersDen) == d
  {
    if mode == OneVsOne then d.(players1vs1 := Renamed(d.players1vs1, id, name))
    else d.(playersDen := Renamed(d.playersDen, id, name))
  }

  /**
   * The body of `addPlayerDen`: append a fresh player (id `now`, score 0,
   * personal 0, next palette colour) and log it as a 'system' entry.
   */
  function WithDenPlayer(d: GameData, theme: Constants.Theme, now: int, clock: string): (r: GameData)
    ensures |r.playersDen| == |d.playersDen| + 1
    ensures r.playersDen[..|d.playersDen|] == d.playersDen
    ensures var p := r.playersDen[|d.playersDen|];
      p.id == now && p.score == 0 && p.personal == 0 && p.colorIdx == |d.playersDen| % 8
    ensures History.Logged(d.history, r.history, AddedMsg(r.playersDen[|d.playersDen|].name), System)
    ensures r.(playersDen := d.playersDen, history := d.history) == d
  {
    var p := NewDenPlayer(d.playersDen, theme, now);
    var added := d.(playersDen := d.playersDen + [p]);
    added.(history := History.AddHistory(added, AddedMsg(p.name), System, now, clock))
  }

  /**
   * The body of `removePlayerDen` past its size guard: drop every player of
   * the id; log a 'system' entry naming the first of them, if there was one.
   */
  function WithoutDenPlayer(d: GameData, id: int, now: int, clock: string): (r: GameData)
    ensures r.playersDen == WithoutId(d.playersDen, id)
    ensures FirstWithId(d.playersDen, id).None? ==> r.history == d.history
    ensures FirstWithId(d.playersDen, id).Some? ==>
      History.Logged(d.history, r.history, RemovedMsg(FirstWithId(d.playersDen, id).value.name), System)
    ensures r.(playersDen := d.playersDen, history := d.history) == d
  {
    var removed := d.(playersDen := WithoutId(d.playersDen, id));
    match FirstWithId(d.playersDen, id)
    case None => removed
    case Some(p) => removed.(history := History.AddHistory(removed, RemovedMsg(p.name), System, now, clock))
  }

  /** `filter(p => p.id !== id)` keeps exactly the other players. */
  lemma {:induction false} WithoutIdSpec(ps: seq<Player>, id: int)
    ensures |WithoutId(ps, id)| == |ps| - CountId(ps, id)
    ensures forall p :: p in WithoutId(ps, id) <==> p in ps && p.id != id
  {
    if ps != [] {
      WithoutIdSpec(ps[..|ps| - 1], id);
      assert ps == ps[..|ps| - 1] + [ps[|ps| - 1]];
    }
  }

  /** The name and score the map's outer variables keep: the last match's, else "" and 0. */
  function LastName(ps: seq<Player>, id: int): string {
    match LastWithId(ps, id)
    case Some(p) => p.name
    case None => ""
  }

  function LastScore(ps: seq<Player>, id: int): int {
    match LastWithId(ps, id)
    case Some(p) => p.score
    case None => 0
  }

  /**
   * What `autoBalance` installs: the target gets minus the sum of everyone
   * else (`filter(...).reduce(...)`), and a 'balance' entry is logged.
   */
  function BalancedData(d: GameData, targetId: int, now: int, clock: string): (r: GameData)
    ensures |r.playersDen| == |d.playersDen|
    ensures forall i :: 0 <= i < |d.playersDen| ==>
      r.playersDen[i] == if d.playersDen[i].id == targetId
                         then d.playersDen[i].(score := BalanceTarget(d.playersDen, targetId))
                         else d.playersDen[i]
    ensures CountId(d.playersDen, targetId) == 1 ==> Sum(r.playersDen) == 0
    ensures History.Logged(d.history, r.history,
      BalancedMsg(LastName(d.playersDen, targetId), LastScore(d.playersDen, targetId), BalanceTarget(d.playersDen, targetId)),
      Balance)
    ensures r.(playersDen := d.playersDen, history := d.history) == d
  {
    var target := BalanceTarget(d.playersDen, targetId);
    var balanced := d.(playersDen := WithScore(d.playersDen, targetId, target));
    var text := BalancedMsg(LastName(d.playersDen, targetId), LastScore(d.playersDen, targetId), target);
    if CountId(d.playersDen, targetId) == 1 then
      BalancedSumsToZero(d.playersDen, targetId);
      balanced.(history := History.AddHistory(balanced, text, Balance, now, clock))
    else
      balanced.(history := History.AddHistory(balanced, text, Balance, now, clock))
  }

  /** The body of `autoBalance`, with its filter-reduce and its map. */
  method AutoBalanced(d: GameData, targetId: int, now: int, clock: string) returns (r: GameData)
    ensures r == BalancedData(d, targetId, now, clock)
  {
    var currentSumExcludingTarget := Sum(WithoutId(d.playersDen, targetId));
    var newScore := -currentSumExcludingTarget;
    var players, playerName, oldScore := AssignScore(d.playersDen, targetId, newScore);
    r := d.(playersDen := players);
    r := r.(history := History.AddHistory(r, BalancedMsg(playerName, oldScore, newScore), Balance, now, clock));
  }

  /**
   * The body of `updateScore` past its guards: rescore the players of the id
   * in the given mode's list (never below 0 in 1vs1), optionally put the shot
   * clock back to its initial value and stop it, and log a 'score' entry.
   */
  function ScoredData(d: GameData, mode: GameMode, id: int, delta: int, resetClock: bool, now: int, clock: string): (r: GameData)
    ensures |r.Players(mode)| == |d.Players(mode)|
    ensures forall i :: 0 <= i < |d.Players(mode)| ==>
      r.Players(mode)[i] == if d.Players(mode)[i].id == id
                            then d.Players(mode)[i].(score := Bump(d.Players(mode)[i].score, delta, mode == OneVsOne))
                            else d.Players(mode)[i]
    ensures mode == OneVsOne ==> forall i :: 0 <= i < |d.players1vs1| && d.players1vs1[i].id == id ==> r.players1vs1[i].score >= 0
    ensures mode == Den ==> Sum(r.playersDen) == Sum(d.playersDen) + CountId(d.playersDen, id) * delta
    ensures resetClock ==> r.shotClock == d.shotClock.(seconds := d.shotClock.initialSeconds, isRunning := false)
    ensures !resetClock ==> r.shotClock == d.shotClock
    ensures var (name, before, after) := ScoreReport(LastWithId(d.Players(mode), id), delta, mode == OneVsOne);
      History.Logged(d.history, r.history, ScoreMsg(name, delta, before, after), Score)
    ensures mode == OneVsOne ==> r.(players1vs1 := d.players1vs1, shotClock := d.shotClock, history := d.history) == d
    ensures mode == Den ==> r.(playersDen := d.playersDen, shotClock := d.shotClock, history := d.history) == d
  {
    var clamp := mode == OneVsOne;
    var players := Rescored(d.Players(mode), id, delta, clamp);
    var scored := if mode == OneVsOne then d.(players1vs1 := players) else d.(playersDen := players);
    var timed := if resetClock
                 then scored.(shotClock := scored.shotClock.(seconds := scored.shotClock.initialSeconds, isRunning := false))
                 else scored;
    var (name, before, after) := ScoreReport(LastWithId(d.Players(mode), id), delta, clamp);
    if mode == Den then
      RescoredSum(d.playersDen, id, delta);
      timed.(history := History.AddHistory(timed, ScoreMsg(name, delta, before, after), Score, now, clock))
    else
      timed.(history := History.AddHistory(timed, ScoreMsg(name, delta, before, after), Score, now, clock))
  }

  /** An unclamped change of `delta` moves the total by `delta` per matching player. */
  lemma {:induction false} RescoredSum(ps: seq<Player>, id: int, delta: int)
    ensures Sum(Rescored(ps, id, delta, false)) == Sum(ps) + CountId(ps, id) * delta
  {
    if ps != [] {
      var n := |ps| - 1;
      assert Rescored(ps, id, delta, false)[..n] == Rescored(ps[..n], id, delta, false);
      RescoredSum(ps[..n], id, delta);
      if ps[n].id == id {
        assert (CountId(ps[..n], id) + 1) * delta == CountId(ps[..n], id) * delta + delta;
      }
    }
  }

  /** The body of `updateScore` past its guards, with the score map as a loop. */
  method Scored(d: GameData, mode: GameMode, id: int, delta: int, resetClock: bool, now: int, clock: string)
    returns (r: GameData)
    ensures r == ScoredData(d, mode, id, delta, resetClock, now, clock)
  {
    var clamp := mode == OneVsOne;
    var players, playerName, oldScore, newScore := ApplyDelta(d.Players(mode), id, delta, clamp);
    r := if mode == OneVsOne then d.(players1vs1 := players) else d.(playersDen := players);
    if resetClock {
      r := r.(shotClock := r.shotClock.(seconds := r.shotClock.initialSeconds, isRunning := false));
    }
    r := r.(history := History.AddHistory(r, ScoreMsg(playerName, delta, oldScore, newScore), Score, now, clock));
  }

  /** `map(p => ({...p, score: 0}))`. */
  function Zeroed(ps: seq<Player>): (r: seq<Player>)
    ensures |r| == |ps|
    ensures forall i :: 0 <= i < |ps| ==> r[i] == ps[i].(score := 0)
    ensures Sum(r) == 0
  {
    var r := seq(|ps|, i requires 0 <= i < |ps| => ps[i].(score := 0));
    ZeroScoresSumZero(r);
    r
  }

  /** The template both resets start from: the default data with one 'system' entry and a blank snapshot. */
  function FreshMatch(now: int, clock: string): (r: GameData)
    ensures r.history == [HistoryEntry(now, clock, NewMatchMsg, System, Blank)]
    ensures r.(history := []) == Constants.DefaultGameData()
  {
    Constants.DefaultGameData().(history := [HistoryEntry(now, clock, NewMatchMsg, System, Blank)])
  }

  /** The body of `movePlayer`: the reordered roster, or no update when out of range. */
  method MovedData(d: GameData, index: int, direction: int) returns (e: Effect)
    requires 0 <= index < |d.playersDen|
    ensures e == match Moved(d.playersDen, index, direction)
                 case None => NoEffect
                 case Some(ps) => Update(d.(playersDen := ps))
    ensures e.Update? ==> multiset(e.data.playersDen) == multiset(d.playersDen)
  {
    var players := MovePlayer(d.playersDen, index, direction);
    match players
    case None => e := NoEffect;
    case Some(ps) => e := Update(d.(playersDen := ps));
  }
}
