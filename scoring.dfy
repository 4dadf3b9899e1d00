/**
 * Player-list helpers shared by the scoring hook and the App component, which
 * both carry the same `map`/`filter`/`reduce` code over `players1vs1` and
 * `playersDen`.
 */
module Scoring {
  import opened Types
  import Constants

  /** Den roster bounds the scoring hook keeps. */
  const MinDen := 2
  const MaxDen := 5

  /** `reduce((acc, p) => acc + p.score, 0)`, accumulated from the left. */
  function Sum(ps: seq<Player>): int {
    if ps == [] then 0 else Sum(ps[..|ps| - 1]) + ps[|ps| - 1].score
  }

  predicate UniqueIds(ps: seq<Player>) {
    forall i, j :: 0 <= i < j < |ps| ==> ps[i].id != ps[j].id
  }

  function Max(a: int, b: int): int {
    if a >= b then a else b
  }

  /** A score after a change of `delta`: `Math.max(0, …)` in 1vs1, unclamped in den mode. */
  function Bump(score: int, delta: int, clamp: bool): int {
    if clamp then Max(0, score + delta) else score + delta
  }

  /** The list after the score map: every player with the given id rescored. */
  function Rescored(ps: seq<Player>, id: int, delta: int, clamp: bool): seq<Player> {
    seq(|ps|, i requires 0 <= i < |ps| =>
      if ps[i].id == id then ps[i].(score := Bump(ps[i].score, delta, clamp)) else ps[i])
  }

  /** The list with every player of the given id set to score `s`. */
  function WithScore(ps: seq<Player>, id: int, s: int): seq<Player> {
    seq(|ps|, i requires 0 <= i < |ps| => if ps[i].id == id then ps[i].(score := s) else ps[i])
  }

  /** The list with every player of the given id renamed. */
  function Renamed(ps: seq<Player>, id: int, name: string): seq<Player> {
    seq(|ps|, i requires 0 <= i < |ps| => if ps[i].id == id then ps[i].(name := name) else ps[i])
  }

  /** The last player with the given id: the one whose values the map's outer variables keep. */
  function LastWithId(ps: seq<Player>, id: int): Option<Player> {
    if ps == [] then None
    else if ps[|ps| - 1].id == id then Some(ps[|ps| - 1])
    else LastWithId(ps[..|ps| - 1], id)
  }

  lemma {:induction false} LastWithIdSpec(ps: seq<Player>, id: int)
    ensures LastWithId(ps, id).None? <==> forall k :: 0 <= k < |ps| ==> ps[k].id != id
    ensures LastWithId(ps, id).Some? ==>
      exists k :: 0 <= k < |ps| && ps[k] == LastWithId(ps, id).value && ps[k].id == id &&
        forall j :: k < j < |ps| ==> ps[j].id != id
  {
    if ps != [] {
      var n := |ps| - 1;
      LastWithIdSpec(ps[..n], id);
      if ps[n].id != id {
        assert forall k :: 0 <= k < n ==> ps[..n][k] == ps[k];
        if LastWithId(ps, id).Some? {
          var k :| 0 <= k < n && ps[..n][k] == LastWithId(ps, id).value && ps[..n][k].id == id &&
            forall j :: k < j < n ==> ps[..n][j].id != id;
          assert ps[k] == LastWithId(ps, id).value;
        }
      }
    }
  }

  /** The first player with the given id (`find`). */
  function FirstWithId(ps: seq<Player>, id: int): Option<Player> {
    if ps == [] then None
    else if ps[0].id == id then Some(ps[0])
    else FirstWithId(ps[1..], id)
  }

  /** `filter(p => p.id !== id)`. */
  function WithoutId(ps: seq<Player>, id: int): seq<Player> {
    if ps == [] then []
    else WithoutId(ps[..|ps| - 1], id) + (if ps[|ps| - 1].id != id then [ps[|ps| - 1]] else [])
  }

  /** How many players carry the given id. */
  function CountId(ps: seq<Player>, id: int): nat {
    if ps == [] then 0
    else CountId(ps[..|ps| - 1], id) + (if ps[|ps| - 1].id == id then 1 else 0)
  }

  /** The total score of the players that carry the given id. */
  function SumWithId(ps: seq<Player>, id: int): int {
    if ps == [] then 0
    else SumWithId(ps[..|ps| - 1], id) + (if ps[|ps| - 1].id == id then ps[|ps| - 1].score else 0)
  }

  /** The score auto-balance assigns: minus the total of everyone else. */
  function BalanceTarget(ps: seq<Player>, id: int): int {
    -Sum(WithoutId(ps, id))
  }

  /** The (playerName, oldScore, newScore) that the score map leaves in its outer variables. */
  function ScoreReport(m: Option<Player>, delta: int, clamp: bool): (string, int, int) {
    match m
    case None => ("", 0, 0)
    case Some(p) => (p.name, p.score, Bump(p.score, delta, clamp))
  }

  /** `ps[..i+1]` seen as `ps[..i]` plus one element. */
  lemma PrefixStep<T>(ps: seq<T>, i: int)
    requires 0 <= i < |ps|
    ensures ps[..i + 1] == ps[..i] + [ps[i]]
    ensures ps[..i + 1][..i] == ps[..i]
  {
  }

  /**
   * The score map of `updateScore`: it rebuilds the list and, for each player
   * with the given id, records name, old score and new score in outer variables.
   */
  method ApplyDelta(ps: seq<Player>, id: int, delta: int, clamp: bool)
    returns (out: seq<Player>, playerName: string, oldScore: int, newScore: int)
    ensures out == Rescored(ps, id, delta, clamp)
    ensures (playerName, oldScore, newScore) == ScoreReport(LastWithId(ps, id), delta, clamp)
  {
    out, playerName, oldScore, newScore := [], "", 0, 0;
    var i := 0;
    while i < |ps|
      invariant 0 <= i <= |ps|
      invariant |out| == i
      invariant forall k :: 0 <= k < i ==> out[k] == Rescored(ps, id, delta, clamp)[k]
      invariant (playerName, oldScore, newScore) == ScoreReport(LastWithId(ps[..i], id), delta, clamp)
    {
      var p := ps[i];
      PrefixStep(ps, i);
      if p.id == id {
        playerName := p.name;
        oldScore := p.score;
        newScore := if clamp then Max(0, p.score + delta) else p.score + delta;
        out := out + [p.(score := newScore)];
      } else {
        out := out + [p];
      }
      i := i + 1;
    }
    assert ps[..|ps|] == ps;
  }

  /**
   * The map of `autoBalance`: sets every player of the target id to `s` and
   * records the (last) target's name and old score in outer variables.
   */
  method AssignScore(ps: seq<Player>, id: int, s: int)
    returns (out: seq<Player>, playerName: string, oldScore: int)
    ensures out == WithScore(ps, id, s)
    ensures LastWithId(ps, id).None? ==> playerName == "" && oldScore == 0
    ensures LastWithId(ps, id).Some? ==>
      playerName == LastWithId(ps, id).value.name && oldScore == LastWithId(ps, id).value.score
  {
    out, playerName, oldScore := [], "", 0;
    var i := 0;
    while i < |ps|
      invariant 0 <= i <= |ps|
      invariant |out| == i
      invariant forall k :: 0 <= k < i ==> out[k] == WithScore(ps, id, s)[k]
      invariant LastWithId(ps[..i], id).None? ==> playerName == "" && oldScore == 0
      invariant LastWithId(ps[..i], id).Some? ==>
        playerName == LastWithId(ps[..i], id).value.name && oldScore == LastWithId(ps[..i], id).value.score
    {
      var p := ps[i];
      PrefixStep(ps, i);
      if p.id == id {
        playerName := p.name;
        oldScore := p.score;
        out := out + [p.(score := s)];
      } else {
        out := out + [p];
      }
      i := i + 1;
    }
    assert ps[..|ps|] == ps;
  }

  /** The total splits into the players without the id and those with it. */
  lemma {:induction false} SumSplit(ps: seq<Player>, id: int)
    ensures Sum(ps) == Sum(WithoutId(ps, id)) + SumWithId(ps, id)
  {
    if ps != [] {
      var n := |ps| - 1;
      SumSplit(ps[..n], id);
      SumAppend(WithoutId(ps[..n], id), if ps[n].id != id then [ps[n]] else []);
    }
  }

  lemma {:induction false} SumAppend(a: seq<Player>, b: seq<Player>)
    ensures Sum(a + b) == Sum(a) + Sum(b)
  {
    if b == [] {
      assert a + b == a;
    } else {
      var n := |b| - 1;
      assert (a + b)[..|a + b| - 1] == a + b[..n];
      SumAppend(a, b[..n]);
    }
  }

  /** Rescoring the players of one id leaves everyone else as they were. */
  lemma {:induction false} WithScoreOthers(ps: seq<Player>, id: int, s: int)
    ensures WithoutId(WithScore(ps, id, s), id) == WithoutId(ps, id)
  {
    if ps != [] {
      var n := |ps| - 1;
      assert WithScore(ps, id, s)[..n] == WithScore(ps[..n], id, s);
      WithScoreOthers(ps[..n], id, s);
    }
  }

  /** After rescoring, the players of that id hold `count * s` between them. */
  lemma {:induction false} WithScoreTarget(ps: seq<Player>, id: int, s: int)
    ensures SumWithId(WithScore(ps, id, s), id) == CountId(ps, id) * s
  {
    if ps != [] {
      var n := |ps| - 1;
      assert WithScore(ps, id, s)[..n] == WithScore(ps[..n], id, s);
      WithScoreTarget(ps[..n], id, s);
      if ps[n].id == id {
        assert (CountId(ps[..n], id) + 1) * s == CountId(ps[..n], id) * s + s;
      }
    }
  }

  /** With unique ids, a present id is carried by exactly one player. */
  lemma {:induction false} UniqueIdCount(ps: seq<Player>, k: int)
    requires UniqueIds(ps) && 0 <= k < |ps|
    ensures CountId(ps, ps[k].id) == 1
    ensures SumWithId(ps, ps[k].id) == ps[k].score
  {
    var n := |ps| - 1;
    var id := ps[k].id;
    if k == n {
      NoIdNoCount(ps[..n], id);
    } else {
      assert ps[..n][k] == ps[k];
      UniqueIdCount(ps[..n], k);
    }
  }

  lemma {:induction false} NoIdNoCount(ps: seq<Player>, id: int)
    requires forall i :: 0 <= i < |ps| ==> ps[i].id != id
    ensures CountId(ps, id) == 0 && SumWithId(ps, id) == 0
  {
    if ps != [] {
      NoIdNoCount(ps[..|ps| - 1], id);
    }
  }

  /**
   * Auto-balance zeroes the table: when the target id is present exactly
   * once, giving it minus the others' total makes the roster sum 0.
   */
  lemma BalancedSumsToZero(ps: seq<Player>, id: int)
    requires CountId(ps, id) == 1
    ensures Sum(WithScore(ps, id, BalanceTarget(ps, id))) == 0
  {
    var s := BalanceTarget(ps, id);
    SumSplit(WithScore(ps, id, s), id);
    WithScoreOthers(ps, id, s);
    WithScoreTarget(ps, id, s);
  }

  /** Swapping two slots, as `[a[i], a[j]] = [a[j], a[i]]` does. */
  function Swapped(ps: seq<Player>, i: int, j: int): seq<Player>
    requires 0 <= i < |ps| && 0 <= j < |ps|
  {
    ps[i := ps[j]][j := ps[i]]
  }

  /** The list `movePlayer` installs, or None when the new index is out of range. */
  function Moved(ps: seq<Player>, index: int, direction: int): Option<seq<Player>>
    requires 0 <= index < |ps|
  {
    var newIndex := index + direction;
    if 0 <= newIndex < |ps| then Some(Swapped(ps, index, newIndex)) else None
  }

  /**
   * `movePlayer`'s reorder: copy the roster into an array and swap two slots
   * in place; no update when the neighbour index is out of range.
   */
  method MovePlayer(ps: seq<Player>, index: int, direction: int) returns (r: Option<seq<Player>>)
    requires 0 <= index < |ps|
    ensures r == Moved(ps, index, direction)
    ensures r.Some? <==> 0 <= index + direction < |ps|
    ensures r.Some? ==> multiset(r.value) == multiset(ps) && |r.value| == |ps|
  {
    var newIndex := index + direction;
    if 0 <= newIndex < |ps| {
      var players := new Player[|ps|](k requires 0 <= k < |ps| => ps[k]);
      assert players[..] == ps;
      players[index], players[newIndex] := players[newIndex], players[index];
      r := Some(players[..]);
      assert r.value == Swapped(ps, index, newIndex);
      SwapPermutes(ps, index, newIndex);
    } else {
      r := None;
    }
  }

  lemma SwapPermutes(ps: seq<Player>, i: int, j: int)
    requires 0 <= i < |ps| && 0 <= j < |ps|
    ensures multiset(Swapped(ps, i, j)) == multiset(ps)
  {
    if i != j {
      var t := ps[i := ps[j]];
      assert multiset(t) == multiset(ps) - multiset{ps[i]} + multiset{ps[j]};
      assert multiset(t[j := ps[i]]) == multiset(t) - multiset{t[j]} + multiset{ps[i]};
    }
  }

  /** Moving a player down and then moving it back up restores the roster. */
  lemma MoveDownThenUp(ps: seq<Player>, index: int)
    requires 0 <= index && index + 1 < |ps|
    ensures Moved(ps, index, 1).Some?
    ensures Moved(Moved(ps, index, 1).value, index + 1, -1) == Some(ps)
  {
    var once := Swapped(ps, index, index + 1);
    assert Swapped(once, index + 1, index) == ps;
  }

  /** The letter a new den player is named by: `String.fromCharCode(65 + n)`. */
  function Letter(n: nat): char {
    if 65 + n < 0xD800 then (65 + n) as char else '?'
  }

  /** The player `addPlayerDen` appends. */
  function NewDenPlayer(ps: seq<Player>, theme: Constants.Theme, now: int): Player {
    Player(now, "PLAYER " + [Letter(|ps|)], 0, 0, |ps| % |Constants.PlayerColors(theme)|)
  }

  /**
   * The streak update: a point extends the scorer's run (or starts a new one);
   * a correction by the current holder clears it; anything else keeps it.
   */
  function NextStreak(s: Streak, id: int, delta: int): (r: Streak)
    ensures delta > 0 ==> r.playerId == Some(id) && r.count == (if s.playerId == Some(id) then s.count else 0) + delta
    ensures delta <= 0 && s.playerId == Some(id) ==> r == NoStreak
    ensures delta <= 0 && s.playerId != Some(id) ==> r == s
  {
    if delta > 0 then
      (if s.playerId == Some(id) then Streak(Some(id), s.count + delta) else Streak(Some(id), delta))
    else if s.playerId == Some(id) then NoStreak
    else s
  }

  /** `Math.max(...scores)` over a non-empty list. */
  function MaxScore(ps: seq<Player>): (m: int)
    requires |ps| > 0
    ensures forall i :: 0 <= i < |ps| ==> ps[i].score <= m
    ensures exists i :: 0 <= i < |ps| && ps[i].score == m
  {
    if |ps| == 1 then ps[0].score
    else
      var rest := MaxScore(ps[..|ps| - 1]);
      assert forall i :: 0 <= i < |ps| - 1 ==> ps[..|ps| - 1][i] == ps[i];
      Max(rest, ps[|ps| - 1].score)
  }

  /** `Math.min(...scores)` over a non-empty list. */
  function MinScore(ps: seq<Player>): (m: int)
    requires |ps| > 0
    ensures forall i :: 0 <= i < |ps| ==> m <= ps[i].score
    ensures exists i :: 0 <= i < |ps| && ps[i].score == m
  {
    if |ps| == 1 then ps[0].score
    else
      var rest := MinScore(ps[..|ps| - 1]);
      assert forall i :: 0 <= i < |ps| - 1 ==> ps[..|ps| - 1][i] == ps[i];
      if rest <= ps[|ps| - 1].score then rest else ps[|ps| - 1].score
  }

  /** The default den roster is within bounds, has unique ids and is balanced. */
  lemma DefaultDenRoster()
    ensures MinDen <= |Constants.DefaultGameData().playersDen| <= MaxDen
    ensures UniqueIds(Constants.DefaultGameData().playersDen)
    ensures Sum(Constants.DefaultGameData().playersDen) == 0
  {
    ZeroScoresSumZero(Constants.DefaultGameData().playersDen);
  }

  lemma {:induction false} ZeroScoresSumZero(ps: seq<Player>)
    requires forall i :: 0 <= i < |ps| ==> ps[i].score == 0
    ensures Sum(ps) == 0
  {
    if ps != [] {
      ZeroScoresSumZero(ps[..|ps| - 1]);
    }
  }
}
