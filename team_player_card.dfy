/**
 * The den player card: the auto-balance preview, the imbalance badges, the
 * card's status and what each of its buttons does.
 */
module TeamPlayerCard {
  import opened Types
  import opened Scoring
  import Transitions

  /** The score the balance dialog proposes: the player's score minus the table total. */
  function Preview(player: Player, den: seq<Player>): int {
    player.score - Sum(den)
  }

  /**
   * The preview agrees with auto-balance: with unique ids, the player's score
   * minus the table total is minus the total of everyone else, which is the
   * score `autoBalance` assigns, and after it the table balances.
   */
  lemma PreviewMatchesAutoBalance(den: seq<Player>, k: int, now: int, clock: string, d: GameData)
    requires UniqueIds(den) && 0 <= k < |den| && d.playersDen == den
    ensures Preview(den[k], den) == BalanceTarget(den, den[k].id)
    ensures Transitions.BalancedData(d, den[k].id, now, clock).playersDen[k].score == Preview(den[k], den)
    ensures Sum(Transitions.BalancedData(d, den[k].id, now, clock).playersDen) == 0
  {
    SumSplit(den, den[k].id);
    UniqueIdCount(den, k);
  }

  predicate IsImbalanced(den: seq<Player>) {
    Sum(den) != 0
  }

  /** The crown: the table is off balance and this player leads with a positive score. */
  predicate IsHighest(player: Player, den: seq<Player>)
    requires |den| > 0
  {
    IsImbalanced(den) && player.score == MaxScore(den) && player.score > 0
  }

  /** The warning: the table is off balance and this player trails with a negative score. */
  predicate IsLowest(player: Player, den: seq<Player>)
    requires |den| > 0
  {
    IsImbalanced(den) && player.score == MinScore(den) && player.score < 0
  }

  /** No player is both the leader and the tail; on a balanced table neither badge shows. */
  lemma BadgesExclusive(player: Player, den: seq<Player>)
    requires |den| > 0
    ensures !(IsHighest(player, den) && IsLowest(player, den))
    ensures Sum(den) == 0 ==> !IsHighest(player, den) && !IsLowest(player, den)
  {
  }

  /**
   * On an off-balance table, the crown always has a holder
   * or the warning does: a non-zero total means some score is non-zero.
   */
  lemma SomeBadgeOnImbalance(den: seq<Player>)
    requires |den| > 0 && IsImbalanced(den)
    ensures exists k :: 0 <= k < |den| && (IsHighest(den[k], den) || IsLowest(den[k], den))
  {
    var mx := MaxScore(den);
    var mn := MinScore(den);
    if mx <= 0 && mn >= 0 {
      forall i | 0 <= i < |den|
        ensures den[i].score == 0
      {
      }
      ZeroScoresSumZero(den);
    }
    if mx > 0 {
      var k :| 0 <= k < |den| && den[k].score == mx;
      assert IsHighest(den[k], den);
    } else {
      var k :| 0 <= k < |den| && den[k].score == mn;
      assert IsLowest(den[k], den);
    }
  }

  datatype CardStatus = Fever | Highest | Lowest | Plain

  /** The card's status: fever first, then the crown, then the warning. */
  function Status(isFever: bool, player: Player, den: seq<Player>): (s: CardStatus)
    requires |den| > 0
    ensures s == Fever <==> isFever
    ensures s == Highest <==> !isFever && IsHighest(player, den)
    ensures s == Lowest <==> !isFever && !IsHighest(player, den) && IsLowest(player, den)
    ensures s == Plain <==> !isFever && !IsHighest(player, den) && !IsLowest(player, den)
  {
    if isFever then Fever
    else if IsHighest(player, den) then Highest
    else if IsLowest(player, den) then Lowest
    else Plain
  }

  /** The card's buttons: the two side buttons, the trash (manage mode) and the score itself. */
  datatype CardButton = Left | Right | Trash | ScoreTap

  /** What pressing a button asks for. */
  datatype CardAction =
    | ScoreAction(mode: GameMode, id: int, delta: int)
    | MoveAction(index: int, direction: int)
    | OpenDeleteConfirm
    | OpenBalanceConfirm

  /**
   * The action of a button, or None when it is not shown or does nothing:
   * in normal mode the sides score -1 and +1 and tapping the score opens the
   * balance dialog on an off-balance table; in manage mode the sides move the
   * card down and up and the trash opens the delete dialog.
   */
  function Press(button: CardButton, isManageMode: bool, player: Player, index: int, den: seq<Player>): (a: Option<CardAction>)
    ensures !isManageMode && button == Left ==> a == Some(ScoreAction(Den, player.id, -1))
    ensures !isManageMode && button == Right ==> a == Some(ScoreAction(Den, player.id, 1))
    ensures isManageMode && button == Left ==> a == Some(MoveAction(index, 1))
    ensures isManageMode && button == Right ==> a == Some(MoveAction(index, -1))
    ensures button == Trash ==> (a.Some? <==> isManageMode)
    ensures a == Some(OpenBalanceConfirm) <==> button == ScoreTap && !isManageMode && Sum(den) != 0
  {
    match button
    case Left => Some(if isManageMode then MoveAction(index, 1) else ScoreAction(Den, player.id, -1))
    case Right => Some(if isManageMode then MoveAction(index, -1) else ScoreAction(Den, player.id, 1))
    case Trash => if isManageMode then Some(OpenDeleteConfirm) else None
    case ScoreTap => if !isManageMode && Sum(den) != 0 then Some(OpenBalanceConfirm) else None
  }

  /** The dialog opens exactly when pressing it would change the player's score. */
  lemma BalanceDialogOnlyWhenUseful(player: Player, index: int, den: seq<Player>)
    ensures Press(ScoreTap, false, player, index, den) == Some(OpenBalanceConfirm) <==> Preview(player, den) != player.score
  {
  }

  /**
   * In manage mode, pressing a card's down button and then the same player's
   * up button (now one slot lower) puts the roster back.
   */
  lemma DownThenUpRestores(den: seq<Player>, index: int)
    requires 0 <= index && index + 1 < |den|
    ensures var down := Press(Left, true, den[index], index, den).value;
      Moved(den, down.index, down.direction).Some? &&
      var moved := Moved(den, down.index, down.direction).value;
      var up := Press(Right, true, moved[index + 1], index + 1, moved).value;
      Moved(moved, up.index, up.direction) == Some(den)
  {
    MoveDownThenUp(den, index);
  }
}
