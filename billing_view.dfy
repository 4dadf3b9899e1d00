/** The settlement form's edits. */
module BillingView {
  import opened Types
  import Utils

  /** `(parseInt(text) || 0) * 1000`, with an unparsable text given as None. */
  function ParsedThousands(parsed: Option<int>): (r: int)
    ensures parsed.None? ==> r == 0
    ensures parsed.Some? ==> r == parsed.value * 1000
    ensures r % 1000 == 0
  {
    (match parsed case Some(v) => v case None => 0) * 1000
  }

  /** `updatePersonalCost`: set the personal cost of every player of the id in the active list. */
  function UpdatePersonalCost(d: GameData, playerId: int, value: int): (r: GameData)
    ensures |r.Players(d.gameMode)| == |d.Players(d.gameMode)|
    ensures forall i :: 0 <= i < |d.Players(d.gameMode)| ==>
      r.Players(d.gameMode)[i].personal == (if d.Players(d.gameMode)[i].id == playerId then value else d.Players(d.gameMode)[i].personal) &&
      r.Players(d.gameMode)[i].(personal := d.Players(d.gameMode)[i].personal) == d.Players(d.gameMode)[i]
    ensures d.gameMode == OneVsOne ==> r.(players1vs1 := d.players1vs1) == d
    ensures d.gameMode == Den ==> r.(playersDen := d.playersDen) == d
  {
    var players := d.Players(d.gameMode);
    var updated := seq(|players|, i requires 0 <= i < |players| =>
      if players[i].id == playerId then players[i].(personal := value) else players[i]);
    if d.gameMode == OneVsOne then d.(players1vs1 := updated) else d.(playersDen := updated)
  }

  /**
   * A personal cost lands on the bill: in den mode the edited player's row
   * pays the new cost on top of the same share and exchange, and every other
   * row is unchanged.
   */
  lemma PersonalCostOnBill(d: GameData, playerId: int, value: int)
    requires d.gameMode == Den
    ensures var before := Utils.CalculateBillingData(d);
      var after := Utils.CalculateBillingData(UpdatePersonalCost(d, playerId, value));
      |after| == |before| &&
      forall i :: 0 <= i < |before| ==>
        if d.playersDen[i].id == playerId
        then after[i].total == before[i].total - d.playersDen[i].personal as real + value as real
        else after[i] == before[i]
  {
  }

  /**
   * The same in 1vs1: the edited player's row pays the new cost on top of the
   * same share, and the other row is unchanged.
   */
  lemma PersonalCostOnBillOneVsOne(d: GameData, playerId: int, value: int)
    requires d.gameMode == OneVsOne && |d.players1vs1| >= 2
    ensures var before := Utils.CalculateBillingData(d);
      var after := Utils.CalculateBillingData(UpdatePersonalCost(d, playerId, value));
      |after| == |before| == 2 &&
      forall i :: 0 <= i < 2 ==>
        if d.players1vs1[i].id == playerId
        then after[i].total == before[i].total - d.players1vs1[i].personal as real + value as real
        else after[i] == before[i]
  {
  }

  /** The fee input: the table bill in thousands. */
  function EditFee(d: GameData, parsed: Option<int>): (r: GameData)
    ensures r.tableBill == ParsedThousands(parsed)
    ensures r.(tableBill := d.tableBill) == d
  {
    d.(tableBill := ParsedThousands(parsed))
  }

  /** The bet input: the price of a point in thousands. */
  function EditBet(d: GameData, parsed: Option<int>): (r: GameData)
    ensures r.unitPrice == ParsedThousands(parsed)
    ensures r.(unitPrice := d.unitPrice) == d
  {
    d.(unitPrice := ParsedThousands(parsed))
  }

  /** The split select. */
  function EditSplit(d: GameData, mode: SplitMode): (r: GameData)
    ensures r.splitMode == mode
    ensures r.(splitMode := d.splitMode) == d
  {
    d.(splitMode := mode)
  }

  /** The personal-cost input: the parsed value, in thousands, for that player. */
  function EditPersonal(d: GameData, playerId: int, parsed: Option<int>): (r: GameData)
    ensures r == UpdatePersonalCost(d, playerId, ParsedThousands(parsed))
    ensures parsed.None? ==> forall i :: 0 <= i < |d.Players(d.gameMode)| && d.Players(d.gameMode)[i].id == playerId ==>
      r.Players(d.gameMode)[i].personal == 0
  {
    UpdatePersonalCost(d, playerId, ParsedThousands(parsed))
  }
}
