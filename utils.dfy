/** Room-id resolution from the URL hash, and the bill settlement. */
module Utils {
  import opened Types
  import opened Scoring

  /** The index of the first `c` in `s`, or `|s|` when there is none. */
  function IndexOf(s: string, c: char): (k: nat)
    ensures k <= |s| && c !in s[..k]
    ensures k < |s| ==> s[k] == c
    ensures k == |s| <==> c !in s
  {
    if s == [] then 0
    else if s[0] == c then 0
    else
      var k := IndexOf(s[1..], c);
      assert s[..k + 1] == [s[0]] + s[1..][..k];
      k + 1
  }

  /** `s.replace('#', '')`: only the first '#' goes. */
  function RemoveFirst(s: string, c: char): (r: string)
    ensures c !in s ==> r == s
    ensures c in s ==> |r| == |s| - 1 && c !in r[..IndexOf(s, c)] && r == s[..IndexOf(s, c)] + s[IndexOf(s, c) + 1..]
  {
    var k := IndexOf(s, c);
    if k < |s| then
      assert (s[..k] + s[k + 1..])[..k] == s[..k];
      s[..k] + s[k + 1..]
    else s
  }

  /**
   * `getSessionId` on a given hash: the hash without its '#' when that is
   * non-empty; otherwise the freshly generated id, which is also written into
   * the hash. Returns the id and the hash afterwards.
   */
  function ResolveSession(hash: string, freshId: string): (r: (string, string))
    ensures RemoveFirst(hash, '#') != "" ==> r == (RemoveFirst(hash, '#'), hash)
    ensures RemoveFirst(hash, '#') == "" ==> r.0 == freshId
    ensures RemoveFirst(hash, '#') == "" && freshId != "" ==> r.1 == "#" + freshId
    ensures RemoveFirst(hash, '#') == "" && freshId == "" ==> r.1 == ""
  {
    var h := RemoveFirst(hash, '#');
    if h != "" then (h, hash)
    else (freshId, if freshId == "" then "" else "#" + freshId)
  }

  /**
   * The id is stable: once resolved, resolving again from the hash it left
   * behind gives the same id, whatever fresh id would be generated.
   */
  lemma SessionIdStable(hash: string, freshId: string, otherId: string)
    requires ResolveSession(hash, freshId).0 != ""
    requires '#' !in freshId
    ensures ResolveSession(ResolveSession(hash, freshId).1, otherId).0 == ResolveSession(hash, freshId).0
  {
    var h := RemoveFirst(hash, '#');
    if h == "" {
      assert ("#" + freshId)[0] == '#';
      assert ("#" + freshId)[1..] == freshId;
    }
  }

  /** The browser location whose hash the room id lives in. */
  class Location {
    var hash: string

    constructor(hash: string)
      ensures this.hash == hash
    {
      this.hash := hash;
    }
  }

  /** `getSessionId`, writing the fresh id into the location when the hash is empty. */
  method GetSessionId(loc: Location, freshId: string) returns (id: string)
    modifies loc
    ensures (id, loc.hash) == ResolveSession(old(loc.hash), freshId)
  {
    var hash := RemoveFirst(loc.hash, '#');
    if hash == "" {
      var newId := freshId;
      loc.hash := if newId == "" then "" else "#" + newId;
      return newId;
    }
    return hash;
  }

  /**
   * One row of the bill: the player's own fields plus the table share, the
   * bet exchange (den mode only) and what the player pays in total.
   */
  datatype BillingRow = BillingRow(player: Player, tableShare: real, gameExchange: Option<real>, total: real)

  /** The two 1vs1 shares (p1, p2): halves on 'equal' or a tie, otherwise 30% for the leader. */
  function OneVsOneShares(tableBill: int, splitMode: SplitMode, s1: int, s2: int): (r: (real, real))
    ensures r.0 + r.1 == tableBill as real
    ensures splitMode == Equal || s1 == s2 ==> r.0 == r.1
    ensures splitMode == SeventyThirty && s1 > s2 ==> r == (tableBill as real * 0.3, tableBill as real * 0.7)
    ensures splitMode == SeventyThirty && s1 < s2 ==> r == (tableBill as real * 0.7, tableBill as real * 0.3)
  {
    if splitMode == Equal || s1 == s2 then (tableBill as real / 2.0, tableBill as real / 2.0)
    else
      var p1Win := s1 > s2;
      (if p1Win then tableBill as real * 0.3 else tableBill as real * 0.7,
       if !p1Win then tableBill as real * 0.3 else tableBill as real * 0.7)
  }

  /** The den rows: an equal share of the table, minus score times bet, plus the personal cost. */
  function DenRows(ps: seq<Player>, share: real, unitPrice: int): (r: seq<BillingRow>)
    ensures |r| == |ps|
    ensures forall i :: 0 <= i < |ps| ==>
      r[i].player == ps[i] && r[i].tableShare == share &&
      r[i].gameExchange == Some(-(ps[i].score * unitPrice) as real) &&
      r[i].total == share - (ps[i].score * unitPrice) as real + ps[i].personal as real
  {
    seq(|ps|, i requires 0 <= i < |ps| =>
      BillingRow(ps[i], share, Some(-(ps[i].score * unitPrice) as real),
                 share - (ps[i].score * unitPrice) as real + ps[i].personal as real))
  }

  /** `calculateBillingData`. */
  function CalculateBillingData(d: GameData): (r: seq<BillingRow>)
    ensures d.gameMode == OneVsOne && |d.players1vs1| < 2 ==> r == []
    ensures d.gameMode == OneVsOne && |d.players1vs1| >= 2 ==>
      |r| == 2 && r[0].player == d.players1vs1[0] && r[1].player == d.players1vs1[1] &&
      r[0].gameExchange.None? && r[1].gameExchange.None? &&
      r[0].tableShare + r[1].tableShare == d.tableBill as real &&
      r[0].total == r[0].tableShare + d.players1vs1[0].personal as real &&
      r[1].total == r[1].tableShare + d.players1vs1[1].personal as real
    ensures d.gameMode == OneVsOne && |d.players1vs1| >= 2 ==>
      (r[0].tableShare, r[1].tableShare) == OneVsOneShares(d.tableBill, d.splitMode, d.players1vs1[0].score, d.players1vs1[1].score)
    ensures d.gameMode == Den ==>
      r == DenRows(d.playersDen, d.tableBill as real / (if |d.playersDen| == 0 then 1 else |d.playersDen|) as real, d.unitPrice)
  {
    if d.gameMode == OneVsOne then
      if |d.players1vs1| < 2 then []
      else
        var p1 := d.players1vs1[0];
        var p2 := d.players1vs1[1];
        var (p1T, p2T) := OneVsOneShares(d.tableBill, d.splitMode, p1.score, p2.score);
        [BillingRow(p1, p1T, None, p1T + p1.personal as real), BillingRow(p2, p2T, None, p2T + p2.personal as real)]
    else
      var players := d.playersDen;
      var share := d.tableBill as real / (if |players| == 0 then 1 else |players|) as real;
      DenRows(players, share, d.unitPrice)
  }

  function SumTotals(rows: seq<BillingRow>): real {
    if rows == [] then 0.0 else SumTotals(rows[..|rows| - 1]) + rows[|rows| - 1].total
  }

  function SumExchange(rows: seq<BillingRow>): real {
    if rows == [] then 0.0 else SumExchange(rows[..|rows| - 1]) + rows[|rows| - 1].gameExchange.GetOr(0.0)
  }

  function SumPersonal(ps: seq<Player>): int {
    if ps == [] then 0 else SumPersonal(ps[..|ps| - 1]) + ps[|ps| - 1].personal
  }

  /** Column sums of the den rows. */
  lemma {:induction false} DenRowSums(ps: seq<Player>, share: real, unitPrice: int)
    ensures SumExchange(DenRows(ps, share, unitPrice)) == -(Sum(ps) * unitPrice) as real
    ensures SumTotals(DenRows(ps, share, unitPrice)) ==
      |ps| as real * share - (Sum(ps) * unitPrice) as real + SumPersonal(ps) as real
  {
    if ps != [] {
      var n := |ps| - 1;
      assert DenRows(ps, share, unitPrice)[..n] == DenRows(ps[..n], share, unitPrice);
      DenRowSums(ps[..n], share, unitPrice);
      assert (Sum(ps[..n]) + ps[n].score) * unitPrice == Sum(ps[..n]) * unitPrice + ps[n].score * unitPrice;
    }
  }

  /**
   * The den settlement is zero-sum on the bets: when the scores balance, the
   * exchanges cancel out and the players together pay exactly the table bill
   * plus their personal costs.
   */
  lemma DenSettlementBalances(d: GameData)
    requires d.gameMode == Den && |d.playersDen| > 0 && Sum(d.playersDen) == 0
    ensures SumExchange(CalculateBillingData(d)) == 0.0
    ensures SumTotals(CalculateBillingData(d)) == d.tableBill as real + SumPersonal(d.playersDen) as real
  {
    var n := |d.playersDen| as real;
    var share := d.tableBill as real / n;
    DenRowSums(d.playersDen, share, d.unitPrice);
    assert n * share == d.tableBill as real;
  }

  /** The two 1vs1 totals add up to the table bill plus both personal costs. */
  lemma OneVsOneSettlement(d: GameData)
    requires d.gameMode == OneVsOne && |d.players1vs1| >= 2
    ensures SumTotals(CalculateBillingData(d)) ==
      d.tableBill as real + d.players1vs1[0].personal as real + d.players1vs1[1].personal as real
  {
    var r := CalculateBillingData(d);
    assert r[..1][..0] == [];
    assert SumTotals(r[..1]) == r[0].total;
    assert r[..|r| - 1] == r[..1];
  }
}
