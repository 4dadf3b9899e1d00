/** The bounded history log: newest entry first, at most 100 entries. */
module History {
  import opened Types

  const MaxHistory := 100

  function At(ps: seq<Player>, i: nat): Option<NameScore> {
    if i < |ps| then Some(NameScore(ps[i].name, ps[i].score)) else None
  }

  /** The score snapshot taken of the data the entry is added to. */
  function SnapshotOf(d: GameData): Snapshot {
    if d.gameMode == OneVsOne then ScoreLine(At(d.players1vs1, 0), At(d.players1vs1, 1))
    else Roster(seq(|d.playersDen|, i requires 0 <= i < |d.playersDen| =>
                  NameScore(d.playersDen[i].name, d.playersDen[i].score)))
  }

  /**
   * `after` is `before` with one new entry of the given text and kind in
   * front, truncated to the cap: the head is new, the tail is a prefix of the
   * old log.
   */
  predicate Logged(before: seq<HistoryEntry>, after: seq<HistoryEntry>, text: Message, kind: HistoryFilter) {
    1 <= |after| <= MaxHistory && |after| - 1 <= |before| &&
    after[0].text == text && after[0].kind == kind && after[1..] == before[..|after| - 1]
  }

  /**
   * `addHistory`: prepend a new entry stamped with the given id and clock
   * string and keep the first 100 entries.
   */
  function AddHistory(d: GameData, text: Message, kind: HistoryFilter, now: int, clock: string): (h: seq<HistoryEntry>)
    ensures 1 <= |h| <= MaxHistory
    ensures h[0] == HistoryEntry(now, clock, text, kind, SnapshotOf(d))
    ensures |h| == if |d.history| < MaxHistory then |d.history| + 1 else MaxHistory
    ensures h[1..] == d.history[..|h| - 1]
    ensures Logged(d.history, h, text, kind)
  {
    var all := [HistoryEntry(now, clock, text, kind, SnapshotOf(d))] + d.history;
    if |all| <= MaxHistory then all else all[..MaxHistory]
  }

  /** Once the log is full, adding an entry evicts exactly the oldest one. */
  lemma AddHistoryEvictsOldest(d: GameData, text: Message, kind: HistoryFilter, now: int, clock: string)
    requires |d.history| == MaxHistory
    ensures AddHistory(d, text, kind, now, clock) ==
      [HistoryEntry(now, clock, text, kind, SnapshotOf(d))] + d.history[..MaxHistory - 1]
    ensures d.history[MaxHistory - 1] !in AddHistory(d, text, kind, now, clock)[1..] ||
      d.history[MaxHistory - 1] in d.history[..MaxHistory - 1]
  {
  }
}
