/**
 * The records every part of the scoring tool shares: the replicated
 * `GameData` document, its players and history entries, and the messages
 * that travel between a host and its viewers.
 */
module Types {

  datatype Option<+T> = None | Some(value: T) {
    function GetOr(default: T): T {
      match this
      case Some(v) => v
      case None => default
    }
  }

  /** '1vs1' is a race between two players; 'den' is a team table with a betting pool. */
  datatype GameMode = OneVsOne | Den

  /** '73': the winner pays 30% of the table and the loser 70%; 'equal': half each. */
  datatype SplitMode = SeventyThirty | Equal

  /** The kind of a history entry, and the filter the history view applies. */
  datatype HistoryFilter = All | Score | Balance | System | Info

  datatype Player = Player(id: int, name: string, score: int, personal: int, colorIdx: int)

  /** One `{ n, s }` pair of a den snapshot. */
  datatype NameScore = NameScore(n: string, s: int)

  /**
   * The score snapshot stored with a history entry: in 1vs1 mode a line built
   * from the first two players (either may be missing, which the source prints
   * as "undefined"); in den mode one pair per player; after a reset, the empty
   * string.
   */
  datatype Snapshot =
    | ScoreLine(first: Option<NameScore>, second: Option<NameScore>)
    | Roster(rows: seq<NameScore>)
    | Blank

  /**
   * The text of a history entry, kept structured instead of rendered:
   * "name: +d (old → new)", "Thêm người chơi: name", "Xóa người chơi: name",
   * "Cân bằng: name (old → new)" and "Bắt đầu trận đấu mới".
   */
  datatype Message =
    | ScoreMsg(name: string, delta: int, before: int, after: int)
    | AddedMsg(name: string)
    | RemovedMsg(name: string)
    | BalancedMsg(name: string, before: int, after: int)
    | NewMatchMsg

  datatype HistoryEntry = HistoryEntry(id: int, time: string, text: Message, kind: HistoryFilter, snapshot: Snapshot)

  /** The shot clock sub-state; `extensions` is only ever the empty record in the code modelled. */
  datatype ShotClock = ShotClock(seconds: int, initialSeconds: int, isRunning: bool, extensions: map<int, int>)

  /** The replicated document. `breakPlayerId` is absent from older data, hence optional. */
  datatype GameData = GameData(
    gameMode: GameMode,
    raceTo: int,
    unitPrice: int,
    tableBill: int,
    splitMode: SplitMode,
    history: seq<HistoryEntry>,
    players1vs1: seq<Player>,
    playersDen: seq<Player>,
    shotClock: ShotClock,
    breakPlayerId: Option<int>)
  {
    /** The player list of the given mode. */
    function Players(mode: GameMode): seq<Player> {
      if mode == OneVsOne then players1vs1 else playersDen
    }
  }

  /** The run of consecutive points scored by one player. */
  datatype Streak = Streak(playerId: Option<int>, count: int)

  const NoStreak := Streak(None, 0)

  /** A viewer's request to the host; the only action the code sends is SCORE. */
  datatype RemoteCommand = ScoreCommand(mode: GameMode, id: int, delta: int)

  datatype Reaction = Reaction(emoji: string, id: int)

  /** The wire envelope: GAME_DATA, REACTION or COMMAND. */
  datatype P2PMessage =
    | GameDataMsg(data: GameData)
    | ReactionMsg(reaction: Reaction)
    | CommandMsg(command: RemoteCommand)

  /**
   * What one call of a scoring action does to the outside world: nothing,
   * `handleUpdate(data)`, or `sendCommand(cmd)`.
   */
  datatype Effect = NoEffect | Update(data: GameData) | Send(command: RemoteCommand)

  /** JavaScript truthiness of the `winner` state: null and "" are both false. */
  predicate Latched(winner: Option<string>) {
    winner.Some? && winner.value != ""
  }
}
