# PST Pool Scoring Tool — a Dafny model of its scoring and session core

The PST Pool Scoring Tool keeps score for pool games played either as a
two-player race (`1vs1`, first to `raceTo`) or as a multi-player "den"
table where points move between players and the scores balance to zero.
One endpoint is the host. It owns the shared `GameData` document and
broadcasts every new version of it as a full snapshot to its viewers. The
scoring hook `hooks/useGameLogic.ts` lets a viewer send its score changes
upstream as commands, but the rendered `App.tsx` does not use that hook.
It has its own copy of the actions and takes neither `sendCommand` nor
`sendReaction` from the session hook, so in the app as rendered a viewer's
change is applied and stored locally and is not sent upstream. This
project models:

- `types.dfy` (Types): the records of `types.ts`. Two fields the code
  reads and `GameData` does not declare are added: the shot clock and the
  break holder. The module also defines the messages of the wire protocol
  and `Effect`, which is what a scoring action asks for: nothing, a
  `handleUpdate` with new data, or a command sent to the host. `Latched` is
  the truthiness of the `winner` string.
- `constants.dfy` (Constants): the default template and the eight-colour
  palettes.
- `scoring.dfy` (Scoring): the list work both scoring families share. It
  includes the score map with its outer-variable bookkeeping (a loop), the
  auto-balance assignment (a loop), the in-place swap of `movePlayer` (an
  array), the streak and the min/max scores.
- `history.dfy` (History): `addHistory`. It prepends and caps the log at
  100, and it is the same code in the hook and in `App.tsx`.
- `transitions.dfy` (Transitions): the `GameData` transitions whose code is
  the same in the hook and in `App.tsx`: rescore, rename, den add and
  remove, auto-balance, reorder, and the fresh-match template.
- `game_logic.dfy` (GameLogic): `hooks/useGameLogic.ts`. It holds the host
  and viewer guards, the winner latch and restore effect, the break toggle,
  the den-roster bounds [2, 5] and the reset. The class `ScoreHook` holds
  the `winner` and `streak` state.
- `app_logic.dfy` (AppLogic): the older variant of the same actions in
  `App.tsx`, which is the component that is rendered. The class `AppState`
  holds `winner`, `streak` and the one-step reset backup.
- `game_sync.dfy` (GameSync): `hooks/useGameSync.ts` as a state machine.
  - The class `Session` holds the role, the downstream connections (ids with
    an open flag), the peer count and the single pending-command slot.
  - Sends are appended to `outbox` as (connection id, message) pairs.
  - `localStorage` is the map `store`.
- `utils.dfy` (Utils): room-id resolution from the URL hash, and the bill
  settlement with exact `real` shares.
- `team_player_card.dfy`, `score_board.dfy`, `billing_view.dfy` and
  `history_modal.dfy`: the derivations and edits of the components of the
  same names.

`Date.now()` ids, the `getCurrentTime()` clock string, generated room ids,
`window.confirm`, the outcome of `parseInt`, whether the Peer library is
loaded, and the ids the transport assigns are all parameters.

## Model

| member | source | states |
|---|---|---|
| Constants.PlayerColors | constants.ts:4-13 | both themes give eight colours with pairwise distinct hues, so `colorIdx` is taken modulo 8 |
| Constants.DefaultGameData | constants.ts:25-47 | the template is 1vs1, race to 7, bet 10000, bill 0, split 70/30, empty log; two 1vs1 players with ids 1 and 2 at score 0; three den players with ids 1..3 at score 0; the shot clock at 30 of 30 and stopped |
| Scoring.ApplyDelta | hooks/useGameLogic.ts:90-115 | the score map rebuilds the list with every player of the id rescored (clamped at 0 when asked) and leaves the last matching player's name, old score and new score in the outer variables |
| Scoring.AssignScore | hooks/useGameLogic.ts:199-206 | the balance map gives every player of the id the new score, keeps the others, and reports the last match's name and old score |
| Scoring.MovePlayer | hooks/useGameLogic.ts:211-221 | the in-place swap yields a new list exactly when the neighbour index is in range; that list is the swap of the two slots and a permutation of the roster |
| Scoring.NextStreak | hooks/useGameLogic.ts:79-83 | a point extends the scorer's run or starts a new one at delta; a correction by the holder clears the streak; any other change keeps it |
| Scoring.LastWithIdSpec | hooks/useGameLogic.ts:91-104 | the player the outer variables describe is the last one with the id, and is absent only when no player has the id |
| Scoring.BalancedSumsToZero | hooks/useGameLogic.ts:192-209 | when exactly one player has the target id, giving it minus the others' total makes the den total 0 |
| Scoring.SwapPermutes | hooks/useGameLogic.ts:217 | swapping two slots keeps the multiset of players |
| Scoring.MoveDownThenUp | hooks/useGameLogic.ts:211-221 | moving a player down and then back up restores the roster |
| Scoring.DefaultDenRoster | constants.ts:36-40 | the default den roster has between two and five players, unique ids and total 0 |
| Scoring.MaxScore | components/TeamPlayerCard.tsx:73-74 | the result bounds every score from above and is some player's score |
| Scoring.MinScore | components/TeamPlayerCard.tsx:75 | the result bounds every score from below and is some player's score |
| History.AddHistory | hooks/useGameLogic.ts:48-64 | the new log starts with the new entry (id, time, text, kind, snapshot of the data), continues with a prefix of the old log, and holds at most 100 entries |
| History.AddHistoryEvictsOldest | hooks/useGameLogic.ts:63 | on a full log exactly the oldest entry is dropped |
| Transitions.RenamedData | App.tsx:103-108 | every player of the id in the mode's list gets the new name; nothing else in any player or in the document changes |
| Transitions.WithDenPlayer | hooks/useGameLogic.ts:163-174 | the roster grows by one appended player with id `now`, score 0, personal 0 and colour index `len % 8`; a 'system' entry is logged; nothing else changes |
| Transitions.WithoutDenPlayer | hooks/useGameLogic.ts:182-188 | the roster loses every player of the id; a 'system' entry is logged only if such a player existed; nothing else changes |
| Transitions.WithoutIdSpec | hooks/useGameLogic.ts:184 | the filter keeps exactly the players with another id and shrinks the list by the number of matches |
| Transitions.BalancedData | App.tsx:136-152 | only the target's score changes, to minus the others' total; with the target present once, the den total becomes 0; a 'balance' entry is logged; nothing else changes |
| Transitions.AutoBalanced | hooks/useGameLogic.ts:194-208 | the filter-reduce and the map compute exactly the balanced document |
| Transitions.ScoredData | hooks/useGameLogic.ts:85-127 | only players of the id change; a 1vs1 score becomes `max(0, old+delta)` and a den score `old+delta`, so the den total moves by delta per match; the other list is untouched; the clock is reset and stopped when asked and otherwise kept; a 'score' entry is logged |
| Transitions.Scored | hooks/useGameLogic.ts:85-128 | the loop-based update computes exactly the rescored document |
| Transitions.RescoredSum | hooks/useGameLogic.ts:106-114 | an unclamped change moves the total by delta times the number of matching players |
| Transitions.Zeroed | hooks/useGameLogic.ts:230-234 | every player keeps all fields except the score, which becomes 0; the total is 0 |
| Transitions.FreshMatch | App.tsx:168-169 | the fresh match is the default template with exactly one 'system' entry |
| Transitions.MovedData | App.tsx:154-163 | the reorder issues an update exactly when the neighbour index is in range, and that update permutes the roster |
| GameLogic.DerivedWinner | hooks/useGameLogic.ts:23-38 | a winner exists only in 1vs1 with a positive target; it is p1 if p1 reached the target, otherwise p2 if p2 did, otherwise nobody |
| GameLogic.ScoreEffect | hooks/useGameLogic.ts:67-73 | a viewer sends exactly the SCORE command and changes nothing; a host with a winner refuses exactly the positive deltas; otherwise the host rescores, resetting the clock exactly on a point |
| GameLogic.StreakAfter | hooks/useGameLogic.ts:78-83 | the streak moves only on a call that passes the host and winner guards, and then it moves as the streak rule says |
| GameLogic.ToggleBreak | hooks/useGameLogic.ts:132-145 | the host in 1vs1 passes the break to p2 when p1 holds it and to p1 otherwise, changing nothing else; anyone else changes nothing |
| GameLogic.ToggleBreakAlternates | hooks/useGameLogic.ts:140 | with distinct ids the break always lands on one of the two players, changes hands when one of them holds it, and comes back after two toggles |
| GameLogic.EditName | hooks/useGameLogic.ts:149-155 | only the host renames |
| GameLogic.AddPlayerDen | hooks/useGameLogic.ts:158-175 | the host adds exactly when the table has fewer than five players |
| GameLogic.RemovePlayerDen | hooks/useGameLogic.ts:177-189 | the host removes exactly when the table has more than two players |
| GameLogic.WithoutIdUnique | hooks/useGameLogic.ts:184 | removing a player keeps ids unique |
| GameLogic.DenRosterBounded | hooks/useGameLogic.ts:158-189 | a den roster of 2 to 5 players with unique ids stays so under every add and remove |
| GameLogic.AutoBalanceEffect | hooks/useGameLogic.ts:192-209 | only the host balances |
| GameLogic.MoveEffect | hooks/useGameLogic.ts:211-221 | the host swaps with the neighbour exactly when its index is in range; otherwise, and for a viewer, nothing happens |
| GameLogic.ResetData | hooks/useGameLogic.ts:223-240 | the reset keeps mode, target and bet, clears the bill, zeroes the active list's scores and keeps its players, takes everything else from the template, and logs one 'system' entry |
| GameLogic.ResetClearsWinner | hooks/useGameLogic.ts:223-240 | after a reset nobody has won |
| GameLogic.ScoreDecidesWinner | hooks/useGameLogic.ts:23-38 | a change that takes a player to the target or beyond makes that player the derived winner; one that leaves both players below the target clears it |
| GameLogic.RaceToSevenScenario | hooks/useGameLogic.ts:67-129 | at 6–5 in a race to 7: a point wins, a further point for either player is refused, and a correction is applied and clears the winner |
| GameLogic.ScoreHook.constructor | hooks/useGameLogic.ts:19-20 | no winner and no streak at first |
| GameLogic.ScoreHook.RestoreWinner | hooks/useGameLogic.ts:23-38 | the effect sets `winner` to the winner derived from the data |
| GameLogic.ScoreHook.UpdateScore | hooks/useGameLogic.ts:67-129 | one call yields the score effect and moves the streak as the guards allow |
| GameLogic.ScoreHook.AutoBalance | hooks/useGameLogic.ts:192-209 | the loop-based balance yields the host's balance effect |
| GameLogic.ScoreHook.MovePlayer | hooks/useGameLogic.ts:211-221 | the array swap yields the host's move effect |
| GameLogic.ScoreHook.ResetGame | hooks/useGameLogic.ts:223-240 | installs the reset data and clears winner and streak |
| AppLogic.WinnerHit | App.tsx:74-85 | the map names a winner only if some matching player's clamped new score equals the positive target, and otherwise names nobody |
| AppLogic.ScoreEffect | App.tsx:59-101 | nothing happens whenever a winner stands, whatever the sign of delta; otherwise the data is rescored without touching the shot clock |
| AppLogic.WinnerAfter | App.tsx:59-85 | a standing winner and a den change keep the winner; otherwise, a 1vs1 change sets the winner to the player whose clamped new score lands exactly on a positive target, and keeps it when nobody does; a new winner is always the name of a 1vs1 player |
| AppLogic.OvershootNamesNobody | App.tsx:79-81 | a change that jumps past the target names nobody |
| AppLogic.AddPlayerDen | App.tsx:110-123 | the player is always appended, with no cap |
| AppLogic.RemovePlayerDen | App.tsx:125-134 | removes exactly when the table has more than two players |
| AppLogic.NoDenCap | App.tsx:110-123 | an add to a table of five leaves more than five players |
| AppLogic.AppState.constructor | App.tsx:18-25 | no winner, no streak and no backup at first |
| AppLogic.AppState.UpdateScore | App.tsx:59-101 | one call yields the App score effect, sets the winner from inside the map, and moves the streak unless a winner stands |
| AppLogic.AppState.ScoreMap | App.tsx:73-85 | the 1vs1 map rescores with the clamp, reports the last match, and latches the winner on an exact hit |
| AppLogic.AppState.ResetAllData | App.tsx:165-174 | after confirmation: the backup is the current data, the fresh match is installed, and winner and streak are cleared; without confirmation nothing changes |
| AppLogic.AppState.RecallData | App.tsx:176-180 | without a backup nothing happens; with one it is reinstalled and forgotten |
| AppLogic.ResetThenRecall | App.tsx:165-180 | a reset followed by a recall gives back exactly the prior data, and a second recall does nothing |
| GameSync.PeerId | hooks/useGameSync.ts:44 | the host's peer id is the prefix followed by the room id |
| GameSync.StorageKey | hooks/useGameSync.ts:76 | the storage key is the prefix followed by the room id |
| GameSync.KeysSeparateRooms | hooks/useGameSync.ts:44 | different rooms never share a peer id or a storage key |
| GameSync.DeliveriesExactlyOpen | hooks/useGameSync.ts:36-40 | a broadcast reaches exactly the open connections, once each, with the message unchanged |
| GameSync.WithoutConn | hooks/useGameSync.ts:131 | a close keeps exactly the connections with other ids |
| GameSync.Session.constructor | hooks/useGameSync.ts:10-30 | the initial data is the stored snapshot if there is one, else the template; the endpoint starts loading, offline, not host, with no peers |
| GameSync.Session.Start | hooks/useGameSync.ts:42-57 | connections and peer count are reset; without the Peer library the endpoint is host at once, otherwise it claims the room id |
| GameSync.Session.OnOpen | hooks/useGameSync.ts:69-102 | the room's own id makes the endpoint host and online, loading the stored snapshot if present; any other id makes it a viewer with one connection |
| GameSync.Session.OnError | hooks/useGameSync.ts:136-147 | a taken id retries without claiming it; any other error leaves an offline host, flagging exactly the two browser errors |
| GameSync.Session.OnConnection | hooks/useGameSync.ts:105-115 | the connection is appended, the count rises by one, and the stored snapshot is sent to it if present |
| GameSync.Session.Broadcast | hooks/useGameSync.ts:36-40 | the loop sends to exactly the open connections, in order |
| GameSync.Session.OnDownstreamData | hooks/useGameSync.ts:118-128 | a REACTION is shown and relayed to every open connection, the sender's included; a COMMAND overwrites the pending slot; nothing else changes |
| GameSync.Session.OnDownstreamClose | hooks/useGameSync.ts:130-133 | the connection is dropped and the count becomes `max(0, count-1)`, so it never goes negative |
| GameSync.Session.OnUpstreamOpen | hooks/useGameSync.ts:84-87 | the viewer becomes online and stops loading |
| GameSync.Session.OnUpstreamData | hooks/useGameSync.ts:89-98 | GAME_DATA replaces the document wholesale and is stored under the room key; a REACTION changes only the shown reaction |
| GameSync.Session.OnUpstreamClose | hooks/useGameSync.ts:100 | the viewer goes offline |
| GameSync.Session.SyncSettled | hooks/useGameSync.ts:94 | the syncing indicator clears |
| GameSync.Session.HandleUpdate | hooks/useGameSync.ts:164-172 | the document is always installed and stored; it is broadcast exactly when the endpoint is an online host |
| GameSync.Session.SendReaction | hooks/useGameSync.ts:175-185 | the reaction is always shown locally; the host broadcasts it and an online viewer sends it upstream |
| GameSync.Session.SendCommand | hooks/useGameSync.ts:188-194 | only an online viewer sends, upstream only; the document is untouched |
| GameSync.CommandsOverwrite | hooks/useGameSync.ts:124-127 | after two commands only the second is pending |
| Utils.RemoveFirst | utils.ts:7 | only the first '#' is removed |
| Utils.ResolveSession | utils.ts:6-14 | a non-empty id in the hash is returned and the hash is kept; otherwise the fresh id is returned and written into the hash (an empty fresh id leaves the hash empty) |
| Utils.SessionIdStable | utils.ts:6-14 | resolving again from the hash left behind gives the same id |
| Utils.GetSessionId | utils.ts:6-14 | the method returns the resolved id and leaves the resolved hash in the location |
| Utils.OneVsOneShares | utils.ts:25-31 | equal halves on 'equal' or a tie, otherwise 30% for the leader and 70% for the other; the shares always add up to the bill |
| Utils.DenRows | utils.ts:37-44 | one row per den player, in order: the equal share, the exchange `-(score*bet)`, and the total share plus exchange plus personal |
| Utils.CalculateBillingData | utils.ts:18-46 | an empty bill for fewer than two 1vs1 players; two 1vs1 rows in player order with no exchange, the shares by the split rule (halves, or 30% for the leader and 70% for the other), and total share plus personal; den rows with share `bill / (len or 1)` |
| Utils.DenRowSums | utils.ts:38-44 | the exchanges add up to minus the total score times the bet |
| Utils.DenSettlementBalances | utils.ts:38-44 | with balanced scores the exchanges cancel and the totals add up to the bill plus the personal costs |
| Utils.OneVsOneSettlement | utils.ts:32-35 | the two 1vs1 totals add up to the bill plus both personal costs |
| TeamPlayerCard.PreviewMatchesAutoBalance | components/TeamPlayerCard.tsx:69-71 | the previewed score equals the score auto-balance gives the player |
| TeamPlayerCard.BadgesExclusive | components/TeamPlayerCard.tsx:77-79 | a player is never both highest and lowest |
| TeamPlayerCard.SomeBadgeOnImbalance | components/TeamPlayerCard.tsx:73-79 | an imbalanced table has a highest or a lowest player |
| TeamPlayerCard.Status | components/TeamPlayerCard.tsx:81-92 | the status is fever first, then highest, then lowest, then plain |
| TeamPlayerCard.Press | components/TeamPlayerCard.tsx:122-166 | in normal mode the arrows score -1 and +1; in manage mode they move the card by +1 and -1; the trash works only in manage mode; a score tap opens the balance dialog exactly outside manage mode on an imbalanced table |
| TeamPlayerCard.BalanceDialogOnlyWhenUseful | components/TeamPlayerCard.tsx:143 | the balance dialog opens only when balancing changes the total |
| TeamPlayerCard.DownThenUpRestores | components/TeamPlayerCard.tsx:122-161 | pressing down and then up on the moved card restores the roster |
| ScoreBoard.LeadingScore | components/ScoreBoard.tsx:36 | 0 for an empty list, otherwise the largest score |
| ScoreBoard.HillHillIsMatchPoint | components/ScoreBoard.tsx:37 | at hill-hill a point for either player makes that player the derived winner |
| ScoreBoard.RaceToDown | components/ScoreBoard.tsx:73 | the target becomes `max(1, raceTo-1)` and nothing else changes |
| ScoreBoard.RaceToUp | components/ScoreBoard.tsx:75 | the target becomes `raceTo+1` and nothing else changes |
| ScoreBoard.RaceToEditsInverse | components/ScoreBoard.tsx:73-75 | up then down restores the document |
| ScoreBoard.SwitchMode | components/ScoreBoard.tsx:59-60 | only the mode changes |
| ScoreBoard.SwitchModeRoundTrip | components/ScoreBoard.tsx:59-60 | switching away and back restores the document |
| ScoreBoard.BalanceIndicator | components/ScoreBoard.tsx:82-83 | BALANCED exactly when the den total is 0, otherwise the total |
| ScoreBoard.AutoBalanceShowsBalanced | components/ScoreBoard.tsx:82-83 | after auto-balance on a present target the indicator shows BALANCED |
| ScoreBoard.ThreeInARowIsFever | components/ScoreBoard.tsx:107 | the third point in a row puts the scorer in fever |
| ScoreBoard.CorrectionEndsFever | components/ScoreBoard.tsx:107 | a correction by the streak holder ends the fever |
| BillingView.ParsedThousands | components/BillingView.tsx:50 | an unparsable input gives 0, otherwise the value times 1000 |
| BillingView.UpdatePersonalCost | components/BillingView.tsx:19-30 | only the personal cost of players of the id in the active list changes; the other list and the rest of the document are untouched |
| BillingView.PersonalCostOnBill | components/BillingView.tsx:17-30 | in den mode the new personal cost shows in that player's total on the bill, on top of the same share and exchange, and every other row is unchanged |
| BillingView.PersonalCostOnBillOneVsOne | components/BillingView.tsx:17-30 | in 1vs1 the new personal cost shows in that player's total on the bill, on top of the same share, and the other row is unchanged |
| BillingView.EditFee | components/BillingView.tsx:50 | only the bill changes, to the parsed thousands |
| BillingView.EditBet | components/BillingView.tsx:65 | only the bet changes, to the parsed thousands |
| BillingView.EditSplit | components/BillingView.tsx:76 | only the split mode changes |
| BillingView.EditPersonal | components/BillingView.tsx:96 | the personal cost becomes the parsed thousands |
| HistoryModal.FilterAllIsIdentity | components/modals/HistoryModal.tsx:18-20 | the 'all' filter returns the log unchanged |
| HistoryModal.FilterKinds | components/modals/HistoryModal.tsx:19 | any other filter returns only entries of its kind, and keeps every such entry |
| HistoryModal.FilterIsSubsequence | components/modals/HistoryModal.tsx:18-20 | the result is an order-preserving subsequence of the log |
| HistoryModal.FilterIdempotent | components/modals/HistoryModal.tsx:18-20 | filtering twice equals filtering once |
| HistoryModal.InfoOnlyUnderAll | components/modals/HistoryModal.tsx:22-27 | no button offers 'info', so 'info' entries show only under 'all' |

## Left out

- The transport library's internals, STUN configuration, timing and delivery order are not modelled. The transport is an abstract outbox plus event methods. `SetOpen` stands for a channel opening or closing. Destroying and recreating the peer is the `attemptHost` flag.
- The JSON round trip through `localStorage` and its try/catch are not modelled. The store holds parsed documents, and corrupt stored text is not modelled.
- The `hashchange` listener and the rest of `window.location` are not modelled. Only the hash is modelled, in `Utils.Location`.
- Vibration, sounds (including the win sound in `updateScore`), confetti, and the timer that clears the syncing flag are not modelled. `SyncSettled` is the timer's callback.
- History texts and snapshots are structured values (`Message`, `Snapshot`), not rendered strings. `toLocaleString` formatting is not modelled.
- Scoring.Letter: a roster long enough to run `65 + n` into the surrogate range gives '?' instead of a lone surrogate. Tables never get that large.
- The single-host guarantee across several endpoints is not stated. It rests on the rendezvous server refusing a taken id, and the model covers one endpoint.
- No code drains `pendingCommand` or ticks the shot clock, so neither is modelled.
- `addHistory` in `App.tsx` (lines 41-57) is the same function as in the hook, and both use `History.AddHistory`. `editName`, `autoBalance` and `movePlayer` in `App.tsx` use the shared `Transitions` functions without a host check.
- The CSV export and the clipboard are not modelled.
- Billing shares are exact reals. `Math.round` and IEEE rounding are not modelled.
- The ScoreBoard heartbeat, the shot-clock percentage and the display-only classifications are not modelled.
- GameLogic.MoveEffect and Scoring.MovePlayer require an index inside the roster, as every card passes its own index. In JavaScript an out-of-range index would write an array property instead.
- GameLogic.DerivedWinner and GameLogic.ToggleBreak require that the 1vs1 players they read exist. In JavaScript a missing player throws.
- TeamPlayerCard.Status and the badges require a non-empty den table, as a card always belongs to one. `Math.max()` over nothing is not modelled.
- ScoreBoard.ThreeInARowIsFever assumes a non-negative streak count, which every streak built by the scoring rule has.

Behaviours of the code that are easy to miss, kept as written:

- The host relays a REACTION to every open connection, the sender's included. The comment at hooks/useGameSync.ts:122 says "Forward to other viewers", but the call at hooks/useGameSync.ts:123 is `broadcast(msg)`, which sends to all open connections.
- `App.tsx` blocks corrections as well as points once a winner stands.
- `App.tsx` declares a winner only on an exact hit of the target, while the hook uses `>=`.
- `App.tsx` has no cap on den additions.
- `App.tsx` never calls the scoring hook, so `sendCommand` has no caller in the rendered app. A viewer's change goes through `handleUpdate`, which installs and stores it locally and broadcasts nothing (`GameSync.Session.HandleUpdate`). The hook's viewer path is modelled as written (`GameLogic.ScoreEffect`, `GameSync.Session.SendCommand`), not as behaviour of the rendered app.
