# Tile-claim arena: a Dafny model of the room server and the client board

This project models a two-team multiplayer mini-game. Players walk over floor
tiles to claim them for their team. The team with more tiles when the timer
runs out wins.

The main part is the authoritative room server. It has three parts:

- **Player registry.** `onJoin` and `onLeave` keep the `userId → Player` map.
  A joining player's team is the number of players already present plus one.
- **Message router.** It handles three messages:
  - `CharacterTransform` sets a known player's position and ignores unknown senders;
  - `CharacterState` sets the sender's locomotion state;
  - `ChangeGroundColor` is echoed to everyone as `ChangeGroundColorReceive`.
- **Game-phase machine.** It is driven by ticks and cycles Wait → Game → Result → Wait.
  It counts milliseconds, shows a countdown timer, and broadcasts
  `GameReady`, `GameStart`, `GameFinish`, `Result` and `Waiting`.

The room is the class `RoomServer.Room`. Its fields are those of the server:
the player map, the phase, the counters, the timer value, and a log of every
broadcast. `RoomSpec` is a pure description of the room (`RoomState` is a
snapshot of the fields). Each handler and phase method is proved to leave
exactly the state described by the matching function in `RoomSpec`, for
example `OnJoin` by `Join` and `OnTick` by `Tick`. Each `SendMessage*` method
appends one message to the log and changes nothing else. The methods that the host
calls also keep a phase invariant (`RoomProperties.Inv`). `RoomProperties`
proves what the handlers and ticks promise:

- each phase's tick, case by case;
- runs of ticks, such as the ready countdown, the game countdown and when `GameFinish` fires;
- team stability over any run of events.

The second part is the client's tile logic. It covers:

- tile types and their materials (`Tiles.Ground`);
- the board in child order, with its `Ground_i` names and its reset (`Board.GroundManager`);
- the claim rule when a character steps on a tile (`Trigger.GroundTrigger`);
- the team list, the handler that applies a relayed claim, and the effect of
  phase messages on the board and on movement (`Client.ClientScript`);
- the score count and the result decision (`UI.GameUI`).

`JsText` models the three JavaScript conversions this logic depends on: a
number's `toString`, `Number(s)` and `split`. It proves that a score written
with `toString` reads back unchanged. It also proves that a tile name
`Ground_i` parses back to index `i`.

Times are whole milliseconds. A tick's `deltaTime` is a natural number. The
source computes `Math.floor((61000 - gameTime) * 0.001)`. The model writes it
as `(61000 - gameTime) / 1000`. Dafny's `/` with a positive divisor rounds
down, so this stays equal to `Math.floor` once the timer is negative.

Three behaviours of the code are easy to misread:

- Entering Wait resets only `gameTime`. The timer keeps its last value (`RoomProperties.ResultTick`).
- The 4000 ms ready countdown only advances on ticks with exactly two players.
  It is not reset when the count drops, so it resumes where it stopped.
- `GameFinish` is sent on every tick whose timer value is 0, not once.
  A tick longer than a second can skip it (`RoomProperties.FinishSkippedByLongTick`).

## Model

| member | source | states |
|---|---|---|
| `RoomServer.Room.constructor` | Assets/MultiplayServer.multiplay/index.ts:88-106 | A new room is in Wait with no players, every counter at 0 and nothing broadcast, and satisfies the phase invariant |
| `RoomSpec.Join` | Assets/MultiplayServer.multiplay/index.ts:138-158 | Joining adds the user at the origin with state 0 and team = players already present + 1, overwrites an existing entry for that user, and leaves every other player and field as it was |
| `RoomServer.Room.OnJoin` | Assets/MultiplayServer.multiplay/index.ts:138-158 | The room after `onJoin` is `Join` of the room before, and the phase invariant still holds |
| `RoomSpec.Leave` | Assets/MultiplayServer.multiplay/index.ts:160-163 | Leaving removes exactly that user's key, keeps every remaining player unchanged (no team renumbering), and is a no-op for an absent user |
| `RoomServer.Room.OnLeave` | Assets/MultiplayServer.multiplay/index.ts:160-163 | The room after `onLeave` is `Leave` of the room before, and the invariant holds |
| `RoomSpec.MoveTo` | Assets/MultiplayServer.multiplay/index.ts:110-124 | A transform from an unknown user changes nothing; otherwise that player's position becomes exactly the payload's coordinates, and nothing else in any player changes |
| `RoomServer.Room.OnCharacterTransform` | Assets/MultiplayServer.multiplay/index.ts:110-124 | The `CharacterTransform` handler leaves `MoveTo` of the room before |
| `RoomSpec.SetCharacterState` | Assets/MultiplayServer.multiplay/index.ts:127-130 | For a present sender, only that player's `characterState` changes, to the payload value |
| `RoomServer.Room.OnCharacterState` | Assets/MultiplayServer.multiplay/index.ts:127-130 | The handler needs the sender to be present (its lookup is unchecked) and leaves `SetCharacterState` of the room before |
| `RoomSpec.RelayGroundColor` | Assets/MultiplayServer.multiplay/index.ts:132-135 | A claim appends exactly one `ChangeGroundColorReceive` carrying the identical payload and changes nothing else |
| `RoomServer.Room.OnChangeGroundColor` | Assets/MultiplayServer.multiplay/index.ts:132-135 | The relay handler leaves `RelayGroundColor` of the room before |
| `RoomSpec.SetGameState` | Assets/MultiplayServer.multiplay/index.ts:248-257 | Setting a phase makes it current, appends exactly one message to the log, and leaves the players and the player count alone |
| `RoomServer.Room.SetGameState` | Assets/MultiplayServer.multiplay/index.ts:248-257 | The method follows `SetGameState`: switch phase, then run that phase's initialiser |
| `RoomServer.Room.InitializeWait` | Assets/MultiplayServer.multiplay/index.ts:166-173 | Entering Wait resets only `gameTime` and broadcasts `Waiting` |
| `RoomServer.Room.InitializeGame` | Assets/MultiplayServer.multiplay/index.ts:175-184 | Entering Game resets `gameTime`, sets the timer to 60 and broadcasts `GameStart` |
| `RoomServer.Room.InitializeResult` | Assets/MultiplayServer.multiplay/index.ts:186-190 | Entering Result resets `resultTime` and broadcasts `Result` |
| `RoomServer.Room.UpdateWait` | Assets/MultiplayServer.multiplay/index.ts:192-209 | The Wait update follows `RoomSpec.UpdateWait` |
| `RoomServer.Room.UpdateGame` | Assets/MultiplayServer.multiplay/index.ts:211-232 | The Game update follows `RoomSpec.UpdateGame`, computing the timer by floor division |
| `RoomServer.Room.UpdateResult` | Assets/MultiplayServer.multiplay/index.ts:234-239 | The Result update follows `RoomSpec.UpdateResult` |
| `RoomServer.Room.OnTick` | Assets/MultiplayServer.multiplay/index.ts:241-245 | A tick runs the Wait, Game and Result updates in that order, leaves `RoomSpec.Tick` of the room before, and keeps the phase invariant |
| `RoomServer.Room.SendMessageWaiting` | Assets/MultiplayServer.multiplay/index.ts:259-262 | Appends one `Waiting` to the broadcast log |
| `RoomServer.Room.SendMessageGameReady` | Assets/MultiplayServer.multiplay/index.ts:264-267 | Appends one `GameReady` to the broadcast log |
| `RoomServer.Room.SendMessageGameStart` | Assets/MultiplayServer.multiplay/index.ts:269-272 | Appends one `GameStart` to the broadcast log |
| `RoomServer.Room.SendMessageGameFinish` | Assets/MultiplayServer.multiplay/index.ts:274-277 | Appends one `GameFinish` to the broadcast log |
| `RoomServer.Room.SendMessageResult` | Assets/MultiplayServer.multiplay/index.ts:279-282 | Appends one `Result` to the broadcast log |
| `RoomProperties.TimerValueSigns` | Assets/MultiplayServer.multiplay/index.ts:225-228 | The timer is 0 exactly when 60000 < gameTime ≤ 61000, positive before, and -1 or -2 between 61000 and the end of the game (it is not clamped) |
| `RoomProperties.InitialInv` | Assets/MultiplayServer.multiplay/index.ts:88-106 | A new room satisfies the phase invariant |
| `RoomProperties.TickPreservesInv` | Assets/MultiplayServer.multiplay/index.ts:192-245 | Every tick keeps the invariant: Wait ⇒ gameTime < 4000; Game ⇒ gameTime < 63000 and timer = floor((61000 - gameTime)/1000); Result ⇒ resultTime < 10000 |
| `RoomProperties.WaitTickUnderThreshold` | Assets/MultiplayServer.multiplay/index.ts:192-200 | In Wait, with a player count other than 2, a tick only caches the count: no time passes and nothing is sent |
| `RoomProperties.WaitTickCounting` | Assets/MultiplayServer.multiplay/index.ts:199-207 | In Wait with 2 players, short of 4000 ms, `gameTime` advances by the delta, and `GameReady` is sent iff `gameTime` was 0 before |
| `RoomProperties.WaitTickStartsGame` | Assets/MultiplayServer.multiplay/index.ts:199-216 | The tick that reaches 4000 ms enters Game. The Game update runs in the same tick, so `gameTime` equals the delta and the timer already counts it. The log gains `GameReady` (if the countdown started on this tick) and then `GameStart` |
| `RoomProperties.GameTickPlaying` | Assets/MultiplayServer.multiplay/index.ts:211-231 | In Game, before 63000 ms, a tick advances `gameTime` and recomputes the timer. It sends `GameFinish` iff the new timer is 0 |
| `RoomProperties.GameTickEnds` | Assets/MultiplayServer.multiplay/index.ts:211-239 | The tick that reaches 63000 ms enters Result, sends only `Result`, and the Result update counts the same delta |
| `RoomProperties.ResultTick` | Assets/MultiplayServer.multiplay/index.ts:166-173 | In Result, a tick advances `resultTime`. At 10000 ms the room returns to Wait with `gameTime` 0 and sends `Waiting`; the timer value is left unchanged |
| `RoomProperties.TickKeepsPlayers` | Assets/MultiplayServer.multiplay/index.ts:241-245 | No tick changes the player map |
| `RoomProperties.ReadyCountdown` | Assets/MultiplayServer.multiplay/index.ts:192-209 | With 2 players, Wait persists while the cumulative delta stays under 4000 ms. `gameTime` is the sum of the deltas, and `GameReady` goes out once, only if the countdown started from 0 |
| `RoomProperties.GameStartsAfterReadyDelay` | Assets/MultiplayServer.multiplay/index.ts:192-216 | From a fresh countdown, the game starts on the tick whose cumulative delta first reaches 4000 ms, with exactly `GameReady` then `GameStart` sent |
| `RoomProperties.PlayingCountdown` | Assets/MultiplayServer.multiplay/index.ts:211-232 | While a game runs, its time is the sum of the deltas and the timer follows it. The only broadcasts are one `GameFinish` per tick whose timer is 0 |
| `RoomProperties.FinishNotSkipped` | Assets/MultiplayServer.multiplay/index.ts:225-228 | With ticks of at most one second, a game that passes 61000 ms has sent `GameFinish` |
| `RoomProperties.FinishSkippedByLongTick` | Assets/MultiplayServer.multiplay/index.ts:225-228 | One 1500 ms tick from 60000 ms jumps the timer from 1 to -1 and sends no `GameFinish` |
| `RoomProperties.TeamStable` | Assets/MultiplayServer.multiplay/index.ts:110-163 | Over any run of joins, leaves, messages and ticks that neither re-joins nor removes a player, that player stays, with the team it was given |
| `RoomProperties.LeaveThenJoinRepeatsTeam` | Assets/MultiplayServer.multiplay/index.ts:154-162 | Teams are not renumbered: after a, b join, a leaves and c joins, b and c both have team 2 |
| `JsText.NatToString` | Assets/Scripts/GameUI.ts:151-152 | `toString` of a count gives a non-empty string of digits with no leading zero |
| `JsText.NumberOf` | Assets/Scripts/GameUI.ts:184-185 | `Number` is defined exactly on digit strings, and the empty string reads as 0; anything else is NaN |
| `JsText.NumberOfNatToString` | Assets/Scripts/GameUI.ts:151-185 | `Number` reads back exactly the count that `toString` wrote |
| `JsText.Split` | Assets/Scripts/ClientScript.ts:105 | `split` always yields at least one piece, no piece contains the separator, and a string without the separator is one piece |
| `JsText.JoinSplit` | Assets/Scripts/ClientScript.ts:105 | Joining the pieces of `split` with the separator gives back the original string, so nothing is lost or reordered |
| `JsText.SplitAtSeparator` | Assets/Scripts/ClientScript.ts:105 | Splitting `p + "_" + q`, where neither part contains `_`, yields exactly `[p, q]` |
| `Tiles.MaterialFor` | Assets/Scripts/Ground.ts:14-24 | Types 0, 1 and 2 select the None, Red and Purple materials; any other value selects none |
| `Tiles.Ground.constructor` | Assets/Scripts/Ground.ts:10 | A new tile has type None (0) |
| `Tiles.Ground.SetType` | Assets/Scripts/Ground.ts:12-28 | Any value is stored as the type; the material follows it for 0..2 and is left unchanged otherwise |
| `Tiles.Ground.GetType` | Assets/Scripts/Ground.ts:30-32 | Returns the stored type and changes nothing |
| `Board.GroundManager.constructor` | Assets/Scripts/GroundManager.ts:28 | The tile list starts empty |
| `Board.GroundManager.InitializeGround` | Assets/Scripts/GroundManager.ts:34-44 | The previous list is replaced by the children's tiles in child order (so its length is the child count), child i is renamed `Ground_i`, and types and materials are untouched |
| `Board.GroundManager.ResetGround` | Assets/Scripts/GroundManager.ts:46-49 | Every tile becomes None with the None material, whatever it was (so a second reset changes nothing); list, order and names stay |
| `Client.Lookup` | Assets/Scripts/ClientScript.ts:310-313 | Team-list lookup is absent iff no entry has the name, and with distinct names yields that entry's team |
| `Client.Put` | Assets/Scripts/ClientScript.ts:245-252 | `Map.set` keeps a present key in place with the new team, or appends a new key at the end. Other entries are untouched and keys stay distinct |
| `Client.ParseGroundName` | Assets/Scripts/ClientScript.ts:104-105 | The index parsed from `Ground_i` (split on `_`, `Number` of the second piece) is i |
| `Client.ClientScript.constructor` | Assets/Scripts/ClientScript.ts:79-87 | The player cache and the team list start empty |
| `Client.ClientScript.GetTeam` | Assets/Scripts/ClientScript.ts:310-313 | Returns 0 when the name is not in the team list, and the stored team otherwise |
| `Client.ClientScript.RegisterTeam` | Assets/Scripts/ClientScript.ts:245-252 | A loaded character's team is recorded under its name with `Map.set` semantics; names stay distinct |
| `Client.ClientScript.OnPlayerAdd` | Assets/Scripts/ClientScript.ts:165-182 | An already cached user id changes nothing. Otherwise exactly that entry is cached and one avatar creation is requested, marked local iff it is this client's user |
| `Client.ClientScript.OnPlayerRemove` | Assets/Scripts/ClientScript.ts:184-187 | An uncached user id changes nothing; a cached one requests one avatar removal and is never deleted from the cache |
| `Client.RemoveThenAddIsIgnored` | Assets/Scripts/ClientScript.ts:165-187 | Because a removal keeps the cache entry, re-adding the same user id is ignored and no second avatar is requested |
| `Client.ClientScript.OnOffCharacterControl` | Assets/Scripts/ClientScript.ts:316-327 | `true` sets walk/run/jump to 2/5/5; `false` sets all three to 0 |
| `Client.ClientScript.ResetGame` | Assets/Scripts/ClientScript.ts:329-337 | Resetting the game sets every tile back to None with the None material and keeps every tile's name |
| `Client.ClientScript.OnChangeGroundColorReceive` | Assets/Scripts/ClientScript.ts:100-112 | A claim naming a valid index sets that tile's type to the claim's team (not its `groundType`) and its material to that team's, leaving every other tile's type and material unchanged. A name without a valid index changes no tile. No tile's name changes, so `Ground_i` names stay valid |
| `Client.ClientScript.OnWaiting` | Assets/Scripts/ClientScript.ts:114-120 | `Waiting` clears the board (type and material None, names kept) and enables movement |
| `Client.ClientScript.OnGameReady` | Assets/Scripts/ClientScript.ts:122-128 | `GameReady` clears the board (type and material None, names kept) and disables movement |
| `Client.ClientScript.OnGameStart` | Assets/Scripts/ClientScript.ts:130-136 | `GameStart` clears the board (type and material None, names kept) and enables movement |
| `Client.ClientScript.OnGameFinish` | Assets/Scripts/ClientScript.ts:138-142 | `GameFinish` disables movement and leaves the board as it is |
| `Trigger.GroundTrigger.constructor` | Assets/Scripts/GroundTrigger.ts:13-15 | The trigger is bound to its parent tile |
| `Trigger.GroundTrigger.OnTriggerEnter` | Assets/Scripts/GroundTrigger.ts:17-39 | A claim is sent iff the tile's type differs from the toucher's team. It carries that team, the tile's name and the tile's current type. The tile bounces either way and its type is not changed locally |
| `Trigger.UnknownToucherClaimsForTeamZero` | Assets/Scripts/GroundTrigger.ts:20-36 | A toucher missing from the team list counts as team 0, so on a coloured tile it sends a claim for team 0 |
| `UI.CountTypeIsOccurrences` | Assets/Scripts/GameUI.ts:139-148 | The per-type count equals the number of occurrences of that type on the board |
| `UI.ScoresBounded` | Assets/Scripts/GameUI.ts:139-148 | Red count + Purple count ≤ number of tiles; other types are counted in neither |
| `UI.Decide` | Assets/Scripts/GameUI.ts:188-233 | Exactly one outcome: Red wins iff red > purple, Purple wins iff purple > red, and a draw iff they are equal or either score is NaN |
| `UI.ScoresReadBack` | Assets/Scripts/GameUI.ts:151-188 | Deciding from the score labels gives the same outcome as deciding from the counts themselves |
| `UI.GameUI.OnOffGameReady` | Assets/Scripts/GameUI.ts:105-109 | `true` leaves only the GameReady panel active among the three; `false` inverts all three |
| `UI.GameUI.OnOffGameStart` | Assets/Scripts/GameUI.ts:112-116 | `true` leaves only the GameStart panel active among the three; `false` inverts all three |
| `UI.GameUI.OnOffScoreboard` | Assets/Scripts/GameUI.ts:118-120 | The scoreboard's visibility becomes the argument |
| `UI.GameUI.OnOffGameFinish` | Assets/Scripts/GameUI.ts:123-127 | `true` leaves only the GameFinish panel active among the three; `false` inverts all three |
| `UI.GameUI.UpdateScore` | Assets/Scripts/GameUI.ts:130-153 | The Red and Purple labels show, as `toString` writes them, the numbers of tiles of type 1 and of type 2 |
| `UI.GameUI.ResetScoreboard` | Assets/Scripts/GameUI.ts:155-158 | Both labels become `"0"`, which `Number` reads as 0 |
| `UI.LastOnTeam` | Assets/Scripts/GameUI.ts:160-168 | The winner that the loop settles on: nothing iff no entry has the team, otherwise an entry on that team after which no entry has it |
| `UI.GameUI.GetWinnerUserId` | Assets/Scripts/GameUI.ts:160-168 | The loop returns `LastOnTeam` of the team list: the last user in iteration order whose team equals the given team, and nothing iff no user has it |
| `UI.GameUI.DisableResult` | Assets/Scripts/GameUI.ts:170-175 | The win, draw and result panels are all hidden |
| `UI.GameUI.SetResult` | Assets/Scripts/GameUI.ts:181-234 | The result panel is shown. A win sets that team's title, records the last player on the winning team (`LastOnTeam`) as the winner, shows the win panel and leaves the draw panel alone. A draw shows only the draw panel and never touches the win panel, title or winner |

## Left out

- Engine calls with no visible semantics are not modelled:
  - `Teleport`, `MoveToPosition` and `Jump`;
  - the tile bounce animator, modelled as a counter;
  - avatar creation and removal, modelled as a log of requests;
  - thumbnails (`GetThumbnail`, `GetSprite`) and background colours;
  - the winner's display name, for which the model records the winner's user id.
- Floating point is not modelled:
  - positions are exact reals that are only copied;
  - the `-3.5 + 7*(team-1)` teleport position and the 7-unit snap distance are left out with the calls that use them;
  - `* 0.001` is exact division by 1000 over whole milliseconds. IEEE rounding of the product is not modelled.
- Transport is modelled as data:
  - a broadcast is an append to the room's log;
  - a client `Send` is the claim `OnTriggerEnter` returns;
  - handlers are called directly, with no `AddMessageHandler` registration, schema callbacks or `OnStateChange` wiring.
- Client sends are timing and I/O, so they are left out: `SendMessageCharacterTransformLoop`, `SendMessageCharacterTransform` and `SendMessageCharacterState`.
- Of the character-loaded listeners, only the team registration is modelled (`RegisterTeam`). The empty `OnCounterChange` and `Result` handlers have no effect and are left out.
- `GetInstance` singleton lookups are replaced by explicit parameters. The case of a missing instance, where `?.` yields `undefined`, is not modelled.
- The initial state of the UI panels comes from the scene and is not modelled.
- Concurrency: the host serialises all room work, so the model is a sequential call order.
- JsText.NumberOf: only the empty string and digit strings are read as numbers. Whitespace, signs, decimal points, exponents and hex forms, which `Number` also accepts, are treated as NaN.
- RoomServer.Room.OnCharacterState: requires a present sender. The source's unchecked lookup would throw a TypeError. In runs of events (`RoomProperties.Apply`), that throw leaves the room unchanged.
- Client.ClientScript.OnChangeGroundColorReceive: where the source throws on an undefined tile, the method returns `applied == false` and changes nothing.
- UI.GameUI.SetResult: when no player holds the winning team, the source passes `undefined` to the engine's player lookup, which is not visible. The model records no winner.
- `OnTriggerEnter` sends the name of the trigger's parent object; the model takes that parent to be the `Ground` tile that the trigger finds with `GetComponentInParent`, and sends that tile's name.
- The schema's default values for the timer and for `characterState` are taken as 0.
