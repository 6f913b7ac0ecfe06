# Matchmaking and session lifecycle — a Dafny model

This project models the matchmaking core of a two-player quiz-and-battle
game server (`backend/game/__init__.py`). The core has three pieces of
in-memory state. Each is a Dafny class whose methods update it in place.

- `WaitingRoom` (module `Room`) holds a set of players up to a fixed
  capacity. It has join, leave and a full test. It can also draw two
  random members into a game.
- `Game` (module `Session`) tracks one match between two players. Its
  readiness map is keyed by connection id and holds two flags per player:
  `units` (set by the UNITS_READY signal) and `quiz` (set by the SCORE
  signal). When every flag is set it runs the battle simulator with seed 17.
  It then sends the result to the players still in game, resets both players
  and marks itself finished. When the game is created it either tells both
  players that the game started, or declares a walkover.
- `GameApp` (module `Orchestrator`) holds the player registry, the waiting
  room and the list of created games. It supports register-or-reconnect,
  disconnect, lookups, and one pass of the matchmaking loop.

The collaborators this file uses but does not define are in module
`Externals`. They are modelled only as far as the core relies on them:

- `Player` (`backend/game/player.py` is not part of this model).
- The realtime server: `Transport` records every event it is asked to send.
- The battle simulator: `Engine`, a function of the two players and the seed.

Search helpers are in `Search`. `Scenarios` holds whole runs proved from the
contracts alone: a full match with interleaved signals, and a walkover.

The readiness rules are stated on pure functions:

- `Record` gives the map after one signal.
- `Replay` gives the map after a sequence of signals.
- `AllReady` is the battle gate.

`Game.SaveWhatIsReady` is proved to update its map exactly as `Record` does.

What the code does at three points worth knowing:

- Drawing from a room with fewer than two members is not an error the
  code reports: `random.sample` would raise. So it is a precondition here.
- The battle is not run exactly once. Nothing checks `is_finished`, so
  after every flag is set, any further signal from either player runs the
  battle again (`RepeatedSignalReopensGate`).
- The matchmaking loop never declares a walkover. The draw (line 162)
  sets `in_game` on both players, and no `await` separates it from the
  `in_game` check in `set_on_game_started` (line 100), which runs
  synchronously up to its first `await`. Under the cooperative scheduler no
  disconnect can happen in that window, so a pass of the loop always takes
  the "notify both" branch (`StartGamesTick`). `Walkover` exercises
  `set_on_game_started` on its own, on a game one of whose players is no
  longer in game.

## Model

| member | source | states |
|---|---|---|
| `Room.Joined` | backend/game/__init__.py:27-29 | a join adds only the given player, only when the room is not full and the player is absent; it keeps the size within the capacity |
| `Room.JoinIdempotent` | backend/game/__init__.py:27-29 | joining twice is the same as joining once |
| `Room.WaitingRoom.constructor` | backend/game/__init__.py:16-18 | a new room is empty, with the given capacity |
| `Room.WaitingRoom.IsFull` | backend/game/__init__.py:37-38 | a room that is not full has space for one more; a full room of capacity at least 2 has at least two members |
| `Room.WaitingRoom.Join` | backend/game/__init__.py:27-30 | membership becomes `Joined(old members, capacity, player)`; the capacity bound is preserved |
| `Room.WaitingRoom.Leave` | backend/game/__init__.py:32-35 | removes only the given player, if present; the capacity bound is preserved |
| `Room.WaitingRoom.DrawTwoPlayersToGame` | backend/game/__init__.py:20-25 | with at least two members, returns two distinct former members; removes exactly those two; marks both in game; changes no other member's flag and no id |
| `Session.InitialReadiness` | backend/game/__init__.py:46 | a new game's readiness map has exactly the two players' ids as keys, with no flag set |
| `Session.Record` | backend/game/__init__.py:56-61 | the key set never changes; a flag is set afterwards exactly when it was set before, or it is the signalling player's flag of the signalled kind; a stray id changes nothing |
| `Session.Replay` | backend/game/__init__.py:50-61 | a sequence of signals keeps the readiness keys |
| `Session.ReplayFlags` | backend/game/__init__.py:50-61 | after any signal sequence, a flag is set exactly when it was set before, or some signal of that kind came from that player's id |
| `Session.GateOpensAfterAllFourSignals` | backend/game/__init__.py:56-69 | from a new game, the battle gate opens exactly when both players have sent both signals, in any order |
| `Session.FiresOnLastMissingFlag` | backend/game/__init__.py:61-69 | the gate opens on the signal that raises the last missing flag, and every other flag was already set |
| `Session.RepeatedSignalReopensGate` | backend/game/__init__.py:62-69 | once every flag is set, any further signal from a player opens the gate again, so the battle is not run exactly once |
| `Session.GameResultsOnlyToPlayersInGame` | backend/game/__init__.py:109-112 | results go only to players still in game, carry the given message and logs, and every player in game gets one |
| `Session.ResultsOfTwoSeats` | backend/game/__init__.py:110-112 | for two seats, the first player's result (if in game) comes before the second's (if in game) |
| `Session.GameStartedNotices` | backend/game/__init__.py:101-104 | one private GAME_STARTED notice per player, addressed to that player's id, in seat order |
| `Session.Game.constructor` | backend/game/__init__.py:42-46 | a new game is not finished and its readiness map is keyed by the two players' ids with no flag set |
| `Session.Game.SaveWhatIsReady` | backend/game/__init__.py:50-62 | the map becomes `Record(old map, ids, sid, kind)`; the battle runs exactly when the sid is a player's and every flag is now set; otherwise nothing else changes |
| `Session.Game.StartGameIfReady` | backend/game/__init__.py:64-69 | runs the battle if and only if every flag of every entry is set; otherwise changes nothing |
| `Session.Game.CheckAllReady` | backend/game/__init__.py:65-68 | the scan over the readiness entries returns true exactly when every flag is set |
| `Session.Game.Battle` | backend/game/__init__.py:74-86 | broadcasts BATTLE_STARTED, sends the seed-17 outcome to the players still in game, resets both players and sets `isFinished` |
| `Session.Game.EndGameForPlayers` | backend/game/__init__.py:88-91 | sends results to the players in game, then both players are out of game with unchanged ids |
| `Session.Game.AllPlayersConnected` | backend/game/__init__.py:93-97 | true exactly when both players are in game |
| `Session.Game.SetOnGameStarted` | backend/game/__init__.py:93-107 | if both players are in game, each gets a private GAME_STARTED; otherwise the walkover result with empty logs goes to the players still in game; no battle |
| `Session.Game.SendGameResults` | backend/game/__init__.py:109-113 | appends a GAME_RESULT for each player still in game, in seat order, and nothing else |
| `Search.FirstIndexOf` | backend/game/__init__.py:150-154 | the index of the first occurrence, or None exactly when there is none |
| `Search.Filter` | backend/game/__init__.py:146 | keeps exactly the elements that satisfy the condition |
| `Search.LastIndexWhere` | backend/game/__init__.py:145-148 | the index of the last element satisfying the condition, or None exactly when there is none |
| `Search.FilterLastIsLastMatch` | backend/game/__init__.py:145-148 | the last element of the filtered list is the last matching element of the original list |
| `Orchestrator.GameApp.constructor` | backend/game/__init__.py:117-121 | an empty registry, no games, and a new empty waiting room of capacity 2 |
| `Orchestrator.GameApp.GetPlayerByNick` | backend/game/__init__.py:150-151 | the first registered player with that nickname, or None exactly when there is none |
| `Orchestrator.GameApp.GetPlayerById` | backend/game/__init__.py:153-154 | the first registered player with that connection id, or None exactly when there is none |
| `Orchestrator.GameApp.GetPlayerGame` | backend/game/__init__.py:145-148 | the last created game with a player of that nickname, or None exactly when there is none |
| `Orchestrator.GameApp.AddPlayer` | backend/game/__init__.py:123-133 | a known nickname returns that same player with the new id, and neither the registry nor the room changes; a new nickname appends exactly one new player and tries to enrol it; nicknames stay unique |
| `Orchestrator.GameApp.DisconnectPlayer` | backend/game/__init__.py:135-137 | the player is no longer in game and is no longer in the waiting room |
| `Orchestrator.GameApp.StartGamesTick` | backend/game/__init__.py:159-165 | appends exactly one game if and only if the room was full: a fresh game of two distinct drawn members, who are removed from the room, and both are sent GAME_STARTED; no other waiting player's in-game flag changes |
| `Externals.Player.constructor` | backend/game/__init__.py:130 | a new player has the given nickname and id and is not in game |
| `Externals.Player.Reconnect` | backend/game/__init__.py:127 | sets the connection id only |
| `Externals.Player.Disconnect` | backend/game/__init__.py:136 | the player is no longer in game |
| `Externals.Player.ResetAfterGame` | backend/game/__init__.py:91 | the player is no longer in game |
| `Externals.Transport.constructor` | backend/game/__init__.py:121 | the server has sent nothing yet |
| `Externals.Transport.Emit` | backend/game/__init__.py:112 | appends exactly the given event to what was sent |
| `Scenarios.ReadyInterleaved` | backend/game/__init__.py:50-91 | signals in the order units, score (first player) and score, units (second player): the last one runs the battle and both players get the same result |
| `Scenarios.RegisterTwo` | backend/game/__init__.py:123-133 | two new nicknames are both registered and enrolled, and the room of capacity 2 is then full |
| `Scenarios.FullMatch` | backend/game/__init__.py:159-165 | register two, one matchmaking pass, four signals: two GAME_STARTED, one BATTLE_STARTED, then identical results to both players, who are reset |
| `Scenarios.Walkover` | backend/game/__init__.py:93-107 | a drawn player who disconnects before the notice makes a walkover: only the other player gets the walkover result with empty logs |

## Left out

- Realtime transport: the `sio.on` handler registration (lines 47-48) is left out. Each new game re-binds the global SCORE and UNITS_READY handlers, so in the running server only the latest game receives signals. Here signals are delivered to a chosen `Game` by calling `SaveWhatIsReady`. The two handlers at lines 50-54 become its `kind` argument, and the SCORE payload, which the handler ignores, is dropped.
- Emitted events are recorded in `Transport.sent`. Delivery, rooms and clients are not modelled.
- asyncio: the `async`/`await` structure and the endless loop with its 5-second sleep (lines 160, 167) are left out. `StartGamesTick` is one pass of the loop body. Concurrency and interleaving between handlers are not modelled: every operation runs to completion.
- Battle simulator: `backend/game/battle/battle_simulator.py` is not part of this model. `Engine` is a deterministic function of the two player objects and the seed. It does not see the players' units, which the real simulator reads.
- Player: `backend/game/player.py` is not part of this model. These behaviours are assumptions:
  - `reconnect` sets only the id.
  - `disconnect` and `reset_after_game` set `inGame` to false and keep the id.
  - A new player is not in game.
- Room.WaitingRoom.DrawTwoPlayersToGame: the uniform distribution of `random.sample` is not modelled. Any two distinct members may be chosen. Also not modelled: recent Python versions refuse to sample from a set.
- Room.WaitingRoom.DrawTwoPlayersToGame: requires at least two members. The source performs an unchecked sample, which raises.
- Orchestrator.GameApp.StartGamesTick: requires `Valid()`, which includes a waiting room capacity of at least 2. The registry always builds a room of capacity 2.
- Session.Game.SaveWhatIsReady: requires that the readiness keys are still the two players' ids, that is, neither player reconnected with a new id since the game was created. After such a reconnect, only a signal carrying the reconnected player's new id raises at line 61, because that id is not a key. Signals from the other player, and stray signals, still go through lines 57-61 without error; the precondition excludes those non-raising signals as well, so the model promises nothing about any signal after a reconnect.
- The inner loop of `start_game_if_ready` over an entry's two flags (lines 66-68) is one check that both flags are set (`Complete`). The outer loop over the entries is kept in `CheckAllReady`.
- Logging: all `logging.info` calls are left out. `_get_nicks_of_players` (lines 71-72) feeds only logging. The nicknames it returns appear here only inside the BATTLE_STARTED message.
- Accessors: `get_players`, `get_players_in_waiting_room` and `is_waiting_room_full` (lines 139-143, 156-157) only return a field or call `IsFull`. They are read directly as `players`, `waitingRoom.players` and `waitingRoom.IsFull()`.
- The HTTP route table (`backend/api/routes.py`) is left out: it holds no core logic.
