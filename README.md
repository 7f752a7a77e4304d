# Robots: a verified model of the game core

The robots game is a turn-based arena game played over the network. `robots-server` holds one
game room. Each TCP connection to it is a session. A session's receive handler decodes a Join,
PlaceBomb, PlaceBlock or Move request, and the session serialises the server's Hello,
AcceptedPlayer, GameStarted, Turn and GameEnded messages. As written, the handler runs for a
session's first receive only (see Findings); the room model handles every receive, as with the
read re-armed. The room collects at most one pending move per session and lets a timer resolve
them once per turn. It places bombs and blocks, moves robots, counts bomb timers down
and explodes bombs along four rays. After `game_length` turns it resets to a lobby.

`robots-client` sits between the server and a local display. It decodes the server's stream and
mirrors the game status. It forwards each mirrored lobby or board to the display over UDP. It
checks the display's datagrams and forwards valid commands to the server.

The model has one Dafny module per part of the program:

- `GameTypes`: the types of `GameTypes.h` and the parameter record.
- `Wire`: the byte layout the two sides share: big-endian integers, length-prefixed text,
  count-prefixed lists and maps. It also holds the decoders for the primitive values.
- `GameSession`: the session object.
  - An encoder function for each `send` overload.
  - A `Session` class whose buffer the `send` methods extend.
  - The decoding and dispatch of one inbound message.
- `RoomRules`: the rules of the room, as functions of a `GameStatus`, with their invariants.
  - The generator, `resolve_place_bomb`, `resolve_place_block` and `resolve_move`.
  - The timers, the rays of `explode_bombs`, and the two loops of `init_game`.
- `GameRoom`: the room as a class `Room` with the fields of `GameRoom`.
  - Each method is proved against a specification function of the whole room state.
  - Lemmas state what those functions promise: join replays, the lobby-to-game transition, the
    turn tick, reset.
- `ClientCodec`, `ClientRules` and `Client`: the client's decoders, the effect of each server
  message and of each display datagram on the mirrored state, and a `Client` class.
  - The source has one TCP buffer `buf`, with `buf_length` and `read_idx`, for both the message
    being read and the command being written. The class keeps the two apart: `buffer` and
    `readIdx` for reading, `out` and `outLength` for writing (see Left out). It also holds the
    UDP buffer and the mirrored status.
- `RoundTrip` and `ListRoundTrip`: what the client reads back from what a session writes, and
  what a session reads back from what the client writes.
- `RobotsClient` and `RobotsServer`: the validators and address splitting of the two command
  lines.

Text is a sequence of bytes. Sessions are abstract handles: a session's `_id` is the room's map
`ids`, a broadcast is an `Outgoing` record with its recipients, and the room's `outbox` lists
everything sent, in order.

### Where the code departs from its evident intent

Each item is a place where the code does something other than what its names, its message
formats or the game plainly call for. The model does what the code does.

- A text's length travels in one byte, so it can describe at most 255 bytes. A longer text is
  not refused: `send` writes its length modulo 256 and that many bytes, while the client's
  `send(std::string)` still advances `buf_length` by the full size. See
  `RoundTrip.JoinFrameOverlong`.
- The length byte is written as `uint8_t` but read back through a plain `char`. Where `char`
  is signed, a length of 128 to 255 does not read back. See Findings.
- A session's receive handler is meant to serve all of that session's requests. It is posted
  once, from `start`, and never posted again. See Findings.
- A second request in the same turn does not replace the first: `_moves.insert` keeps the
  first pending move. See `GameRoom.AddMessageKeepsFirst`.
- A player who leaves still acts: `disconnect` removes only the session, and its pending move is
  resolved at the next tick. See `GameRoom.DisconnectKeepsMoves`.
- Bombs are meant to have distinct ids. `_next_bomb` is never incremented, so every bomb has
  id 0: a second bomb is dropped by `bombs.insert`, while its BombPlaced is still logged. See
  `RoomRules.PlaceBombFacts` and `RoomRules.StatusOk`.
- PlaceBlock is meant to put a block on a free tile. `resolve_place_block` adds one only on a
  tile that already holds a block. See `RoomRules.PlaceBlockFacts`.
- The four rays of an explosion are meant to reach `explosion_radius` tiles each. The `+y` ray
  is bounded by `x + radius` instead of `y + radius`. See `RoomRules.RayGoesOn`.
- Each message is meant to reach the other side whole. The session writes it into a fixed
  `_buffer` of 65507 bytes and the client reads it into a fixed `buf` of 65535 bytes, with
  no bound checked. A Turn with more than 13100 BlockPlaced events, as `init_game` logs for
  `-k 20000` on a large board, does not fit. See `GameSession.BlockTurnSize`.
- A server started without `--seed` is meant to seed its generator from the clock. The
  clock value goes to a local `seed` that nothing reads: the constructor reads `vm["seed"]`,
  which is absent, and the server exits. See `RobotsServer.Configure`.
- GameEnded is meant to carry the scores of the round. The server records no explosion cells
  and no scores, so it always carries the scores the round started with.

Two more choices of the code are modelled as they are. Robots are spawned without a check for a
free tile; only block draws reject a tile that already holds a block. Moves are resolved in
`_moves`' own iteration order, not in arrival order, and that order is a parameter of
`Room.Tick`.

## Model

| member | source | states |
|---|---|---|
| GameTypes.DirectionCode | GameTypes.h:15-20 | each `Direction` enumerator has the value 0..3 |
| GameTypes.DirectionOf | GameTypes.h:15-20 | a byte names an enumerator exactly when it is at most 3, and then that enumerator's value is the byte |
| GameTypes.DirectionCodeInjective | GameTypes.h:15-20 | distinct directions have distinct values; decoding a direction's value gives the direction back |
| GameTypes.EventTypeCode | GameTypes.h:22-27 | each `EventType` has the value 0..3 |
| GameTypes.EventTypeCodeInjective | GameTypes.h:22-27 | two event types have equal values exactly when they are equal |
| GameTypes.PositionEqualsIsEquality | GameTypes.h:39-41 | `Position::operator==` holds exactly when both coordinates agree |
| GameTypes.PositionLessStrictTotalOrder | GameTypes.h:43-45 | `Position::operator<` is irreflexive, transitive, asymmetric and total on distinct positions |
| GameTypes.PositionKeyOrder | GameTypes.h:43-45 | `operator<` is the order of the key `x * 2^16 + y` |
| GameTypes.LeastPosition | GameTypes.h:43-45 | a non-empty set of positions has a member below every other member |
| GameTypes.AscendingPositions | Client.cpp:479-485 | a `std::set<Position>` is visited once per element, each element exactly once, in strictly ascending `operator<` order |
| GameTypes.SameBombIgnoresPositionAndTimer | GameTypes.h:53-55 | `Bomb::operator==` compares ids only: a bomb equals a copy of itself moved elsewhere with another timer |
| GameTypes.ItemType | GameTypes.h:78-103 | each event type names exactly one alternative of the event variant |
| Wire.U8RoundTrip | Client.cpp:79-85 | a byte written by `send(uint8_t)` is read back, and the cursor moves by 1 |
| Wire.U16RoundTrip | Client.cpp:87-94 | `htons` then two bytes is read back by two bytes then `ntohs`, and the cursor moves by 2 |
| Wire.U32RoundTrip | Client.cpp:96-103 | `htonl` then four bytes is read back by four bytes then `ntohl`, and the cursor moves by 4 |
| Wire.TextRoundTrip | Client.cpp:105-113 | the length byte is the size modulo 256; the text read back is that prefix of the text, and the whole text when it fits in 255 bytes |
| Wire.SignedAgreesBelow128 | GameSession.cpp:75-77 | where `char` is signed, a length byte below 128 reads the same text, or runs out of bytes just the same, as the unsigned reading |
| Wire.SignedTextRoundTrip | Client.cpp:105-113 | where `char` is signed, every text of fewer than 128 bytes is still read back, with the cursor after it |
| Wire.SignedLengthNotReadBack | GameSession.cpp:75-78 | where `char` is signed, a text of 128 to 255 bytes makes the server's string constructor throw `std::length_error`, and gives the client a size above its 65535-byte `buf` |
| Wire.PositionRoundTrip | Client.cpp:121-125 | a position is read back from its four bytes |
| Wire.PlayerRoundTrip | Client.cpp:115-119 | a player whose name and address fit in 255 bytes is read back, consuming exactly its bytes |
| GameSession.EventTagIsEventType | GameSession.cpp:168-187 | the first byte written for an event is its `EventType` value |
| GameSession.BlockTurnSize | GameSession.h:5-16 | a Turn of BlockPlaced events only is 7 + 5n bytes, so it overflows the 65507-byte `_buffer` exactly when it holds more than 13100 events |
| GameSession.DecodeInbound | GameSession.cpp:35-53 | tag 0 with a name is a Join; tags 1 and 2 are PlaceBomb and PlaceBlock; tag 3 with a byte is a Move with that direction byte; a tag above 3 is ignored |
| GameSession.InboundNext | GameSession.cpp:35-53 | after the tag, and after the name or direction byte when the bytes hold it: the cursor moves past exactly the message decoded, and stays within the bytes |
| GameSession.SignedJoinThrows | GameSession.cpp:75-83 | a Join of a 128- to 255-byte name, which the model decodes as that name, makes the server throw where `char` is signed |
| GameSession.Served | GameSession.cpp:16-56 | the requests a session hands the room over its receives are at most one per receive, and the first receive gives the first request |
| GameSession.SecondRequestLost | GameSession.cpp:16-56 | as written, a session that sends a Join and then a Move is joined and its Move never reaches the room; with the read re-armed both arrive |
| GameSession.RearmedServesEach | GameSession.cpp:26-56 | with the read re-armed every receive is handled, and the as-written handler gives exactly the first of those requests |
| GameSession.Session.constructor | GameSession.cpp:21-24 | a new session has an empty buffer, cursor 0 and nothing written |
| GameSession.Session.ClearBuffer | GameSession.cpp:21-24 | the buffer is emptied and the cursor reset; the frames already written stay |
| GameSession.Session.SendMessage | GameSession.cpp:59-67 | the current buffer is handed to `async_write` as one frame |
| GameSession.Session.SendU8 | GameSession.cpp:103-107 | the buffer is extended by the byte |
| GameSession.Session.SendU16 | GameSession.cpp:109-114 | the buffer is extended by the big-endian two bytes |
| GameSession.Session.SendU32 | GameSession.cpp:116-121 | the buffer is extended by the big-endian four bytes |
| GameSession.Session.SendText | GameSession.cpp:123-128 | the buffer is extended by the length byte and the text, 1 + size modulo 256 bytes in all |
| GameSession.Session.SendPlayer | GameSession.cpp:130-133 | the buffer is extended by the name, then the address |
| GameSession.Session.SendPosition | GameSession.cpp:135-138 | the buffer is extended by x, then y |
| GameSession.Session.SendIdList | GameSession.cpp:189-195 | the buffer is extended by the 32-bit count and each id in list order |
| GameSession.Session.SendPositionList | GameSession.cpp:197-203 | the buffer is extended by the count and each position in list order |
| GameSession.Session.SendEvent | GameSession.cpp:140-166 | the overload chosen by the event's type writes its tag and the fields of its alternative |
| GameSession.Session.SendEventItems | GameSession.cpp:176-186 | the loop writes every event of the list, in list order |
| GameSession.Session.SendEventList | GameSession.cpp:168-187 | the buffer is extended by the count and the events |
| GameSession.Session.SendPlayerEntries | GameSession.cpp:207-211 | the loop writes id and player for each key visited, in order |
| GameSession.Session.SendPlayerMap | GameSession.cpp:205-212 | the buffer is extended by the count and every entry in ascending id order |
| GameSession.Session.SendScoreEntries | GameSession.cpp:216-220 | the loop writes id and score for each key visited, in order |
| GameSession.Session.SendScoreMap | GameSession.cpp:214-221 | the buffer is extended by the count and every score in ascending id order |
| GameSession.Session.SendHello | GameSession.cpp:223-236 | exactly one frame is written, the encoded Hello of the parameters, and the buffer is left cleared |
| GameSession.Session.SendAcceptedPlayer | GameSession.cpp:238-246 | exactly one frame is written, the encoded AcceptedPlayer |
| GameSession.Session.SendGameStarted | GameSession.cpp:248-255 | exactly one frame is written, the encoded GameStarted |
| GameSession.Session.SendTurn | GameSession.cpp:257-265 | exactly one frame is written, the encoded Turn with its events |
| GameSession.Session.SendGameEnded | GameSession.cpp:267-274 | exactly one frame is written, the encoded GameEnded |
| GameSession.Session.ReceiveU8 | GameSession.cpp:69-73 | the byte at the cursor is read and the cursor moves by 1; nothing when the bytes have ended |
| GameSession.Session.ReceiveText | GameSession.cpp:75-80 | a length byte L and L bytes are read, and the cursor moves by 1 + L |
| GameSession.Session.ReadInbound | GameSession.cpp:26-57 | the received bytes are appended to the buffer, the message at the cursor is decoded as `DecodeInbound` says, and the cursor moves past it as `InboundNext` says |
| RoomRules.NextRandomIsLehmer | GameRoom.cpp:49-52 | the 64-bit product never overflows and the narrowing never loses a bit: `random` is `s * 48271 mod (2^31 - 1)` |
| RoomRules.NextRandomFromSmallSeeds | GameRoom.cpp:49-52 | seed 1 draws 48271 first; seed 0 stays 0 |
| RoomRules.Record | GameRoom.cpp:64 | appending to `turns[turn]` extends the current log by the event, creates its entry if needed, and leaves every other turn and field alone |
| RoomRules.Touch | GameRoom.cpp:56 | `player_positions[id]` creates `{0, 0}` for an unknown id, and changes nothing for a known one |
| RoomRules.Inc16 | GameRoom.cpp:263 | `++` on a `uint16_t` adds one modulo 2^16 |
| RoomRules.MoveTargetFacts | GameRoom.cpp:83-104 | from a tile on the board, the move is refused exactly at the edge it would cross, stays on the board and steps one tile in the named direction; a byte above 3 stays on the tile |
| RoomRules.PlaceBombFacts | GameRoom.cpp:54-65 | exactly one BombPlaced with the bomb id and the player's tile is logged; the bomb is added only if its id is new; nothing else changes |
| RoomRules.PlaceBlockFacts | GameRoom.cpp:67-77 | only a tile that already holds a block gets another block and a BlockPlaced; otherwise nothing but the position entry changes |
| RoomRules.MoveFacts | GameRoom.cpp:79-114 | a refused or blocked move changes nothing but the position entry; any other move puts the robot on the target tile and logs PlayerMoved with it |
| RoomRules.RecordKeepsConsistent | GameRoom.cpp:64 | logging a consistent event keeps every log consistent |
| RoomRules.TouchKeepsOk | GameRoom.cpp:56 | the created `{0, 0}` entry keeps the status on the board |
| RoomRules.PlaceBombKeepsOk | GameRoom.cpp:54-65 | placing a bomb keeps the status invariant |
| RoomRules.PlaceBlockKeepsOk | GameRoom.cpp:67-77 | placing a block keeps the status invariant |
| RoomRules.MoveKeepsOk | GameRoom.cpp:79-114 | a move keeps every robot on the board |
| RoomRules.ResolveOnKeepsOk | GameRoom.cpp:236-248 | resolving a pending move of any kind keeps the status invariant |
| RoomRules.TouchExtends | GameRoom.cpp:56 | creating a position entry only adds to the status |
| RoomRules.RecordExtends | GameRoom.cpp:64 | logging an event only adds to the status |
| RoomRules.PlaceBombExtends | GameRoom.cpp:54-65 | placing a bomb keeps every bomb and adds at most the bomb `_next_bomb` |
| RoomRules.PlaceBlockExtends | GameRoom.cpp:67-77 | placing a block only appends to the blocks and the log |
| RoomRules.MoveExtends | GameRoom.cpp:79-114 | a move only adds to the status |
| RoomRules.ResolveOnExtends | GameRoom.cpp:236-248 | resolving any pending move only adds to the status |
| RoomRules.ResolveAllExtends | GameRoom.cpp:236-248 | resolving a sequence of pending moves only adds to the status |
| RoomRules.ResolveAllKeepsOk | GameRoom.cpp:236-248 | resolving a sequence of pending moves keeps the status invariant |
| RoomRules.DecrementTimer | GameRoom.cpp:252 | `timer--` keeps id and position and lowers the timer by one; a timer at 0 wraps to 65535 |
| RoomRules.DecrementTimers | GameRoom.cpp:251-253 | every bomb, and only those, has its timer lowered by one |
| RoomRules.DecrementOnlyEach | GameRoom.cpp:251-253 | running the timer loop over distinct ids lowers each listed bomb's timer exactly once and leaves every other bomb as it was |
| RoomRules.DecrementOnlyAll | GameRoom.cpp:251-253 | lowering the timers of every id in the map, one at a time, is lowering them all |
| RoomRules.CellFacts | GameRoom.cpp:157-218 | while a ray goes on its index stays in 16 bits, so the cast never wraps, and its cell is on the board and on the ray's line within its bound |
| RoomRules.PlayersOnAmong | GameRoom.cpp:160-165 | the ids listed for a cell stand on it |
| RoomRules.PlayersOnAmongComplete | GameRoom.cpp:160-165 | every id that stands on the cell is listed |
| RoomRules.PlayersOnExact | GameRoom.cpp:160-165 | a robot is listed for a cell exactly when it stands there |
| RoomRules.ScanLoopFrom | GameRoom.cpp:157-171 | the running ray loop ends with the robots collected so far followed by those of the rest of the ray |
| RoomRules.ScanLoopStart | GameRoom.cpp:157-171 | the ray loop started from nothing computes the ray's result |
| RoomRules.VisitedInReach | GameRoom.cpp:157-218 | every cell a ray visits is on the board and within the ray's bound |
| RoomRules.VisitedStopsAtBlock | GameRoom.cpp:166-170 | no visited cell but the last is a block: a block hides every cell behind it |
| RoomRules.VisitedEnds | GameRoom.cpp:157-171 | a ray ends at a block or where its loop condition fails |
| RoomRules.EndBlock | GameRoom.cpp:166-170 | a ray destroys at most one block, and it is a block the ray visited |
| RoomRules.ScanBlocks | GameRoom.cpp:166-170 | the ray records a block exactly when it ends at one |
| RoomRules.ScanRobots | GameRoom.cpp:160-165 | the ray lists exactly the robots standing on a cell it visits |
| RoomRules.RayFacts | GameRoom.cpp:157-218 | the cells of a whole ray are on the board and within reach; it records at most one block, one it visited, and exactly the robots on the cells it visited |
| RoomRules.ExplosionFacts | GameRoom.cpp:150-225 | an explosion names its bomb, destroys at most four blocks, each a block on the board, and lists exactly the robots standing on a cell one of its rays visited |
| RoomRules.ExplodeAmongOnlyLogs | GameRoom.cpp:150-225 | explosions only log events: blocks, bombs, robots and scores stay, consistent logs stay consistent, and the other turns' logs stay |
| RoomRules.FinishTurnFacts | GameRoom.cpp:251-256 | finishing a turn changes only the logs and the bomb timers, each lowered by one |
| RoomRules.FinishTurnTurns | GameRoom.cpp:256 | the current turn's log exists once the turn is finished, and the other turns' logs are unchanged |
| RoomRules.FinishTurnLog | GameRoom.cpp:251-256 | the finished turn's log starts with what was logged before, followed only by BombExploded events; consistent logs stay consistent |
| RoomRules.FinishTurnKeepsOk | GameRoom.cpp:251-254 | finishing a turn keeps the status invariant |
| RoomRules.FinishTurnExtends | GameRoom.cpp:251-254 | finishing a turn extends the status with its timers lowered |
| RoomRules.PlayTurnExtends | GameRoom.cpp:236-256 | over a turn every bomb keeps its id and position and its timer goes down by one, at most bomb `_next_bomb` is new, and players and scores stay |
| RoomRules.PlayTurnLogs | GameRoom.cpp:236-256 | after a turn the turn number is unchanged and its log exists |
| RoomRules.PlayTurnKeepsOk | GameRoom.cpp:236-254 | a whole turn keeps the status invariant |
| RoomRules.DrawPosition | GameRoom.cpp:121-122 | two draws, x first, give a position on the board and the generator advanced twice |
| RoomRules.SpawnBoard | GameRoom.cpp:120-128 | the first loop of `init_game` gives every listed player a position on the board and leaves the blocks alone |
| RoomRules.SpawnEvents | GameRoom.cpp:120-128 | it logs one PlayerMoved per player, in order, after what was logged before |
| RoomRules.SpawnWithin | GameRoom.cpp:120-128 | it creates positions only for the listed players |
| RoomRules.SpawnAgrees | GameRoom.cpp:120-128 | from no positions and with distinct ids, each PlayerMoved carries the final position of its player |
| RoomRules.DropBlocks | GameRoom.cpp:130-140 | the block draws keep the blocks on the board and free of repeats, extend them by at most one block per draw, and leave the robots alone |
| RoomRules.DropEvents | GameRoom.cpp:130-140 | one BlockPlaced is logged per block added, in order |
| RoomRules.SpawnSetup | GameRoom.cpp:120-128 | the first loop from no positions puts exactly the players on the board, with one PlayerMoved each in id order |
| RoomRules.InitSetup | GameRoom.cpp:116-140 | both loops from an empty board: the players' PlayerMoved events, then one BlockPlaced per block |
| RoomRules.InitBlocksBounded | GameRoom.cpp:130-140 | `init_game` places at most `initial_blocks` blocks |
| GameRoom.AcceptedReplayFacts | GameRoom.cpp:21-23 | the lobby replay goes to the joining session alone and announces each player once, with its entry, in ascending id order |
| GameRoom.TurnReplayFacts | GameRoom.cpp:17-19 | the game replay goes to the joining session alone and sends each logged turn once, with its log, in ascending turn order |
| GameRoom.JoinSends | GameRoom.cpp:11-25 | a join registers the session and sends it Hello, then GameStarted and the turns during a game or the players in the lobby; nothing else changes |
| GameRoom.AcceptedReplayOk | GameRoom.cpp:21-23 | the lobby replay carries no event |
| GameRoom.TurnReplayOk | GameRoom.cpp:17-19 | replaying consistent logs sends consistent events |
| GameRoom.JoinSentOk | GameRoom.cpp:11-25 | everything a join sends carries consistent events |
| GameRoom.SendKeepsValid | GameRoom.cpp:283-305 | the broadcasts keep the room valid |
| GameRoom.JoinKeepsValid | GameRoom.cpp:11-25 | a join keeps the room valid |
| GameRoom.InitGameSends | GameRoom.cpp:116-148 | `init_game` logs turn 0, sends GameStarted then that log to every session, sets the turn to 1, and leaves players, bombs, scores, sessions and moves alone |
| GameRoom.InitGameUnfold | GameRoom.cpp:116-140 | `init_game`'s board is its two loops run from an empty setup |
| GameRoom.InitGameBoard | GameRoom.cpp:116-140 | every accepted player, and no one else, is placed on the board; at most `initial_blocks` blocks, on the board, no two on one tile |
| GameRoom.InitGameMoves | GameRoom.cpp:120-128 | turn 0 opens with one PlayerMoved per player in id order, carrying that player's position; all its events are consistent |
| GameRoom.InitGameBlocks | GameRoom.cpp:130-140 | after the PlayerMoved events, turn 0 holds one BlockPlaced per block in placement order |
| GameRoom.AcceptFacts | GameRoom.cpp:36-41 | the session gets the next id, that id names a player (the joining one unless the id was taken), every session is told, and the next id moves on by one on 8 bits |
| GameRoom.ResolveJoinFacts | GameRoom.cpp:35-47 | during a game a join changes nothing; in the lobby the player is accepted, and the round starts exactly when the room then holds `players_count` players |
| GameRoom.ResolveJoinKeepsValid | GameRoom.cpp:35-47 | in a valid lobby ids are handed out 0, 1, … so each join adds a new player and the join that reaches `players_count` starts the round; the room stays valid |
| GameRoom.StartKeepsValid | GameRoom.cpp:116-148 | `init_game` on a cleared valid status leaves a valid room in progress |
| GameRoom.PendingOf | GameRoom.cpp:236-248 | the pending moves, in the visiting order, each paired with its session's id |
| GameRoom.TickSends | GameRoom.cpp:231-256 | a tick empties `_moves` and sends the current turn's log, which it creates, to every session after what was sent before |
| GameRoom.TickEnds | GameRoom.cpp:258-261 | the tick of turn `game_length` sends two messages, the last GameEnded with the scores to every session, and leaves the lobby `reset_state` makes, with the same sessions |
| GameRoom.TickMovesOn | GameRoom.cpp:262-265 | any other tick adds one to the turn on 16 bits and keeps the log it sent as that turn's entry |
| GameRoom.TickKeepsValid | GameRoom.cpp:231-267 | a tick keeps the room valid, and the room stays in progress exactly until the last turn |
| GameRoom.FreshIsValid | GameRoom.cpp:4-9 | a new room is a valid lobby, with both counters at 0 and the generator at the seed |
| GameRoom.AddMessageKeepsFirst | GameRoom.cpp:31-33 | a session has at most one pending move; a second one in the same turn is dropped; adding is idempotent |
| GameRoom.DisconnectKeepsMoves | GameRoom.cpp:27-29 | a session that leaves gets nothing more; its pending move stays; validity is kept |
| GameRoom.ResetIsLobby | GameRoom.cpp:270-281 | `reset_state` leaves a valid lobby: counters at 0, generator at the seed, no players or scores, the same sessions; it is idempotent |
| GameRoom.ReceiveFacts | GameSession.cpp:82-101 | a Join goes to `resolve_join` with the peer's address; a move request only adds the session's pending move; anything else changes nothing; validity is kept |
| GameRoom.DecrementAll | GameRoom.cpp:251-253 | the loop over the bombs lowers every timer by one |
| GameRoom.PlayersOnCell | GameRoom.cpp:160-165 | the inner loop of a ray collects every robot on the cell, in id order |
| GameRoom.ScanRay | GameRoom.cpp:157-171 | one ray loop computes the ray's robots and first block |
| GameRoom.Room.constructor | GameRoom.cpp:4-9 | the new room is `Fresh(p)`: a lobby, generator at the seed |
| GameRoom.Room.Random | GameRoom.cpp:49-52 | the generator advances one step, and the new state is the number drawn |
| GameRoom.Room.AppendEvent | GameRoom.cpp:64 | the status is `Record` of the old status |
| GameRoom.Room.PositionOf | GameRoom.cpp:56 | the position read is the entry `Touch` leaves |
| GameRoom.Room.ResolvePlaceBomb | GameRoom.cpp:54-65 | the status is `PlaceBombOn` of the old status |
| GameRoom.Room.ResolvePlaceBlock | GameRoom.cpp:67-77 | the status is `PlaceBlockOn` of the old status |
| GameRoom.Room.ResolveMove | GameRoom.cpp:79-114 | the status is `MoveOn` of the old status |
| GameRoom.Room.DrawPos | GameRoom.cpp:121-122 | the position and the generator are those of `DrawPosition` |
| GameRoom.Room.PlacePlayers | GameRoom.cpp:120-128 | the first loop is `Spawn` over the players in id order; only the positions change |
| GameRoom.Room.PlaceBlocks | GameRoom.cpp:130-140 | the second loop is `Drop` with `initial_blocks` draws; only the blocks change |
| GameRoom.Room.InitGame | GameRoom.cpp:116-148 | the room state is `InitGameSpec` of the old one |
| GameRoom.Room.Accept | GameRoom.cpp:37-40 | the room state is `AcceptSpec` of the old one |
| GameRoom.Room.ResolveJoin | GameRoom.cpp:35-47 | the room state is `ResolveJoinSpec` of the old one |
| GameRoom.Room.SendTurns | GameRoom.cpp:17-19 | the joining session is sent every logged turn in turn order |
| GameRoom.Room.SendPlayers | GameRoom.cpp:21-23 | the joining session is sent every player in id order |
| GameRoom.Room.SendGameReplay | GameRoom.cpp:16-19 | GameStarted, then the turns |
| GameRoom.Room.Join | GameRoom.cpp:11-25 | the session is registered and sent what `JoinSent` lists |
| GameRoom.Room.Disconnect | GameRoom.cpp:27-29 | the room state is `DisconnectSpec` of the old one |
| GameRoom.Room.AddMessage | GameRoom.cpp:31-33 | the room state is `AddMessageSpec` of the old one |
| GameRoom.Room.ResetState | GameRoom.cpp:270-281 | the room state is `ResetSpec` of the old one |
| GameRoom.Room.ResolveOne | GameRoom.cpp:237-247 | one pending move is resolved by its message id |
| GameRoom.Room.ResolveMoves | GameRoom.cpp:236-248 | the pending moves are resolved in the visiting order, as `ResolveAll` says |
| GameRoom.Room.DecrementBombTimers | GameRoom.cpp:251-253 | only the bomb timers change, each lowered by one |
| GameRoom.Room.ExplodeBombs | GameRoom.cpp:150-225 | the status is `ExplodeAll` of the old one |
| GameRoom.Room.EndTurn | GameRoom.cpp:251-256 | the status is `FinishTurn` of the old one |
| GameRoom.Room.Tick | GameRoom.cpp:231-267 | the room state is `TickSpec` of the old one, with `_moves` visited in the given order |
| GameRoom.Room.Receive | GameSession.cpp:26-57 | the bytes are appended to the session's buffer and decoded, the cursor moves past the message, and the request is performed as `ReceiveSpec` says |
| ClientCodec.Insert | Client.cpp:279 | `std::map::insert` adds a new key with its value and keeps the value of a key already present |
| ClientCodec.DecIncoming | Client.cpp:312-340 | a decoded message starts inside the bytes; the message is Unknown exactly when its tag is above 4, and then only the tag is consumed |
| ClientCodec.ParseInput | Client.cpp:350-369 | PlaceBomb exactly for the datagram [0], PlaceBlock exactly for [1], Move exactly for two bytes 2, d with d at most 3, carrying direction d |
| ClientRules.ZeroScores | Client.cpp:287-289 | every player gets a score, 0 for a new one; an existing score stays |
| ClientRules.ReceiveExits | Client.cpp:338-340 | the process ends, with status 42, exactly on a tag above 4, and first changes nothing; a message cut short changes nothing either |
| ClientRules.HelloEffect | Client.cpp:318-321 | Hello replaces the parameters, copies radius and board size into the game, changes nothing else, and sends the lobby built from the new parameters |
| ClientRules.AcceptedEffect | Client.cpp:322-325 | AcceptedPlayer adds the player unless its id is taken, keeps the others, and sends the lobby |
| ClientRules.StartedEffect | Client.cpp:326-329 | GameStarted replaces the players, gives each a score (0 if new), leaves the lobby and sends nothing to the display |
| ClientRules.TurnEffect | Client.cpp:330-333 | Turn applies its events in order to the status with the new turn number, sends that board, then clears explosions and scored players |
| ClientRules.TurnShowsTurn | Client.cpp:298 | a Turn without events shows its own turn number |
| ClientRules.EndedEffect | Client.cpp:334-337 | GameEnded drops its scores, returns to the lobby with the status unchanged, and sends the lobby |
| ClientRules.InputEffect | Client.cpp:40-48 | a datagram is valid exactly when it parses; only a valid one sends anything: the command during a game, a Join in the lobby |
| Client.InsertZeros | Client.cpp:287-289 | the loop of `receive_game_started` computes `ZeroScores` |
| Client.Client.constructor | Client.cpp:5-31 | a new client waits in the lobby with no parameters, no game and empty buffers |
| Client.Client.ClearBuffer | Client.cpp:50-53 | the one TCP buffer is emptied for reading and writing alike |
| Client.Client.ReceiveU8 | Client.cpp:79-85 | reads the byte at the cursor as `DecU8` says |
| Client.Client.ReceiveU16 | Client.cpp:87-94 | reads two bytes and `ntohs` as `DecU16` says |
| Client.Client.ReceiveU32 | Client.cpp:96-103 | reads four bytes and `ntohl` as `DecU32` says |
| Client.Client.ReceiveText | Client.cpp:105-113 | reads a length byte and that many bytes as `DecText` says |
| Client.Client.ReceivePlayer | Client.cpp:115-119 | reads name then address |
| Client.Client.ReceivePosition | Client.cpp:121-125 | reads x then y |
| Client.Client.ReceiveIdList | Client.cpp:188-199 | reads a count and that many ids, in order |
| Client.Client.ReceivePositionList | Client.cpp:201-212 | reads a count and that many positions, in order |
| Client.Client.ReceiveEvent | Client.cpp:127-185 | reads one tagged event; a BombPlaced gets the bomb timer of the parameters; another tag gives nothing |
| Client.Client.ReceiveEventList | Client.cpp:152-186 | reads a count and that many events, in order |
| Client.Client.ReceivePlayerEntry | Client.cpp:219-224 | reads one id and player and inserts them |
| Client.Client.ReceiveScoreEntry | Client.cpp:234-239 | reads one id and score and inserts them |
| Client.Client.ReceivePlayerMap | Client.cpp:214-227 | reads a count and that many players, each stored with `insert` |
| Client.Client.ReceiveScoreMap | Client.cpp:229-242 | reads a count and that many scores, each stored with `insert` |
| Client.Client.ReceiveHello | Client.cpp:244-272 | on a whole Hello the parameters are replaced and three are copied into the game; nothing changes on a cut-short one |
| Client.Client.ReceiveAcceptedPlayer | Client.cpp:274-281 | the player is inserted, so a known id keeps its entry |
| Client.Client.ReceiveGameStarted | Client.cpp:283-291 | the players are replaced and each is given a score of 0 with `insert` |
| Client.Client.ReceiveTurn | Client.cpp:293-303 | the turn number is stored and each event applied in order |
| Client.Client.ReceiveGameEnded | Client.cpp:305-310 | the scores are read and dropped; the client is back in the lobby |
| Client.Client.OnHello | Client.cpp:318-321 | the state after tag 0 is `Handle` of a Hello |
| Client.Client.OnAcceptedPlayer | Client.cpp:322-325 | the state after tag 1 is `Handle` of an AcceptedPlayer |
| Client.Client.OnGameStarted | Client.cpp:326-329 | the state after tag 2 is `Handle` of a GameStarted |
| Client.Client.OnTurn | Client.cpp:330-333 | the state after tag 3 is `Handle` of a Turn |
| Client.Client.OnGameEnded | Client.cpp:334-337 | the state after tag 4 is `Handle` of a GameEnded |
| Client.Client.ReceiveMessage | Client.cpp:312-344 | outcome and new state are those of `Receive`; a handled message leaves the buffer cleared |
| Client.Client.Send | Client.cpp:374-378 | one byte is appended and `buf_length` moves by 1 |
| Client.Client.SendText | Client.cpp:380-385 | the size byte and that many bytes are appended, while `buf_length` moves by the full size + 1 |
| Client.Client.Flush | Client.cpp:392-394 | the frame of `buf_length` bytes is sent, then the buffer is cleared |
| Client.Client.SendJoin | Client.cpp:387-396 | exactly the Join frame of the nickname is sent |
| Client.Client.SendPlaceBomb | Client.cpp:398-406 | exactly the PlaceBomb frame is sent |
| Client.Client.SendPlaceBlock | Client.cpp:408-416 | exactly the PlaceBlock frame is sent |
| Client.Client.SendMove | Client.cpp:418-427 | exactly the Move frame with the direction is sent |
| Client.Client.ReceiveInputMessage | Client.cpp:346-372 | `_valid_msg` holds exactly when the datagram parses; during a game a valid command, and only that, goes to the server |
| Client.Client.GuiListenerStep | Client.cpp:40-48 | one round of `gui_listener` does what `Input` says |
| Client.Client.SendGuiU8 | Client.cpp:429-433 | the UDP buffer is extended by the byte |
| Client.Client.SendGuiU16 | Client.cpp:435-440 | the UDP buffer is extended by the big-endian two bytes |
| Client.Client.SendGuiU32 | Client.cpp:442-447 | the UDP buffer is extended by the big-endian four bytes |
| Client.Client.SendGuiText | Client.cpp:449-454 | the UDP buffer is extended by the length byte and the text |
| Client.Client.SendGuiPlayer | Client.cpp:456-459 | name, then address |
| Client.Client.SendGuiPosition | Client.cpp:461-464 | x, then y |
| Client.Client.SendGuiBomb | Client.cpp:466-469 | position, then timer |
| Client.Client.SendGuiPositionItems | Client.cpp:473-476 | each position of the list, in order |
| Client.Client.SendGuiPositionList | Client.cpp:471-477 | the count and the positions |
| Client.Client.SendGuiPositionSet | Client.cpp:479-485 | the count and the positions in ascending order |
| Client.Client.SendGuiBombMap | Client.cpp:487-493 | the count and the bombs only, in id order |
| Client.Client.SendGuiPlayerMap | Client.cpp:495-502 | the count and id and player for each entry in id order |
| Client.Client.SendGuiPositionMap | Client.cpp:504-511 | the count and id and position for each entry in id order |
| Client.Client.SendGuiScoreMap | Client.cpp:513-520 | the count and id and score for each entry in id order |
| Client.Client.SendLobby | Client.cpp:522-540 | one datagram, the lobby of the parameters and players, is sent |
| Client.Client.SendGameHead | Client.cpp:543-550 | tag 1, the name, the board size, the game length and the turn |
| Client.Client.SendBoard | Client.cpp:551-556 | players, positions, blocks, bombs, explosions and scores |
| Client.Client.SendGame | Client.cpp:542-565 | one datagram with the board is sent, then the explosions and scored players are cleared |
| ListRoundTrip.IdMapSize | GameSession.cpp:205-212 | a map keyed by `uint8_t` ids has at most 256 entries, so its count is written exactly |
| ListRoundTrip.CountAt | Client.cpp:188-199 | a count below 2^32 is read back |
| ListRoundTrip.IdListAt | Client.cpp:188-199 | the client reads back the id list a session wrote, consuming exactly its bytes |
| ListRoundTrip.PositionListAt | Client.cpp:201-212 | the client reads back the position list a session wrote |
| ListRoundTrip.ToClientAll | Client.cpp:152-186 | the client's list of events has one entry per server event, each the client's copy of it |
| ListRoundTrip.EventAt | Client.cpp:152-186 | the client reads back each event a session wrote, with its own bomb timer in a BombPlaced |
| ListRoundTrip.EventListAt | Client.cpp:152-186 | the client reads back the event list a session wrote |
| ListRoundTrip.MapOfAll | Client.cpp:214-227 | inserting the entries of a map in ascending key order rebuilds the map |
| ListRoundTrip.InsertExtends | Client.cpp:223 | `insert` of the next entry extends the part of the map read so far |
| ListRoundTrip.PlayerMapAt | Client.cpp:214-227 | the client reads back the player map a session wrote |
| ListRoundTrip.ScoreMapAt | Client.cpp:229-242 | the client reads back the score map a session wrote |
| RoundTrip.InOf | Client.cpp:312-340 | no message a session sends is read as Unknown |
| RoundTrip.HelloAt | Client.cpp:244-272 | the client reads back a Hello a session wrote, consuming exactly its bytes |
| RoundTrip.AcceptedAt | Client.cpp:274-281 | the client reads back an AcceptedPlayer a session wrote |
| RoundTrip.StartedAt | Client.cpp:283-291 | the client reads back a GameStarted a session wrote, when it fits the session's buffer |
| RoundTrip.TurnAt | Client.cpp:293-303 | the client reads back a Turn a session wrote, when it fits the session's buffer |
| RoundTrip.EndedAt | Client.cpp:305-310 | the client reads back a GameEnded a session wrote |
| RoundTrip.MessageAt | Client.cpp:312-340 | wherever it starts in the received bytes, a message a session sends within its 65507-byte buffer is read back as itself, and exactly its bytes are consumed |
| RoundTrip.MessageRoundTrip | GameSession.cpp:223-274 | a message at the head of the stream is read back whatever follows it |
| RoundTrip.ReceiveServerMessage | Client.cpp:312-344 | `receive_message` on a message a session sent handles that message, never exits, and consumes exactly its bytes |
| RoundTrip.LobbyIsHelloAndPlayers | Client.cpp:522-540 | the lobby datagram is the server's Hello, tag included, followed by the player map in the server's layout |
| RoundTrip.HelloEchoedToDisplay | Client.cpp:318-321 | after a Hello the display gets back the bytes of that Hello, then the known players |
| RoundTrip.JoinFrameDecodes | Client.cpp:387-396 | a session reads a Join with the nickname back when it fits in 255 bytes, and the frame's length is its bytes |
| RoundTrip.JoinFrameOverlong | Client.cpp:380-385 | a longer nickname is read as its first size modulo 256 bytes, while the frame claims at least 256 bytes more than were written |
| RoundTrip.CommandReachesServer | Client.cpp:346-372 | a valid display command reaches the server as the same command with its tag shifted up by one; a Move keeps its direction |
| RobotsServer.CheckUint8 | robots-server.cpp:14-18 | accepts exactly the values that survive the cast to `uint8_t` |
| RobotsServer.CheckUint16 | robots-server.cpp:20-24 | accepts exactly the values that survive the cast to `uint16_t` |
| RobotsServer.CheckUint32 | robots-server.cpp:26-30 | accepts exactly the values that survive the cast to `uint32_t` |
| RobotsServer.SeedCheckRejectsOnlyNegatives | robots-server.cpp:26-30 | on an `int` seed the check rejects exactly the negative values |
| RobotsServer.Configure | robots-server.cpp:94-105 | parameters exist exactly when every notifier accepts and a seed was given; each parameter then equals its option unchanged |
| RobotsClient.CheckPort | robots-client.cpp:22-26 | accepts exactly the values that survive the cast to `uint16_t` |
| RobotsClient.ScanStart | robots-client.cpp:29 | the colon search starts at `size() - 1` in 64-bit arithmetic: inside the text exactly when it is non-empty |
| RobotsClient.EmptyAddressReadsPastEnd | robots-client.cpp:29-31 | on the empty address the search's first test passes at an index past the end |
| RobotsClient.ColonFrom | robots-client.cpp:29-31 | the backward search stops at a colon, or at 0, with no colon skipped |
| RobotsClient.LastColon | robots-client.cpp:29-31 | the index is 0 or a colon, and no colon follows it |
| RobotsClient.FindColon | robots-client.cpp:29-31 | the loop finds the last colon past the first byte, or 0 |
| RobotsClient.DigitCount | robots-client.cpp:40-47 | the length of the run of digits a number read takes |
| RobotsClient.StrToUl | robots-client.cpp:66-72 | `strtoul` gives a value of at most `ULONG_MAX` |
| RobotsClient.Decimal | robots-client.cpp:40-47 | the decimal text of a number is digits whose value is the number |
| RobotsClient.ReadsDecimal | robots-client.cpp:40-47 | both the stream read and `strtoul` read back a number written in decimal, whatever non-digit follows |
| RobotsClient.CheckedPortIsRead | robots-client.cpp:66-72 | a port that passes `check_address` is the port `get_port_from_address` reads |
| RobotsClient.CheckAddress | robots-client.cpp:28-56 | accepts exactly an address with a colon past the first byte, a port text that starts with a valid port, and a valid IP for a host that holds a colon |
| RobotsClient.GetHost | robots-client.cpp:58-64 | the text before the last colon |
| RobotsClient.GetPort | robots-client.cpp:66-72 | `strtoul` of the text after the last colon, narrowed to 16 bits |
| RobotsClient.AddressSplits | robots-client.cpp:37-38 | host, colon and port text make up the address again |
| RobotsClient.EmptyAddressRejected | robots-client.cpp:33-35 | the empty address is rejected once the search gives it index 0 |
| RobotsClient.AddressRoundTrip | robots-client.cpp:28-72 | `host:port` with a decimal port is accepted, and the client uses that host and that port |
| RobotsClient.CheckedAddressPort | robots-client.cpp:66-72 | an accepted address gives the client the port that was checked |

## Left out

- Sockets, `async_*` completions, coroutines and the turn timer are left out. The model
  performs one completion at a time, which is the single-threaded `io_context` order. A frame
  written is an entry of `written` or `toServer`; a datagram is an entry of `toGui`.
- `Server.cpp` and the acceptor loop are not part of this model. A new session is a fresh
  `SessionId` given to `Room.Join`.
- `main` of both programs is left out: option parsing, resolvers, and starting the objects.
  `Configure`, `CheckAddress`, `GetHost` and `GetPort` model the parts of it that compute values.
- `RobotsServer.Configure`: with no seed, the source constructor's read of the missing option
  throws and the program exits. The model gives None there. The clock value the source then
  computes is never read, so it is not modelled.
- `RobotsClient.CheckAddress`: `boost::asio::ip::address::from_string` is the parameter `ipOk`.
- `RobotsClient.ParseInt` and `RobotsClient.StrToUl` model `operator>>` into an `int` and
  `strtoul` in the C locale, as far as the address check needs them. Locales and `errno` are
  not modelled.
- `RobotsClient.GetPort` requires a non-empty address. On the empty one the source reads out of
  range (see Findings).
- `Client.h` and `ServerParameters.h` are not part of this model. `ServerParams` is the plain
  record of the values the code reads. `ClientMessage` is modelled as `PendingMove`.
- `Event::resolve` is not in the source. The client's event application is the function
  parameter `apply`. `ClientRules.TurnEffect` states what a Turn does for any `apply`.
- The iteration order of `std::map<std::shared_ptr<GameSession>, …>` and of
  `std::set<std::shared_ptr<GameSession>>` depends on where the sessions sit in memory. `Room.Tick` takes the
  order of `_moves` as the parameter `order`. A broadcast goes to a set of sessions.
- The room's methods that draw positions require a non-empty board. `random() % size` with size
  0 is undefined behaviour in C++.
- A truncated inbound message is taken as incomplete (`Truncated`) instead of the stale bytes
  the source would read from its fixed buffer. The client's `receive_*` likewise end in
  `Waiting` when the bytes run out. In the source they suspend until more bytes arrive.
- `exit(42)` in `receive_message` is the outcome `Exited(42)`.
- `timer--` and the bomb timer decrement model the 16-bit wrap; the loop index `int i` of the
  rays is unbounded, which is exact because it stays within 16 bits.
- The model works on values stored in fields. Aliasing between the room and its sessions,
  through the `shared_ptr`s, is not modelled.
- DecText: reads a text's length byte unsigned. That is how the sender's `(uint8_t) size` means
  it, and how `(uint64_t) buf[i]` reads it where `char` is unsigned (AArch64 Linux). Where
  `char` is signed (x86-64), `Wire.DecTextSigned` is the reading, and the Findings table shows
  what it breaks. The members below rely on the unsigned reading.
- ReceiveText: both `GameSession.Session.ReceiveText` and `Client.Client.ReceiveText` read the
  length byte as `DecText` does. Where `char` is signed, a length of 128 or more makes the server
  throw and makes the client read past `buf`.
- TextRoundTrip: the round trip of texts up to 255 bytes assumes an unsigned `char`. Where
  `char` is signed it holds for texts under 128 bytes (`Wire.SignedTextRoundTrip`).
- PlayerRoundTrip: assumes an unsigned `char`. Where it is signed, a name or address of 128
  bytes or more is not read back.
- PlayerMapAt: assumes an unsigned `char`, for the same reason as PlayerRoundTrip.
- HelloAt: assumes an unsigned `char`. Where it is signed, a server name of 128 bytes or more
  is not read back.
- AcceptedAt: assumes an unsigned `char`, for the player's name and address.
- StartedAt: assumes an unsigned `char`, for every player's name and address.
- TurnAt: requires the Turn to fit the session's 65507-byte `_buffer`, as `StartedAt` does for
  GameStarted. The source does not check this; a longer message is the overflow described
  under SendTurn and SendGameStarted, so there is nothing the client could read back.
- MessageAt: its `MessageFits` admits texts of up to 255 bytes, which assumes an unsigned
  `char`. Where it is signed, only texts under 128 bytes are read back.
- MessageRoundTrip: assumes an unsigned `char`, as MessageAt does.
- ReceiveServerMessage: that the client never exits on a server message assumes an unsigned
  `char`. Where it is signed, a text of 128 bytes or more makes `read_message` write past `buf`.
- HelloEchoedToDisplay: assumes an unsigned `char`. Where it is signed, it holds for server
  names under 128 bytes.
- DecodeInbound: decodes the Join of a name of 128 to 255 bytes. Where `char` is signed, the
  server throws `std::length_error` there instead (`GameSession.SignedJoinThrows`).
- JoinFrameDecodes: assumes an unsigned `char`. Where it is signed, a nickname of 128 to 255
  bytes makes the server throw instead of joining.
- JoinFrameOverlong: assumes an unsigned `char`. Where it is signed, a nickname whose size
  modulo 256 is 128 or more makes the server throw instead of joining with the prefix.
- Receive: `GameRoom.Room.Receive` may run any number of times for a session, as if the handler
  re-armed its read (`GameSession.Served` with `rearm`). As written, `read_message` is posted
  once, from `start`, and never again. So only the first receive of a session is handled, and
  only the first message in it (`GameSession.SecondRequestLost`).
- ReadInbound: `GameSession.Session.ReadInbound` is one receive of that re-armed handler and
  leaves the session able to receive again. As written, the session is never read again.
- ReceiveMessage: `Client.Client.ReceiveMessage` runs as one step, on the bytes of `buffer` and
  `readIdx`. In the source the same `buf`, `buf_length` and `read_idx` also hold the command
  being written. `gui_listener` can call `clear_buffer()` and write a command while
  `server_listener` is suspended in `read_message` half-way through a message. The rest of that
  message is then read at the wrong offsets. The model does not capture this interleaving.
- ReceiveMessage: the source reads a message into the fixed 65535-byte `buf`, and a longer
  message writes past it. `buffer` has no bound. A session cannot send a message that long
  without first overflowing its own 65507-byte `_buffer`, which `RoundTrip.MessageFits`
  excludes.
- SendTurn: `GameSession.Session.SendTurn` writes the whole Turn into a `buffer` without
  bound. In the source, a Turn over 65507 bytes overflows `_buffer` into `_read_idx`,
  `_buf_len` and the rest of the session (`GameSession.BlockTurnSize` gives an input).
- SendGameStarted: `GameSession.Session.SendGameStarted` writes the whole player map in the
  same way; in the source a map over 65506 bytes, such as 255 players with 255-byte
  names, overflows `_buffer`.
- SendMessage: `GameSession.Session.SendMessage` records the frame at once. In the source
  `async_write` returns before the write completes, and the next `send_*` clears `_buffer`
  and writes over it from offset 0 while that write may still be in flight. This happens for
  the join replay and for back-to-back broadcasts. The model does not capture it.
- SendJoin, SendPlaceBomb, SendPlaceBlock and SendMove write into `out` and `outLength`, apart
  from the bytes being read. In the source they clear and reuse the one buffer, as described
  under ReceiveMessage.
- `GameTypes.AscendingPositions` proves the set's order. The client encoder uses the ascending
  listing directly; no separate lemma ties `std::set` to `std::list` encoding.

## Findings

| source | as written | input that shows it | evidently intended | confidence | as-written member | corrected member |
|---|---|---|---|---|---|---|
| GameSession.cpp:75-78 | `uint64_t size = (uint64_t) _buffer[_read_idx]` widens a plain `char`. Where `char` is signed (x86-64), a length byte of 128 to 255 becomes a size near 2^64, and `str = {_buffer + _read_idx, size}` throws `std::length_error` out of the receive handler. `Client.cpp:107` widens `buf[read_idx]` the same way and asks `read_message` for that many bytes | the Join frame `[0, 200]` followed by a 200-byte name | the length byte is read as the `uint8_t` the sender wrote, so every text of up to 255 bytes reads back | not executed | Wire.SignedLengthNotReadBack | Wire.TextRoundTrip |
| GameSession.cpp:16-56 | `start` posts `read_message` once, and its completion handler decodes one message and never posts another read, so a session's later requests are never received | a Join, then a Move in a later receive | the handler re-arms the read, so every request of a session reaches the room | not executed | GameSession.SecondRequestLost | GameSession.RearmedServesEach |
| robots-client.cpp:29-31 | `colon_idx = address.size() - 1` wraps to 2^64 - 1 on an empty address, the loop test `colon_idx > 0` passes, and `address[colon_idx]` is read out of range (also in `get_host_from_address` and `get_port_from_address`) | the address "" | the empty address is rejected as having no colon | not executed | RobotsClient.EmptyAddressReadsPastEnd | RobotsClient.EmptyAddressRejected |
