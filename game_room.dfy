/** The room every session joins (GameRoom.cpp, GameRoom.h). `RoomState` is the whole of
    the room as a value and the `...Spec` functions say what each operation makes of it;
    the lemmas state what those operations promise. The `Room` class holds the same state
    in fields and performs each operation step by step, proved against these functions.

    A session is an abstract handle, `SessionId`. The `_id` a session object keeps for its
    player lives here as the map `ids`. Anything the room sends, to one session or to all
    of `_players`, is appended to `outbox` together with the sessions it goes to. */
module GameRoom {
  import opened Collections
  import opened GameTypes
  import opened RoomRules
  import GameSession

  type SessionId = nat

  /** A message handed to every session of `to`. */
  datatype Outgoing = Outgoing(to: set<SessionId>, msg: ServerMessage)

  /** Every event the messages sent carry has agreeing tag and alternative. */
  predicate OutboxOk(out: seq<Outgoing>) {
    forall i | 0 <= i < |out| :: MessageConsistent(out[i].msg)
  }

  lemma OutboxAppend(out: seq<Outgoing>, more: seq<Outgoing>)
    requires OutboxOk(out) && OutboxOk(more)
    ensures OutboxOk(out + more)
  {
    forall i | 0 <= i < |out + more| ensures MessageConsistent((out + more)[i].msg) {
      if i < |out| { assert (out + more)[i] == out[i]; } else { assert (out + more)[i] == more[i - |out|]; }
    }
  }

  datatype RoomState = RoomState(
    rng: u32,                               // _next_random_num
    nextId: PlayerId,                       // _next_id
    nextBomb: BombId,                       // _next_bomb
    inProgress: bool,                       // _game_in_progress
    status: GameStatus,                     // _game_status
    moves: map<SessionId, PendingMove>,     // _moves
    sessions: set<SessionId>,               // _players
    ids: map<SessionId, PlayerId>,          // each session's _id
    outbox: seq<Outgoing>)                  // everything sent so far

  /** A `GameStatus` before anything happened: turn 0 and every collection empty. */
  function EmptyStatus(turn: u16): (st: GameStatus)
    ensures st.turn == turn && st.turns == map[] && st.blocks == [] && st.bombs == map[]
    ensures st.players == map[] && st.positions == map[] && st.scores == map[]
  {
    GameStatus(turn, map[], [], map[], map[], map[], map[])
  }

  /** The room the constructor builds: no game in progress, both counters at 0 and the
      generator at the seed. */
  function Fresh(p: ServerParams): RoomState {
    RoomState(p.seed, 0, 0, false, EmptyStatus(0), map[], {}, map[], [])
  }

  /** `participant->get_id()`: a session that never joined still holds the initial `-1`,
      which `uint8_t` keeps as 255. */
  function IdOf(ids: map<SessionId, PlayerId>, sid: SessionId): PlayerId {
    if sid in ids then ids[sid] else 255
  }

  // ------------------------------------------------ join, disconnect, add_message

  /** The AcceptedPlayer replay of `players`, in the order `keys`. */
  function AcceptedReplay(sid: SessionId, players: map<PlayerId, Player>, keys: seq<int>): (out: seq<Outgoing>)
    requires IdKeys(keys) && forall i | 0 <= i < |keys| :: keys[i] in players
    ensures |out| == |keys|
  {
    seq(|keys|, i requires 0 <= i < |keys| => Outgoing({sid}, AcceptedPlayer(keys[i] as PlayerId, players[keys[i] as PlayerId])))
  }

  /** Every 16-bit key of a turn log. */
  predicate TurnKeys(keys: seq<int>) {
    forall i | 0 <= i < |keys| :: 0 <= keys[i] < 0x1_0000
  }

  /** The Turn replay of the logged turns, in the order `keys`. */
  function TurnReplay(sid: SessionId, turns: map<u16, seq<Event>>, keys: seq<int>): (out: seq<Outgoing>)
    requires TurnKeys(keys) && forall i | 0 <= i < |keys| :: keys[i] in turns
    ensures |out| == |keys|
  {
    seq(|keys|, i requires 0 <= i < |keys| => Outgoing({sid}, Turn(keys[i] as u16, turns[keys[i] as u16])))
  }

  /** The lobby replay: every accepted player, in the iteration order of `players`. */
  function LobbyReplay(sid: SessionId, players: map<PlayerId, Player>): seq<Outgoing> {
    var keys := Ascending(players.Keys);
    AcceptedReplay(sid, players, keys)
  }

  /** The game replay: GameStarted, then every logged turn in the iteration order of `turns`. */
  function GameReplay(sid: SessionId, players: map<PlayerId, Player>, turns: map<u16, seq<Event>>): seq<Outgoing> {
    var keys := Ascending(turns.Keys);
    [Outgoing({sid}, GameStarted(players))] + TurnReplay(sid, turns, keys)
  }

  /** `join`: the session is registered and gets Hello; during a game it then gets
      GameStarted and every logged turn in turn order, in the lobby every accepted player in
      id order. */
  function JoinSpec(r: RoomState, sid: SessionId, p: ServerParams): RoomState {
    r.(sessions := r.sessions + {sid}, outbox := r.outbox + JoinSent(r, sid, p))
  }

  /** What a joining session is sent: Hello, then the replay. */
  function JoinSent(r: RoomState, sid: SessionId, p: ServerParams): seq<Outgoing> {
    var replay :=
      if r.inProgress then GameReplay(sid, r.status.players, r.status.turns)
      else LobbyReplay(sid, r.status.players);
    [Outgoing({sid}, HelloOf(p))] + replay
  }

  /** Announcing the players `keys` lists goes to `sid` alone and announces each of them
      exactly once, with its entry, in ascending id order. */
  lemma AcceptedReplayFacts(sid: SessionId, players: map<PlayerId, Player>, keys: seq<int>)
    requires ListsAscending(keys, players.Keys)
    ensures IdKeys(keys)
    ensures var out := AcceptedReplay(sid, players, keys);
      && (forall i | 0 <= i < |out| :: out[i].to == {sid} && out[i].msg.AcceptedPlayer?
                                      && out[i].msg.playerId in players && out[i].msg.player == players[out[i].msg.playerId])
      && (forall i, k | 0 <= i < k < |out| && out[i].msg.AcceptedPlayer? && out[k].msg.AcceptedPlayer? ::
            out[i].msg.playerId < out[k].msg.playerId)
      && (forall id | id in players :: exists i | 0 <= i < |out| :: out[i].msg == AcceptedPlayer(id, players[id]))
  {
    var out := AcceptedReplay(sid, players, keys);
    forall id | id in players ensures exists i | 0 <= i < |out| :: out[i].msg == AcceptedPlayer(id, players[id]) {
      var i :| 0 <= i < |keys| && keys[i] == id;
      assert out[i].msg == AcceptedPlayer(id, players[id]);
    }
  }

  /** Replaying the turns `keys` lists goes to `sid` alone and sends each logged turn
      exactly once, with its log, in ascending turn order. */
  lemma TurnReplayFacts(sid: SessionId, turns: map<u16, seq<Event>>, keys: seq<int>)
    requires ListsAscending(keys, turns.Keys)
    ensures TurnKeys(keys)
    ensures var out := TurnReplay(sid, turns, keys);
      && (forall i | 0 <= i < |out| :: out[i].to == {sid} && out[i].msg.Turn?
                                      && out[i].msg.turn in turns && out[i].msg.events == turns[out[i].msg.turn])
      && (forall i, k | 0 <= i < k < |out| && out[i].msg.Turn? && out[k].msg.Turn? :: out[i].msg.turn < out[k].msg.turn)
      && (forall t | t in turns :: exists i | 0 <= i < |out| :: out[i].msg == Turn(t, turns[t]))
  {
    var out := TurnReplay(sid, turns, keys);
    forall t | t in turns ensures exists i | 0 <= i < |out| :: out[i].msg == Turn(t, turns[t]) {
      var i :| 0 <= i < |keys| && keys[i] == t;
      assert out[i].msg == Turn(t, turns[t]);
    }
  }

  /** A joining session is registered and sent Hello, then the replay: the game replay
      during a game, the lobby replay otherwise; nothing else of the room changes. */
  lemma JoinSends(r: RoomState, sid: SessionId, p: ServerParams)
    ensures var j := JoinSpec(r, sid, p);
            var n := |r.outbox| + 1;
      && j == r.(sessions := r.sessions + {sid}, outbox := j.outbox)
      && |j.outbox| >= n && j.outbox[..|r.outbox|] == r.outbox
      && j.outbox[|r.outbox|] == Outgoing({sid}, HelloOf(p))
      && j.outbox[n..] == (if r.inProgress then GameReplay(sid, r.status.players, r.status.turns)
                           else LobbyReplay(sid, r.status.players))
  {
    var j := JoinSpec(r, sid, p);
    assert j.outbox[..|r.outbox|] == r.outbox;
  }

  /** Announcing players sends no event at all. */
  lemma AcceptedReplayOk(sid: SessionId, players: map<PlayerId, Player>, keys: seq<int>)
    requires IdKeys(keys) && forall i | 0 <= i < |keys| :: keys[i] in players
    ensures OutboxOk(AcceptedReplay(sid, players, keys))
  {
  }

  /** Replaying consistent logs sends consistent events. */
  lemma TurnReplayOk(sid: SessionId, turns: map<u16, seq<Event>>, keys: seq<int>)
    requires TurnKeys(keys) && forall i | 0 <= i < |keys| :: keys[i] in turns
    requires forall t | t in turns :: AllConsistent(turns[t])
    ensures OutboxOk(TurnReplay(sid, turns, keys))
  {
    var out := TurnReplay(sid, turns, keys);
    forall i | 0 <= i < |out| ensures MessageConsistent(out[i].msg) {
      assert out[i].msg.events == turns[keys[i] as u16];
    }
  }

  /** What a join sends carries consistent events when the logs are consistent. */
  lemma JoinSentOk(r: RoomState, sid: SessionId, p: ServerParams)
    requires LogsConsistent(r.status)
    ensures OutboxOk(JoinSent(r, sid, p))
  {
    var replay := if r.inProgress then GameReplay(sid, r.status.players, r.status.turns)
                  else LobbyReplay(sid, r.status.players);
    if r.inProgress {
      var keys := Ascending(r.status.turns.Keys);
      TurnReplayOk(sid, r.status.turns, keys);
      OutboxAppend([Outgoing({sid}, GameStarted(r.status.players))], TurnReplay(sid, r.status.turns, keys));
    } else {
      AcceptedReplayOk(sid, r.status.players, Ascending(r.status.players.Keys));
    }
    OutboxAppend([Outgoing({sid}, HelloOf(p))], replay);
  }

  /** Validity does not look at the sessions, and sending consistent messages keeps it. */
  lemma SendKeepsValid(r: RoomState, p: ServerParams, sessions: set<SessionId>, more: seq<Outgoing>)
    requires ValidState(r, p) && OutboxOk(more)
    ensures ValidState(r.(sessions := sessions, outbox := r.outbox + more), p)
  {
    OutboxAppend(r.outbox, more);
  }

  /** A join keeps the room valid. */
  lemma JoinKeepsValid(r: RoomState, sid: SessionId, p: ServerParams)
    requires ValidState(r, p)
    ensures ValidState(JoinSpec(r, sid, p), p)
  {
    JoinSentOk(r, sid, p);
    SendKeepsValid(r, p, r.sessions + {sid}, JoinSent(r, sid, p));
  }

  /** `disconnect`: the session leaves `_players` and nothing else. */
  function DisconnectSpec(r: RoomState, sid: SessionId): RoomState {
    r.(sessions := r.sessions - {sid})
  }

  /** `add_message`: `std::map::insert` keeps a pending move the session already has. */
  function AddMessageSpec(r: RoomState, sid: SessionId, m: PendingMove): RoomState {
    if sid in r.moves then r else r.(moves := r.moves[sid := m])
  }

  // ------------------------------------------------ init_game and resolve_join

  /** `init_game`: turn 0 is set up from the players, in id order, and the block draws; all
      sessions get GameStarted and the turn, which is logged as `turns[0]`; the turn
      counter becomes 1. The timer `handle_turn` arms is the caller's: see `TickSpec`. */
  function InitGameSpec(r: RoomState, p: ServerParams): RoomState
    requires p.sizeX > 0 && p.sizeY > 0
  {
    var st := r.status.(turn := 0);
    var keys := Ascending(st.players.Keys);
    var spawned := Spawn(keys, |keys|, Setup(r.rng, st.positions, st.blocks, []), p.sizeX, p.sizeY);
    var s := Drop(p.initialBlocks, spawned, p.sizeX, p.sizeY);
    var out := r.outbox + [Outgoing(r.sessions, GameStarted(st.players)), Outgoing(r.sessions, Turn(0, s.events))];
    r.(rng := s.rng,
       status := st.(positions := s.positions, blocks := s.blocks, turns := st.turns[0 := s.events], turn := 1),
       outbox := out)
  }

  /** The lobby half of `resolve_join`: the session gets the next id, the player is
      inserted under it (an existing entry is kept) and every session hears of it. */
  function AcceptSpec(r: RoomState, sid: SessionId, player: Player): RoomState {
    var id := r.nextId;
    var players := if id in r.status.players then r.status.players else r.status.players[id := player];
    r.(ids := r.ids[sid := id],
       status := r.status.(players := players),
       outbox := r.outbox + [Outgoing(r.sessions, AcceptedPlayer(id, player))],
       nextId := if id == 0xFF then 0 else id + 1)  // `_next_id++` on uint8_t
  }

  /** `resolve_join`: ignored during a game; in the lobby the player is accepted, and the
      game starts once the room holds `players_count` players. */
  function ResolveJoinSpec(r: RoomState, sid: SessionId, player: Player, p: ServerParams): RoomState
    requires p.sizeX > 0 && p.sizeY > 0
  {
    if r.inProgress then r
    else
      var joined := AcceptSpec(r, sid, player);
      if |joined.status.players| == p.playersCount then InitGameSpec(joined.(inProgress := true), p) else joined
  }

  /** No turn logged, no block, no bomb and no robot on the board: a status between rounds. */
  predicate Cleared(st: GameStatus) {
    st.turns == map[] && st.blocks == [] && st.bombs == map[] && st.positions == map[]
  }

  /** `init_game` logs turn 0 and sends it to every session after GameStarted;
      the turn counter is then 1 and the players, sessions and moves are left alone. */
  lemma InitGameSends(r: RoomState, p: ServerParams)
    requires p.sizeX > 0 && p.sizeY > 0
    ensures var g := InitGameSpec(r, p);
            var log := Log(g.status.(turn := 0));
      && g.status.turn == 1 && g.status.turns == r.status.turns[0 := log]
      && g.status.players == r.status.players && g.status.bombs == r.status.bombs && g.status.scores == r.status.scores
      && g.outbox == r.outbox + [Outgoing(r.sessions, GameStarted(r.status.players)), Outgoing(r.sessions, Turn(0, log))]
      && g == r.(rng := g.rng, status := g.status, outbox := g.outbox)
  {
  }

  /** What `init_game` takes from its two loops, run from an empty setup. */
  lemma InitGameUnfold(r: RoomState, p: ServerParams)
    requires p.sizeX > 0 && p.sizeY > 0 && r.status.positions == map[] && r.status.blocks == []
    ensures var keys := Ascending(r.status.players.Keys);
            var s := Drop(p.initialBlocks, Spawn(keys, |keys|, Setup(r.rng, map[], [], []), p.sizeX, p.sizeY), p.sizeX, p.sizeY);
            var g := InitGameSpec(r, p);
      && g.status.positions == s.positions && g.status.blocks == s.blocks
      && Log(g.status.(turn := 0)) == s.events
  {
  }

  /** `init_game` on a lobby puts every accepted player, and no one else, on the board, and
      places at most `initial_blocks` blocks, all on the board and no two on one tile. */
  lemma InitGameBoard(r: RoomState, p: ServerParams)
    requires p.sizeX > 0 && p.sizeY > 0 && Cleared(r.status)
    ensures var g := InitGameSpec(r, p);
      && (forall q :: q in g.status.positions <==> q in r.status.players)
      && (forall q | q in g.status.positions :: OnBoard(g.status.positions[q], p.sizeX, p.sizeY))
      && Distinct(g.status.blocks) && |g.status.blocks| <= p.initialBlocks
      && AllOnBoard(g.status.blocks, p.sizeX, p.sizeY)
  {
    var keys := Ascending(r.status.players.Keys);
    var s0 := Setup(r.rng, map[], [], []);
    AscendingFresh(r.status.players.Keys);
    SpawnSetup(keys, s0, p.sizeX, p.sizeY);
    InitSetup(keys, s0, p.sizeX, p.sizeY, p.initialBlocks);
    InitGameUnfold(r, p);
  }

  /** Turn 0 opens with one PlayerMoved per player, in id order, carrying the position that
      player got; every event of it pairs its tag and alternative. */
  lemma InitGameMoves(r: RoomState, p: ServerParams)
    requires p.sizeX > 0 && p.sizeY > 0 && Cleared(r.status)
    ensures var g := InitGameSpec(r, p);
            var keys := Ascending(r.status.players.Keys);
            var log := Log(g.status.(turn := 0));
      && |log| == |keys| + |g.status.blocks| && AllConsistent(log)
      && (forall j | 0 <= j < |keys| ::
            keys[j] as PlayerId in g.status.positions
            && log[j] == MakeEvent(PlayerMoved(keys[j] as PlayerId, g.status.positions[keys[j] as PlayerId])))
  {
    var keys := Ascending(r.status.players.Keys);
    var s0 := Setup(r.rng, map[], [], []);
    AscendingFresh(r.status.players.Keys);
    InitSetup(keys, s0, p.sizeX, p.sizeY, p.initialBlocks);
    InitGameUnfold(r, p);
  }

  /** After the PlayerMoved events turn 0 holds one BlockPlaced per block, in the order the
      blocks were placed. */
  lemma InitGameBlocks(r: RoomState, p: ServerParams)
    requires p.sizeX > 0 && p.sizeY > 0 && Cleared(r.status)
    ensures var g := InitGameSpec(r, p);
            var keys := Ascending(r.status.players.Keys);
            var log := Log(g.status.(turn := 0));
      && |log| == |keys| + |g.status.blocks|
      && (forall j | |keys| <= j < |log| :: log[j] == MakeEvent(BlockPlaced(g.status.blocks[j - |keys|])))
  {
    var keys := Ascending(r.status.players.Keys);
    var s0 := Setup(r.rng, map[], [], []);
    var s := Drop(p.initialBlocks, Spawn(keys, |keys|, s0, p.sizeX, p.sizeY), p.sizeX, p.sizeY);
    AscendingFresh(r.status.players.Keys);
    InitSetup(keys, s0, p.sizeX, p.sizeY, p.initialBlocks);
    InitGameUnfold(r, p);
    var g := InitGameSpec(r, p);
    var log := Log(g.status.(turn := 0));
    assert log == s.events && g.status.blocks == s.blocks;
    forall j | |keys| <= j < |log| ensures log[j] == MakeEvent(BlockPlaced(g.status.blocks[j - |keys|])) {
      assert s.events[j] == MakeEvent(BlockPlaced(s.blocks[j - |keys|]));
    }
  }

  /** Accepting a player in the lobby: the session is given the next id, that id now names
      a player (the join's, unless the id was taken), every session is told of it, and the
      next id moves on by one, on 8 bits. */
  lemma AcceptFacts(r: RoomState, sid: SessionId, player: Player)
    ensures var a := AcceptSpec(r, sid, player);
      && IdOf(a.ids, sid) == r.nextId
      && (forall s | s in r.ids && s != sid :: IdOf(a.ids, s) == r.ids[s])
      && r.nextId in a.status.players
      && a.status.players[r.nextId] == (if r.nextId in r.status.players then r.status.players[r.nextId] else player)
      && a.status.players.Keys == r.status.players.Keys + {r.nextId}
      && (forall q | q in r.status.players :: a.status.players[q] == r.status.players[q])
      && a.outbox == r.outbox + [Outgoing(r.sessions, AcceptedPlayer(r.nextId, player))]
      && a.nextId == (r.nextId + 1) % 0x100 && (r.nextId < 0xFF ==> a.nextId == r.nextId + 1)
      && a == r.(ids := a.ids, status := r.status.(players := a.status.players), outbox := a.outbox, nextId := a.nextId)
  {
  }

  /** During a game `resolve_join` does nothing. In the lobby the player is accepted, and the
      round starts, right after the AcceptedPlayer message, exactly when the room then holds
      `players_count` players. */
  lemma ResolveJoinFacts(r: RoomState, sid: SessionId, player: Player, p: ServerParams)
    requires p.sizeX > 0 && p.sizeY > 0
    ensures r.inProgress ==> ResolveJoinSpec(r, sid, player, p) == r
    ensures !r.inProgress ==>
      var a := AcceptSpec(r, sid, player);
      var j := ResolveJoinSpec(r, sid, player, p);
      && (j.inProgress <==> |a.status.players| == p.playersCount)
      && (!j.inProgress ==> j == a)
      && (j.inProgress ==> j == a.(inProgress := true, rng := j.rng, status := j.status, outbox := j.outbox)
                           && j.status.players == a.status.players && j.status.turn == 1
                           && j.outbox[..|a.outbox|] == a.outbox
                           && j.outbox[|a.outbox|] == Outgoing(r.sessions, GameStarted(a.status.players)))
  {
    if !r.inProgress {
      var a := AcceptSpec(r, sid, player);
      if |a.status.players| == p.playersCount {
        InitGameSends(a.(inProgress := true), p);
        var j := ResolveJoinSpec(r, sid, player, p);
        assert j.outbox[..|a.outbox|] == a.outbox;
      }
    }
  }

  /** In a valid lobby the ids handed out are 0, 1, ... in join order, so each join adds a
      new player, the join that reaches `players_count` players starts the round and every
      other one stays in the lobby; either way the room stays valid. */
  lemma ResolveJoinKeepsValid(r: RoomState, sid: SessionId, player: Player, p: ServerParams)
    requires ValidState(r, p)
    ensures ValidState(ResolveJoinSpec(r, sid, player, p), p)
    ensures !r.inProgress && p.playersCount > 0 ==>
      && r.nextId !in r.status.players
      && AcceptSpec(r, sid, player).status.players == r.status.players[r.nextId := player]
      && (ResolveJoinSpec(r, sid, player, p).inProgress <==> r.nextId + 1 == p.playersCount)
  {
    if !r.inProgress {
      var a := AcceptSpec(r, sid, player);
      AcceptFacts(r, sid, player);
      OutboxAppend(r.outbox, [Outgoing(r.sessions, AcceptedPlayer(r.nextId, player))]);
      if p.playersCount > 0 {
        assert r.nextId !in r.status.players;
        assert a.status.players.Keys == Below(r.nextId + 1);
        assert |a.status.players| == |a.status.players.Keys| == r.nextId + 1;
      }
      if |a.status.players| == p.playersCount {
        StartKeepsValid(a, p);
      } else if p.playersCount > 0 {
        assert a.nextId == r.nextId + 1;
      }
    }
  }

  /** `init_game` on a valid status between rounds leaves a valid room in progress. */
  lemma StartKeepsValid(a: RoomState, p: ServerParams)
    requires StatusOk(a.status, p) && Cleared(a.status) && a.nextBomb == 0
    requires OutboxOk(a.outbox)
    ensures ValidState(InitGameSpec(a.(inProgress := true), p), p)
  {
    var b := a.(inProgress := true);
    var g := InitGameSpec(b, p);
    InitGameSends(b, p);
    InitGameBoard(b, p);
    InitGameMoves(b, p);
    assert LogsConsistent(g.status) by {
      forall t | t in g.status.turns ensures AllConsistent(g.status.turns[t]) {
        assert t == 0;
      }
    }
    assert StatusOk(g.status, p);
    var log := g.status.turns[0];
    OutboxAppend(b.outbox, [Outgoing(b.sessions, GameStarted(b.status.players)), Outgoing(b.sessions, Turn(0, log))]);
  }

  // ------------------------------------------------ the turn tick and reset_state

  /** `order` lists the sessions with a pending move, each once: the order `_moves` is
      visited in, which the model leaves open. */
  predicate IsOrderOf(order: seq<SessionId>, moves: map<SessionId, PendingMove>) {
    && (forall i | 0 <= i < |order| :: order[i] in moves)
    && (forall s | s in moves :: s in order)
    && (forall i, j | 0 <= i < j < |order| :: order[i] != order[j])
  }

  /** The pending moves in the order `order` visits them, each with the id of its session. */
  function PendingOf(ids: map<SessionId, PlayerId>, moves: map<SessionId, PendingMove>, order: seq<SessionId>): (ms: seq<(PlayerId, PendingMove)>)
    requires forall i | 0 <= i < |order| :: order[i] in moves
    ensures |ms| == |order|
    ensures forall i | 0 <= i < |order| :: ms[i] == (IdOf(ids, order[i]), moves[order[i]])
  {
    seq(|order|, i requires 0 <= i < |order| => (IdOf(ids, order[i]), moves[order[i]]))
  }

  /** `reset_state`: a fresh lobby, with the generator back at the seed; the sessions, their
      ids, the pending moves and the turn counter are left as they are. */
  function ResetSpec(r: RoomState, p: ServerParams): RoomState {
    r.(inProgress := false, nextId := 0, nextBomb := 0, rng := p.seed, status := EmptyStatus(r.status.turn))
  }

  /** The status after the pending moves of `order` are resolved and the turn finished. */
  function TickStatus(r: RoomState, order: seq<SessionId>, p: ServerParams): GameStatus
    requires IsOrderOf(order, r.moves)
  {
    PlayTurn(r.status, PendingOf(r.ids, r.moves, order), p, r.nextBomb)
  }

  /** The body of the `handle_turn` callback: every pending move is resolved and `_moves`
      emptied, every bomb timer goes down by one and the bombs at 0 explode, the log of the
      turn (created if empty) goes to every session, and the round either ends, with
      GameEnded and `reset_state`, or moves on to the next turn. */
  function TickSpec(r: RoomState, order: seq<SessionId>, p: ServerParams): RoomState
    requires IsOrderOf(order, r.moves)
  {
    var st := TickStatus(r, order, p);
    var out := r.outbox + [Outgoing(r.sessions, Turn(st.turn, Log(st)))];
    if st.turn == p.gameLength then
      ResetSpec(r.(status := st, moves := map[], outbox := out + [Outgoing(r.sessions, GameEnded(st.scores))]), p)
    else
      r.(status := st.(turn := Inc16(st.turn)), moves := map[], outbox := out)
  }

  /** A tick empties `_moves` and sends the log of the current turn, which it has created,
      to every session right after what was sent before; the sessions and their ids stay. */
  lemma TickSends(r: RoomState, order: seq<SessionId>, p: ServerParams)
    requires IsOrderOf(order, r.moves)
    ensures var t := TickSpec(r, order, p);
            var st := TickStatus(r, order, p);
      && st.turn == r.status.turn && st.turn in st.turns
      && t.moves == map[] && t.sessions == r.sessions && t.ids == r.ids
      && |t.outbox| > |r.outbox| && t.outbox[..|r.outbox|] == r.outbox
      && t.outbox[|r.outbox|] == Outgoing(r.sessions, Turn(r.status.turn, st.turns[r.status.turn]))
  {
    PlayTurnLogs(r.status, PendingOf(r.ids, r.moves, order), p, r.nextBomb);
    var st := TickStatus(r, order, p);
    var sent := Outgoing(r.sessions, Turn(st.turn, Log(st)));
    var t := TickSpec(r, order, p);
    if st.turn == p.gameLength {
      assert t.outbox == r.outbox + [sent, Outgoing(r.sessions, GameEnded(st.scores))];
    } else {
      assert t.outbox == r.outbox + [sent];
    }
  }

  /** The tick of the last turn, `game_length`, sends GameEnded with the scores, which no
      turn changes, and leaves the lobby `reset_state` makes, keeping the sessions. */
  lemma TickEnds(r: RoomState, order: seq<SessionId>, p: ServerParams)
    requires IsOrderOf(order, r.moves) && r.status.turn == p.gameLength
    ensures var t := TickSpec(r, order, p);
      && !t.inProgress && t.nextId == 0 && t.nextBomb == 0 && t.rng == p.seed
      && t.status == EmptyStatus(r.status.turn) && t.sessions == r.sessions
      && |t.outbox| == |r.outbox| + 2
      && t.outbox[|r.outbox| + 1] == Outgoing(r.sessions, GameEnded(r.status.scores))
  {
    PlayTurnLogs(r.status, PendingOf(r.ids, r.moves, order), p, r.nextBomb);
    PlayTurnExtends(r.status, PendingOf(r.ids, r.moves, order), p, r.nextBomb);
  }

  /** Any other tick adds one to the turn counter, on 16 bits, keeps the log it sent as that
      turn's entry and changes nothing else but the status and the pending moves. */
  lemma TickMovesOn(r: RoomState, order: seq<SessionId>, p: ServerParams)
    requires IsOrderOf(order, r.moves) && r.status.turn != p.gameLength
    ensures var t := TickSpec(r, order, p);
            var st := TickStatus(r, order, p);
      && t == r.(status := st.(turn := t.status.turn), moves := map[], outbox := t.outbox)
      && t.status.turn == (r.status.turn + 1) % 0x1_0000
      && |t.outbox| == |r.outbox| + 1
  {
    PlayTurnLogs(r.status, PendingOf(r.ids, r.moves, order), p, r.nextBomb);
  }

  /** A tick keeps the room valid: it stays in progress until the last turn, whose tick
      leaves a lobby. */
  lemma TickKeepsValid(r: RoomState, order: seq<SessionId>, p: ServerParams)
    requires ValidState(r, p) && r.inProgress && IsOrderOf(order, r.moves)
    ensures ValidState(TickSpec(r, order, p), p)
    ensures TickSpec(r, order, p).inProgress <==> r.status.turn != p.gameLength
  {
    PlayTurnKeepsOk(r.status, PendingOf(r.ids, r.moves, order), p);
    PlayTurnLogs(r.status, PendingOf(r.ids, r.moves, order), p, r.nextBomb);
    var st := TickStatus(r, order, p);
    var t := TickSpec(r, order, p);
    var sent := Outgoing(r.sessions, Turn(st.turn, Log(st)));
    OutboxAppend(r.outbox, [sent]);
    OutboxAppend(r.outbox + [sent], [Outgoing(r.sessions, GameEnded(st.scores))]);
  }

  // ------------------------------------------------ what the room keeps true

  /** Between games the status holds nothing but the accepted players; with a positive
      `players_count` they are exactly the ids handed out so far, fewer than that count. */
  predicate Lobby(r: RoomState, p: ServerParams) {
    && Cleared(r.status)
    && (p.playersCount > 0 ==> r.status.players.Keys == Below(r.nextId) && r.nextId < p.playersCount)
  }

  /** What every operation keeps: `StatusOk` (everything on the board, only bomb id 0, no
      score ever written, consistent events), `_next_bomb` at 0, consistent events in every
      message sent, and a lobby whenever no game is in progress. */
  predicate ValidState(r: RoomState, p: ServerParams) {
    && StatusOk(r.status, p)
    && r.nextBomb == 0
    && OutboxOk(r.outbox)
    && (!r.inProgress ==> Lobby(r, p))
  }

  /** A new room is a lobby with both counters at 0 and the generator at the seed. */
  lemma FreshIsValid(p: ServerParams)
    requires p.sizeX > 0 && p.sizeY > 0
    ensures ValidState(Fresh(p), p)
    ensures !Fresh(p).inProgress && Fresh(p).nextId == 0 && Fresh(p).nextBomb == 0 && Fresh(p).rng == p.seed
  {
  }

  /** A session has at most one pending move, and a second message in the same tick is
      dropped: the first one stays. */
  lemma AddMessageKeepsFirst(r: RoomState, sid: SessionId, m: PendingMove, m2: PendingMove, p: ServerParams)
    ensures var a := AddMessageSpec(r, sid, m);
      && a.moves.Keys == r.moves.Keys + {sid}
      && a.moves[sid] == (if sid in r.moves then r.moves[sid] else m)
      && (forall s | s in r.moves :: a.moves[s] == r.moves[s])
      && a == r.(moves := a.moves)
      && AddMessageSpec(a, sid, m2) == a
      && (ValidState(r, p) ==> ValidState(a, p))
  {
  }

  /** A session that leaves is no longer sent anything; its pending move stays. */
  lemma DisconnectKeepsMoves(r: RoomState, sid: SessionId, p: ServerParams)
    ensures var d := DisconnectSpec(r, sid);
      && sid !in d.sessions && d.sessions == r.sessions - {sid}
      && d.moves == r.moves && d == r.(sessions := d.sessions)
      && (ValidState(r, p) ==> ValidState(d, p))
  {
  }

  /** `reset_state` leaves a lobby: no game, counters at 0, the generator at the seed and an
      empty status but for the turn counter; doing it twice is doing it once. */
  lemma ResetIsLobby(r: RoomState, p: ServerParams)
    requires ValidState(r, p)
    ensures var z := ResetSpec(r, p);
      && ValidState(z, p) && Lobby(z, p)
      && !z.inProgress && z.nextId == 0 && z.nextBomb == 0 && z.rng == p.seed
      && z.status.players == map[] && z.status.scores == map[]
      && z.sessions == r.sessions && z.moves == r.moves && z.outbox == r.outbox
      && ResetSpec(z, p) == z
  {
  }

  // ------------------------------------------------ what a session's read asks of the room

  /** The switch of `read_message`: a join request is resolved with the name read and the
      address of the session's peer, a move is registered as the session's pending move,
      and any other tag, or a message the bytes cut short, leaves the room as it is. */
  function ReceiveSpec(r: RoomState, sid: SessionId, m: GameSession.Inbound, address: Text, p: ServerParams): RoomState
    requires p.sizeX > 0 && p.sizeY > 0
  {
    match m
    case JoinRequest(name) => ResolveJoinSpec(r, sid, Player(name, address), p)
    case Register(move) => AddMessageSpec(r, sid, move)
    case Ignored => r
    case Truncated => r
  }

  /** A join request goes to `resolve_join` and nothing else; a move request only ever adds
      the session's pending move; anything else changes nothing. Each keeps the room valid. */
  lemma ReceiveFacts(r: RoomState, sid: SessionId, m: GameSession.Inbound, address: Text, p: ServerParams)
    requires p.sizeX > 0 && p.sizeY > 0
    ensures var q := ReceiveSpec(r, sid, m, address, p);
      && (m.JoinRequest? ==> q == ResolveJoinSpec(r, sid, Player(m.name, address), p))
      && (m.Register? ==> q == r.(moves := q.moves) && sid in q.moves
                          && q.moves[sid] == (if sid in r.moves then r.moves[sid] else m.move))
      && (m.Ignored? || m.Truncated? ==> q == r)
      && (ValidState(r, p) ==> ValidState(q, p))
  {
    if m.JoinRequest? && ValidState(r, p) {
      ResolveJoinKeepsValid(r, sid, Player(m.name, address), p);
    }
  }

  // ------------------------------------------------ the room object

  /** The loop of `pair.second.timer--` over the bombs, in id order, run on a copy of the
      map: every timer goes down by one, and one at 0 wraps to 65535. */
  method DecrementAll(bombs0: map<BombId, Bomb>) returns (bombs: map<BombId, Bomb>)
    ensures bombs == DecrementTimers(bombs0)
  {
    bombs := bombs0;
    var keys := Ascending(bombs0.Keys);
    AscendingLists(bombs0.Keys);
    DecrementOnlyNone(bombs0);
    assert keys[..0] == [];
    for i := 0 to |keys|
      invariant bombs == DecrementOnly(bombs0, keys[..i])
    {
      DecrementOnlyStep(bombs0, keys, i, bombs);
      var id: BombId := keys[i];
      bombs := bombs[id := DecrementTimer(bombs[id])];
    }
    assert keys[..|keys|] == keys;
    DecrementOnlyAll(bombs0, keys);
    assert bombs == DecrementTimers(bombs0);
  }

  /** The inner loop of a ray: every player standing on `c`, in id order. */
  method PlayersOnCell(positions: map<PlayerId, Position>, c: Position) returns (here: seq<PlayerId>)
    ensures here == PlayersOn(positions, c)
  {
    var keys := Ascending(positions.Keys);
    here := [];
    for j := 0 to |keys|
      invariant here == PlayersOnAmong(positions, keys[..j], c)
    {
      var id: PlayerId := keys[j];
      if positions[id] == c {
        here := here + [id];
      }
      assert keys[..j + 1][..j] == keys[..j];
    }
    assert keys[..|keys|] == keys;
  }

  /** One of the four ray loops of `explode_bombs`, from the bomb's tile outwards: the
      robots on each cell, and the first block, which ends the ray. */
  method ScanRay(b: Position, ray: Ray, positions: map<PlayerId, Position>, blocks: seq<Position>, p: ServerParams)
    returns (res: RayResult)
    ensures res == ScanFrom(b, ray, 0, positions, blocks, p)
  {
    var robots: seq<PlayerId> := [];
    var i: int := if ray == MinusX || ray == PlusX then b.x else b.y;
    ghost var k: nat := 0;
    ScanLoopStart(b, ray, positions, blocks, p);
    while RayGoesOn(b, ray, i, p.explosionRadius, p.sizeX, p.sizeY)
      invariant i == RayIndex(b, ray, k)
      invariant ScanLoop(b, ray, k, robots, positions, blocks, p) == ScanLoop(b, ray, 0, [], positions, blocks, p)
      decreases 0x1_0000 - k
    {
      ScanLoopStep(b, ray, k, robots, positions, blocks, p);
      var c := RayCell(b, ray, i);
      var here := PlayersOnCell(positions, c);
      if c in blocks {
        return RayResult(robots + here, [c]);
      }
      robots := robots + here;
      i := if ray == MinusX || ray == MinusY then i - 1 else i + 1;
      k := k + 1;
    }
    ScanLoopStep(b, ray, k, robots, positions, blocks, p);
    res := RayResult(robots, []);
  }

  /** `GameRoom`: the fields of the class, changed in place by its methods. The timer and
      the socket writes are not modelled; what would be written is appended to `outbox`. */
  class Room {
    const params: ServerParams
    var rng: u32
    var nextId: PlayerId
    var nextBomb: BombId
    var inProgress: bool
    var status: GameStatus
    var moves: map<SessionId, PendingMove>
    var sessions: set<SessionId>
    var ids: map<SessionId, PlayerId>
    var outbox: seq<Outgoing>

    /** The fields as one value. */
    function State(): RoomState
      reads this
    {
      RoomState(rng, nextId, nextBomb, inProgress, status, moves, sessions, ids, outbox)
    }

    constructor (p: ServerParams)
      ensures params == p && State() == Fresh(p)
    {
      params := p;
      rng := p.seed;
      nextId := 0;
      nextBomb := 0;
      inProgress := false;
      status := EmptyStatus(0);
      moves := map[];
      sessions := {};
      ids := map[];
      outbox := [];
    }

    /** `random`: one step of the generator, whose new state is also the number drawn. */
    method Random() returns (r: u32)
      modifies this`rng
      ensures rng == NextRandom(old(rng)) && r == rng
    {
      rng := NextRandom(rng);
      r := rng;
    }

    /** `turns[turn].emplace_back(e)`. */
    method AppendEvent(e: Event)
      modifies this`status
      ensures status == Record(old(status), e)
    {
      var log: seq<Event> := [];
      if status.turn in status.turns {
        log := status.turns[status.turn];
      }
      status := status.(turns := status.turns[status.turn := log + [e]]);
    }

    /** `player_positions[id]`, which inserts `{0, 0}` for an id without a position. */
    method PositionOf(id: PlayerId) returns (pos: Position)
      modifies this`status
      ensures status == Touch(old(status), id) && pos == status.positions[id]
    {
      if id !in status.positions {
        status := status.(positions := status.positions[id := Position(0, 0)]);
      }
      pos := status.positions[id];
    }

    /** `resolve_place_bomb`. */
    method ResolvePlaceBomb(sid: SessionId)
      modifies this`status
      ensures status == PlaceBombOn(old(status), IdOf(ids, sid), nextBomb, params.bombTimer)
    {
      var id := IdOf(ids, sid);
      var pos := PositionOf(id);
      if nextBomb !in status.bombs {
        status := status.(bombs := status.bombs[nextBomb := Bomb(nextBomb, pos, params.bombTimer)]);
      }
      AppendEvent(MakeEvent(BombPlaced(nextBomb, pos)));
    }

    /** `resolve_place_block`. */
    method ResolvePlaceBlock(sid: SessionId)
      modifies this`status
      ensures status == PlaceBlockOn(old(status), IdOf(ids, sid))
    {
      var id := IdOf(ids, sid);
      var pos := PositionOf(id);
      if pos in status.blocks {
        status := status.(blocks := status.blocks + [pos]);
        AppendEvent(MakeEvent(BlockPlaced(pos)));
      }
    }

    /** `resolve_move`: the `switch` on the direction byte, the edge checks and the block
      check, then the move and its event. */
    method ResolveMove(sid: SessionId, dir: u8)
      modifies this`status
      ensures status == MoveOn(old(status), IdOf(ids, sid), dir, params.sizeX, params.sizeY)
    {
      var id := IdOf(ids, sid);
      var pos := PositionOf(id);
      if dir == 0 {
        if pos.y == params.sizeY - 1 { return; }
        pos := pos.(y := Inc16(pos.y));
      } else if dir == 1 {
        if pos.x == params.sizeX - 1 { return; }
        pos := pos.(x := Inc16(pos.x));
      } else if dir == 2 {
        if pos.y == 0 { return; }
        pos := pos.(y := pos.y - 1);
      } else if dir == 3 {
        if pos.x == 0 { return; }
        pos := pos.(x := pos.x - 1);
      }
      if pos in status.blocks { return; }
      status := status.(positions := status.positions[id := pos]);
      AppendEvent(MakeEvent(PlayerMoved(id, pos)));
    }

    /** `Position{random() % size_x, random() % size_y}`: two draws, x first. */
    method DrawPos() returns (pos: Position)
      requires params.sizeX > 0 && params.sizeY > 0
      modifies this`rng
      ensures (pos, rng) == DrawPosition(old(rng), params.sizeX, params.sizeY)
    {
      var x := Random();
      var y := Random();
      pos := Position(x % params.sizeX, y % params.sizeY);
    }

    /** The first loop of `init_game`: a drawn position for every player, in id order. */
    method PlacePlayers() returns (events: seq<Event>)
      requires params.sizeX > 0 && params.sizeY > 0
      modifies this`rng, this`status
      ensures var keys := Ascending(old(status.players.Keys));
              var s0 := Setup(old(rng), old(status.positions), old(status.blocks), []);
        IdKeys(keys) && Setup(rng, status.positions, status.blocks, events) == Spawn(keys, |keys|, s0, params.sizeX, params.sizeY)
      ensures status == old(status).(positions := status.positions)
    {
      var keys := Ascending(status.players.Keys);
      var positions: map<PlayerId, Position> := status.positions;
      ghost var s0 := Setup(rng, positions, status.blocks, []);
      events := [];
      for i := 0 to |keys|
        modifies this`rng
        invariant Setup(rng, positions, status.blocks, events) == Spawn(keys, i, s0, params.sizeX, params.sizeY)
      {
        var pos := DrawPos();
        var id: PlayerId := keys[i];
        if id !in positions {
          positions := positions[id := pos];
        }
        events := events + [MakeEvent(PlayerMoved(id, pos))];
      }
      status := status.(positions := positions);
    }

    /** The second loop of `init_game`: `initial_blocks` draws, each placing a block only on
      a tile without one. */
    method PlaceBlocks(events0: seq<Event>) returns (events: seq<Event>)
      requires params.sizeX > 0 && params.sizeY > 0
      modifies this`rng, this`status
      ensures var s0 := Setup(old(rng), old(status.positions), old(status.blocks), events0);
        Setup(rng, status.positions, status.blocks, events) == Drop(params.initialBlocks, s0, params.sizeX, params.sizeY)
      ensures status == old(status).(blocks := status.blocks)
    {
      ghost var s0 := Setup(rng, status.positions, status.blocks, events0);
      ghost var st0 := status;
      events := events0;
      for i := 0 to params.initialBlocks
        invariant status == st0.(blocks := status.blocks)
        invariant Setup(rng, status.positions, status.blocks, events) == Drop(i, s0, params.sizeX, params.sizeY)
      {
        var pos := DrawPos();
        if pos !in status.blocks {
          status := status.(blocks := status.blocks + [pos]);
          events := events + [MakeEvent(BlockPlaced(pos))];
        }
      }
    }

    /** `init_game`; the timer `handle_turn` arms is left to the caller, who calls `Tick`. */
    method InitGame()
      requires params.sizeX > 0 && params.sizeY > 0
      modifies this`rng, this`status, this`outbox
      ensures State() == InitGameSpec(old(State()), params)
    {
      status := status.(turn := 0);
      var events := PlacePlayers();
      events := PlaceBlocks(events);
      outbox := outbox + [Outgoing(sessions, GameStarted(status.players)), Outgoing(sessions, Turn(status.turn, events))];
      status := status.(turns := status.turns[status.turn := events]);
      status := status.(turn := status.turn + 1);
    }

    /** The lobby half of `resolve_join`: the id, the player and the broadcast. */
    method Accept(sid: SessionId, player: Player)
      modifies this`ids, this`status, this`outbox, this`nextId
      ensures State() == AcceptSpec(old(State()), sid, player)
    {
      ids := ids[sid := nextId];
      if nextId !in status.players {
        status := status.(players := status.players[nextId := player]);
      }
      outbox := outbox + [Outgoing(sessions, AcceptedPlayer(nextId, player))];
      nextId := if nextId == 0xFF then 0 else nextId + 1;
    }

    /** `resolve_join`. */
    method ResolveJoin(sid: SessionId, player: Player)
      requires params.sizeX > 0 && params.sizeY > 0
      modifies this
      ensures State() == ResolveJoinSpec(old(State()), sid, player, params)
    {
      if !inProgress {
        Accept(sid, player);
        if |status.players| == params.playersCount {
          inProgress := true;
          InitGame();
        }
      }
    }

    /** The loop of `join` over the logged turns, in turn order. */
    method SendTurns(sid: SessionId)
      modifies this`outbox
      ensures outbox == old(outbox) + TurnReplay(sid, status.turns, Ascending(status.turns.Keys))
    {
      var turns := status.turns;
      var keys := Ascending(turns.Keys);
      ghost var replay := TurnReplay(sid, turns, keys);
      ghost var base := outbox;
      var i := 0;
      while i < |keys|
        invariant 0 <= i <= |keys|
        invariant outbox == base + replay[..i]
      {
        var t: u16 := keys[i];
        var sent := Outgoing({sid}, Turn(t, turns[t]));
        assert replay[i] == sent;
        assert replay[..i + 1] == replay[..i] + [sent];
        outbox := outbox + [sent];
        i := i + 1;
      }
      assert replay[..|keys|] == replay;
    }

    /** The loop of `join` over the accepted players, in id order. */
    method SendPlayers(sid: SessionId)
      modifies this`outbox
      ensures outbox == old(outbox) + AcceptedReplay(sid, status.players, Ascending(status.players.Keys))
    {
      var players := status.players;
      var keys := Ascending(players.Keys);
      ghost var replay := AcceptedReplay(sid, players, keys);
      ghost var base := outbox;
      var i := 0;
      while i < |keys|
        invariant 0 <= i <= |keys|
        invariant outbox == base + replay[..i]
      {
        var id: PlayerId := keys[i];
        var sent := Outgoing({sid}, AcceptedPlayer(id, players[id]));
        assert replay[i] == sent;
        assert replay[..i + 1] == replay[..i] + [sent];
        outbox := outbox + [sent];
        i := i + 1;
      }
      assert replay[..|keys|] == replay;
    }

    /** The game half of `join`: GameStarted, then the loop over the logged turns. */
    method SendGameReplay(sid: SessionId)
      modifies this`outbox
      ensures outbox == old(outbox) + GameReplay(sid, status.players, status.turns)
    {
      var started := [Outgoing({sid}, GameStarted(status.players))];
      outbox := outbox + started;
      SendTurns(sid);
      AppendAssoc(old(outbox), started, TurnReplay(sid, status.turns, Ascending(status.turns.Keys)));
    }

    /** `join`: the session is registered and sent Hello and the replay. */
    method Join(sid: SessionId)
      modifies this`sessions, this`outbox
      ensures sessions == old(sessions) + {sid}
      ensures outbox == old(outbox) + JoinSent(old(State()), sid, params)
    {
      sessions := sessions + {sid};
      var hello := [Outgoing({sid}, HelloOf(params))];
      outbox := outbox + hello;
      if inProgress {
        SendGameReplay(sid);
        AppendAssoc(old(outbox), hello, GameReplay(sid, status.players, status.turns));
      } else {
        SendPlayers(sid);
        AppendAssoc(old(outbox), hello, LobbyReplay(sid, status.players));
      }
    }

    /** `disconnect`. */
    method Disconnect(sid: SessionId)
      modifies this`sessions
      ensures State() == DisconnectSpec(old(State()), sid)
    {
      sessions := sessions - {sid};
    }

    /** `add_message`, and `_moves.insert` in the `receive_*` of a session. */
    method AddMessage(sid: SessionId, m: PendingMove)
      modifies this`moves
      ensures State() == AddMessageSpec(old(State()), sid, m)
    {
      if sid !in moves {
        moves := moves[sid := m];
      }
    }

    /** `reset_state`. */
    method ResetState()
      modifies this`inProgress, this`nextId, this`nextBomb, this`rng, this`status
      ensures State() == ResetSpec(old(State()), params)
    {
      inProgress := false;
      nextId := 0;
      nextBomb := 0;
      rng := params.seed;
      status := status.(turns := map[], blocks := [], bombs := map[], players := map[], positions := map[], scores := map[]);
    }

    /** The `switch` of the tick on one pending move. */
    method ResolveOne(sid: SessionId)
      requires sid in moves
      modifies this`status
      ensures status == Resolver(params, nextBomb)(old(status), (IdOf(ids, sid), moves[sid]))
    {
      match moves[sid] {
        case PlaceBomb => ResolvePlaceBomb(sid);
        case PlaceBlock => ResolvePlaceBlock(sid);
        case Move(dir) => ResolveMove(sid, dir);
      }
    }

    /** The loop of the tick over `_moves`, visited in the order `order`. */
    method ResolveMoves(order: seq<SessionId>)
      requires forall i | 0 <= i < |order| :: order[i] in moves
      modifies this`status
      ensures status == ResolveAll(old(status), PendingOf(ids, moves, order), params, nextBomb)
    {
      ghost var ms := PendingOf(ids, moves, order);
      FoldFromFirst(status, ms, 0, Resolver(params, nextBomb));
      for i: nat := 0 to |order|
        invariant FoldFrom(status, ms[i..], Resolver(params, nextBomb)) == ResolveAll(old(status), ms, params, nextBomb)
      {
        FoldFromStep(status, ms, i, Resolver(params, nextBomb));
        ResolveOne(order[i]);
      }
    }

    /** `pair.second.timer--` for every bomb, in id order; a timer at 0 wraps to 65535. */
    method DecrementBombTimers()
      modifies this`status
      ensures status == old(status).(bombs := DecrementTimers(old(status.bombs)))
    {
      var bombs := DecrementAll(status.bombs);
      status := status.(bombs := bombs);
    }

    /** `explode_bombs`: in id order, each bomb whose timer is 0 logs the robots and blocks
      its four rays reach. */
    method ExplodeBombs()
      modifies this`status
      ensures status == ExplodeAll(old(status), params)
    {
      ghost var base := status;
      var keys := Ascending(status.bombs.Keys);
      var i := 0;
      while i < |keys|
        invariant 0 <= i <= |keys|
        invariant status == base.(turns := status.turns)
        invariant status == ExplodeAmong(base, keys[..i], params, base)
      {
        var bomb := status.bombs[keys[i]];
        if bomb.timer == 0 {
          var a := ScanRay(bomb.position, MinusX, status.positions, status.blocks, params);
          var b := ScanRay(bomb.position, PlusX, status.positions, status.blocks, params);
          var c := ScanRay(bomb.position, MinusY, status.positions, status.blocks, params);
          var d := ScanRay(bomb.position, PlusY, status.positions, status.blocks, params);
          AppendEvent(MakeEvent(BombExploded(bomb.bombId, a.robots + b.robots + c.robots + d.robots,
                                                          a.blocks + b.blocks + c.blocks + d.blocks)));
        }
        assert keys[..i + 1][..i] == keys[..i];
        i := i + 1;
      }
      assert keys[..|keys|] == keys;
    }

    /** The tick after the pending moves: the timers, the explosions, and `turns[turn]`,
      which `operator[]` creates when nothing was logged. */
    method EndTurn()
      modifies this`status
      ensures status == FinishTurn(old(status), params)
    {
      DecrementBombTimers();
      ExplodeBombs();
      if status.turn !in status.turns {
        status := status.(turns := status.turns[status.turn := []]);
      } else {
        assert status.turns == status.turns[status.turn := Log(status)];
      }
    }

    /** The body of the `handle_turn` callback, with `_moves` visited in the order `order`. */
    method Tick(order: seq<SessionId>)
      requires IsOrderOf(order, moves)
      modifies this
      ensures State() == TickSpec(old(State()), order, params)
    {
      ResolveMoves(order);
      moves := map[];
      EndTurn();
      var log := status.turns[status.turn];
      outbox := outbox + [Outgoing(sessions, Turn(status.turn, log))];
      if status.turn == params.gameLength {
        outbox := outbox + [Outgoing(sessions, GameEnded(status.scores))];
        ResetState();
      } else {
        status := status.(turn := Inc16(status.turn));
      }
    }

    /** The `read_message` callback of session `sid`: the bytes received are decoded and
      the request performed; `address` is the peer's address. */
    method Receive(s: GameSession.Session, sid: SessionId, data: seq<u8>, address: Text)
      requires params.sizeX > 0 && params.sizeY > 0
      modifies this, s`buffer, s`readIdx
      ensures s.buffer == old(s.buffer) + data
      ensures s.readIdx == GameSession.InboundNext(s.buffer, old(s.readIdx))
      ensures State() == ReceiveSpec(old(State()), sid, GameSession.DecodeInbound(s.buffer, old(s.readIdx)), address, params)
    {
      var m := s.ReadInbound(data);
      match m {
        case JoinRequest(name) => ResolveJoin(sid, Player(name, address));
        case Register(move) => AddMessage(sid, move);
        case Ignored =>
        case Truncated =>
      }
    }
  }
}
