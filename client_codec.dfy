/** The client's side of the two protocols (Client.cpp): how it reads the five server
    messages off its connection (the `receive` overloads), the frames it writes to the
    server (`send`, `send_join`, `send_move`, ...), the datagrams it writes to the display
    (`send_gui`, `send_lobby`, `send_game`), and how it validates a datagram from the
    display. Decoders read at an index of the bytes received so far and give the index
    after the value, or `None` where the source would go on waiting for more bytes. */
module ClientCodec {
  import opened Collections
  import opened GameTypes
  import opened Wire

  // ------------------------------------------------ what the client stores

  /** An event as the client builds it. `BombPlaced` carries a timer, which is not on the
      wire: the client fills in the bomb timer of the last Hello. */
  datatype ClientEvent =
    | CBombPlaced(bombId: BombId, position: Position, timer: u16)
    | CBombExploded(bombId: BombId, robotsDestroyed: seq<PlayerId>, blocksDestroyed: seq<Position>)
    | CPlayerMoved(playerId: PlayerId, position: Position)
    | CBlockPlaced(position: Position)

  /** The server parameters the client learns from Hello: `receive_hello` builds its
      `ServerParameters` from these seven and zeroes the rest. */
  datatype HelloParams = HelloParams(
    name: Text, playersCount: u8, sizeX: u16, sizeY: u16, gameLength: u16,
    explosionRadius: u16, bombTimer: u16)

  /** The client's copy of the game (`_game_status`), with the three parameters it also
      keeps there. */
  datatype ClientStatus = ClientStatus(
    turn: u16,
    players: map<PlayerId, Player>,
    positions: map<PlayerId, Position>,
    blocks: seq<Position>,
    bombs: map<BombId, Bomb>,
    explosions: set<Position>,
    scores: map<PlayerId, Score>,
    playersScored: set<PlayerId>,
    explosionRadius: u16,
    sizeX: u16,
    sizeY: u16)

  /** One server message as the client decodes it; `InUnknown` is a tag above 4. */
  datatype Incoming =
    | InHello(params: HelloParams)
    | InAccepted(playerId: PlayerId, player: Player)
    | InStarted(players: map<PlayerId, Player>)
    | InTurn(turn: u16, events: seq<ClientEvent>)
    | InEnded(scores: map<PlayerId, Score>)
    | InUnknown(tag: u8)

  // ------------------------------------------------ counted loops
  //
  // Each list and map overload reads a count and then runs
  // `for (uint32_t i = 0; i < size; i++)`; `DecXItems(b, i, n, acc)` is what is left of
  // that loop with `n` rounds to go, the elements so far in `acc`.

  /** `std::map::insert`: a key already present keeps its value. */
  function Insert<V>(m: map<PlayerId, V>, k: PlayerId, v: V): (r: map<PlayerId, V>)
    ensures forall x :: x in r <==> x in m || x == k
    ensures forall x | x in m :: r[x] == m[x]
    ensures k !in m ==> r[k] == v
  {
    if k in m then m else m[k := v]
  }

  // ------------------------------------------------ the receive overloads

  function AppendId(b: seq<u8>, i: nat, acc: seq<PlayerId>): Option<(seq<PlayerId>, nat)> {
    match DecU8(b, i)
    case None => None
    case Some((x, j)) => Some((acc + [x], j))
  }

  function AppendPosition(b: seq<u8>, i: nat, acc: seq<Position>): Option<(seq<Position>, nat)> {
    match DecPosition(b, i)
    case None => None
    case Some((p, j)) => Some((acc + [p], j))
  }

  function DecIdItems(b: seq<u8>, i: nat, n: nat, acc: seq<PlayerId>): Option<(seq<PlayerId>, nat)>
    decreases n
  {
    if n == 0 then Some((acc, i))
    else
      match AppendId(b, i, acc)
      case None => None
      case Some((next, j)) => DecIdItems(b, j, n - 1, next)
  }

  function DecPositionItems(b: seq<u8>, i: nat, n: nat, acc: seq<Position>): Option<(seq<Position>, nat)>
    decreases n
  {
    if n == 0 then Some((acc, i))
    else
      match AppendPosition(b, i, acc)
      case None => None
      case Some((next, j)) => DecPositionItems(b, j, n - 1, next)
  }

  /** `receive(std::list<player_id_t>&)`: a count, then that many ids. */
  function DecIdList(b: seq<u8>, i: nat): Option<(seq<PlayerId>, nat)> {
    match DecU32(b, i)
    case None => None
    case Some((n, j)) => DecIdItems(b, j, n, [])
  }

  /** `receive(std::list<Position>&)`. */
  function DecPositionList(b: seq<u8>, i: nat): Option<(seq<Position>, nat)> {
    match DecU32(b, i)
    case None => None
    case Some((n, j)) => DecPositionItems(b, j, n, [])
  }

  /** One element of `receive(std::list<std::shared_ptr<Event>>&)`: a tag, then the
      fields of the event it names. A tag above 3 gives no event and reads nothing more. */
  function DecEvent(b: seq<u8>, i: nat, timer: u16): Option<(Option<ClientEvent>, nat)> {
    match DecU8(b, i)
    case None => None
    case Some((tag, j)) =>
      if tag == 0 then
        match DecU32(b, j)
        case None => None
        case Some((id, k)) =>
          match DecPosition(b, k)
          case None => None
          case Some((pos, l)) => Some((Some(CBombPlaced(id, pos, timer)), l))
      else if tag == 1 then
        match DecU32(b, j)
        case None => None
        case Some((id, k)) =>
          match DecIdList(b, k)
          case None => None
          case Some((robots, l)) =>
            match DecPositionList(b, l)
            case None => None
            case Some((blocks, o)) => Some((Some(CBombExploded(id, robots, blocks)), o))
      else if tag == 2 then
        match DecU8(b, j)
        case None => None
        case Some((id, k)) =>
          match DecPosition(b, k)
          case None => None
          case Some((pos, l)) => Some((Some(CPlayerMoved(id, pos)), l))
      else if tag == 3 then
        match DecPosition(b, j)
        case None => None
        case Some((pos, k)) => Some((Some(CBlockPlaced(pos)), k))
      else Some((None, j))
  }

  function AppendEvent(b: seq<u8>, i: nat, acc: seq<ClientEvent>, timer: u16): Option<(seq<ClientEvent>, nat)> {
    match DecEvent(b, i, timer)
    case None => None
    case Some((e, j)) => Some((if e.Some? then acc + [e.value] else acc, j))
  }

  function DecEventItems(b: seq<u8>, i: nat, n: nat, acc: seq<ClientEvent>, timer: u16): Option<(seq<ClientEvent>, nat)>
    decreases n
  {
    if n == 0 then Some((acc, i))
    else
      match AppendEvent(b, i, acc, timer)
      case None => None
      case Some((next, j)) => DecEventItems(b, j, n - 1, next, timer)
  }

  function DecEventList(b: seq<u8>, i: nat, timer: u16): Option<(seq<ClientEvent>, nat)> {
    match DecU32(b, i)
    case None => None
    case Some((n, j)) => DecEventItems(b, j, n, [], timer)
  }

  function AddPlayerEntry(b: seq<u8>, i: nat, acc: map<PlayerId, Player>): Option<(map<PlayerId, Player>, nat)> {
    match DecU8(b, i)
    case None => None
    case Some((k, j)) =>
      match DecPlayer(b, j)
      case None => None
      case Some((p, l)) => Some((Insert(acc, k, p), l))
  }

  function AddScoreEntry(b: seq<u8>, i: nat, acc: map<PlayerId, Score>): Option<(map<PlayerId, Score>, nat)> {
    match DecU8(b, i)
    case None => None
    case Some((k, j)) =>
      match DecU32(b, j)
      case None => None
      case Some((s, l)) => Some((Insert(acc, k, s), l))
  }

  /** `receive(std::map<player_id_t, Player>&)`: a count, then key and value pairs,
      each stored with `insert`. */
  function DecPlayerEntries(b: seq<u8>, i: nat, n: nat, acc: map<PlayerId, Player>): Option<(map<PlayerId, Player>, nat)>
    decreases n
  {
    if n == 0 then Some((acc, i))
    else
      match AddPlayerEntry(b, i, acc)
      case None => None
      case Some((next, j)) => DecPlayerEntries(b, j, n - 1, next)
  }

  function DecScoreEntries(b: seq<u8>, i: nat, n: nat, acc: map<PlayerId, Score>): Option<(map<PlayerId, Score>, nat)>
    decreases n
  {
    if n == 0 then Some((acc, i))
    else
      match AddScoreEntry(b, i, acc)
      case None => None
      case Some((next, j)) => DecScoreEntries(b, j, n - 1, next)
  }

  function DecPlayerMap(b: seq<u8>, i: nat): Option<(map<PlayerId, Player>, nat)> {
    match DecU32(b, i)
    case None => None
    case Some((n, j)) => DecPlayerEntries(b, j, n, map[])
  }

  function DecScoreMap(b: seq<u8>, i: nat): Option<(map<PlayerId, Score>, nat)> {
    match DecU32(b, i)
    case None => None
    case Some((n, j)) => DecScoreEntries(b, j, n, map[])
  }

  /** The body of Hello: the server name, then six numbers. */
  function DecHello(b: seq<u8>, i: nat): Option<(HelloParams, nat)> {
    match DecText(b, i)
    case None => None
    case Some((name, i1)) =>
      match DecU8(b, i1)
      case None => None
      case Some((count, i2)) =>
        match DecU16(b, i2)
        case None => None
        case Some((sx, i3)) =>
          match DecU16(b, i3)
          case None => None
          case Some((sy, i4)) =>
            match DecU16(b, i4)
            case None => None
            case Some((len, i5)) =>
              match DecU16(b, i5)
              case None => None
              case Some((radius, i6)) =>
                match DecU16(b, i6)
                case None => None
                case Some((timer, i7)) =>
                  Some((HelloParams(name, count, sx, sy, len, radius, timer), i7))
  }

  /** The body of AcceptedPlayer: an id and a player. */
  function DecAccepted(b: seq<u8>, i: nat): Option<((PlayerId, Player), nat)> {
    match DecU8(b, i)
    case None => None
    case Some((id, j)) =>
      match DecPlayer(b, j)
      case None => None
      case Some((p, k)) => Some(((id, p), k))
  }

  /** The body of Turn: the turn number and the list of events. */
  function DecTurn(b: seq<u8>, i: nat, timer: u16): Option<((u16, seq<ClientEvent>), nat)> {
    match DecU16(b, i)
    case None => None
    case Some((t, j)) =>
      match DecEventList(b, j, timer)
      case None => None
      case Some((es, k)) => Some(((t, es), k))
  }

  /** `receive_message`'s reading half: the tag, then the body it names. `timer` is the
      bomb timer the client holds, which every BombPlaced it reads is given. */
  function DecIncoming(b: seq<u8>, i: nat, timer: u16): (r: Option<(Incoming, nat)>)
    ensures r.Some? ==> i < |b|
    ensures r.Some? && r.value.0.InUnknown? <==> i < |b| && b[i] > 4
    ensures r.Some? && r.value.0.InUnknown? ==> r.value == (InUnknown(b[i]), i + 1)
  {
    match DecU8(b, i)
    case None => None
    case Some((tag, j)) =>
      if tag == 0 then
        match DecHello(b, j)
        case None => None
        case Some((p, k)) => Some((InHello(p), k))
      else if tag == 1 then
        match DecAccepted(b, j)
        case None => None
        case Some(((id, p), k)) => Some((InAccepted(id, p), k))
      else if tag == 2 then
        match DecPlayerMap(b, j)
        case None => None
        case Some((ps, k)) => Some((InStarted(ps), k))
      else if tag == 3 then
        match DecTurn(b, j, timer)
        case None => None
        case Some(((t, es), k)) => Some((InTurn(t, es), k))
      else if tag == 4 then
        match DecScoreMap(b, j)
        case None => None
        case Some((s, k)) => Some((InEnded(s), k))
      else Some((InUnknown(tag), j))
  }

  // ------------------------------------------------ frames to the server

  /** What `async_send` is handed: the bytes `send` wrote and the length `buf_length`
      reached. `send(const std::string&)` writes at most 255 bytes of the text but
      advances `buf_length` by the whole size, so the two can differ. */
  datatype Frame = Frame(bytes: seq<u8>, length: nat)

  /** `send_join`: tag 0 and the nickname. */
  function JoinFrame(nickname: Text): Frame {
    Frame(EncU8(0) + EncText(nickname), 2 + |nickname|)
  }

  /** A valid datagram from the display. */
  datatype GuiInput = GuiPlaceBomb | GuiPlaceBlock | GuiMove(direction: Direction)

  /** `receive_input_message`'s test: tag 0 or 1 alone, or tag 2 with a direction 0..3. */
  function ParseInput(d: seq<u8>): (r: Option<GuiInput>)
    ensures r == Some(GuiPlaceBomb) <==> d == [0]
    ensures r == Some(GuiPlaceBlock) <==> d == [1]
    ensures r.Some? && r.value.GuiMove? <==> |d| == 2 && d[0] == 2 && d[1] <= 3
    ensures r.Some? && r.value.GuiMove? ==> DirectionCode(r.value.direction) == d[1]
  {
    if |d| == 0 then None
    else if d[0] == 0 then (if |d| == 1 then Some(GuiPlaceBomb) else None)
    else if d[0] == 1 then (if |d| == 1 then Some(GuiPlaceBlock) else None)
    else if d[0] == 2 then
      (if |d| == 2 && d[1] <= 3 then Some(GuiMove(DirectionOf(d[1]).value)) else None)
    else None
  }

  /** The frame `send_place_bomb`, `send_place_block` or `send_move` writes for an input. */
  function CommandFrame(c: GuiInput): Frame {
    match c
    case GuiPlaceBomb => Frame(EncU8(1), 1)
    case GuiPlaceBlock => Frame(EncU8(2), 1)
    case GuiMove(d) => Frame(EncU8(3) + EncU8(DirectionCode(d)), 2)
  }

  // ------------------------------------------------ datagrams to the display

  /** `send_gui(Bomb)`: position and timer; the id is not written. */
  function EncBomb(bomb: Bomb): seq<u8> {
    EncPosition(bomb.position) + EncU16(bomb.timer)
  }

  /** The values of a bomb map visited in the order `keys`. */
  function EncBombValues(m: map<BombId, Bomb>, keys: seq<int>): seq<u8>
    requires forall i | 0 <= i < |keys| :: keys[i] in m
    decreases |keys|
  {
    if keys == [] then []
    else
      var k: BombId := keys[|keys| - 1];
      EncBombValues(m, keys[..|keys| - 1]) + EncBomb(m[k])
  }

  /** `send_gui(std::map<bomb_id_t, Bomb>)`: the size, then the bombs in id order. */
  function EncBombMap(m: map<BombId, Bomb>): seq<u8> {
    EncCount(|m|) + EncBombValues(m, Ascending(m.Keys))
  }

  /** `send_gui(std::set<Position>)`: the size, then the positions in `operator<` order. */
  function EncPositionSet(s: set<Position>): seq<u8> {
    EncCount(|s|) + EncPositionItems(AscendingPositions(s))
  }

  function EncPositionEntries(m: map<PlayerId, Position>, keys: seq<int>): seq<u8>
    requires forall i | 0 <= i < |keys| :: keys[i] in m
    decreases |keys|
  {
    if keys == [] then []
    else
      var k := keys[|keys| - 1];
      EncPositionEntries(m, keys[..|keys| - 1]) + EncU8(k) + EncPosition(m[k])
  }

  /** `send_gui(std::map<player_id_t, Position>)`: the size, then key and value pairs. */
  function EncPositionMap(m: map<PlayerId, Position>): seq<u8> {
    EncCount(|m|) + EncPositionEntries(m, Ascending(m.Keys))
  }

  lemma BombValuesStep(pre: seq<u8>, m: map<BombId, Bomb>, keys: seq<int>, i: nat, buf: seq<u8>)
    requires forall j | 0 <= j < |keys| :: keys[j] in m
    requires i < |keys|
    requires var k: BombId := keys[i]; buf == pre + EncBombValues(m, keys[..i]) + EncBomb(m[k])
    ensures buf == pre + EncBombValues(m, keys[..i + 1])
  {
    assert keys[..i + 1][..i] == keys[..i];
  }

  lemma PositionEntriesStep(pre: seq<u8>, m: map<PlayerId, Position>, keys: seq<int>, i: nat, buf: seq<u8>)
    requires forall j | 0 <= j < |keys| :: keys[j] in m
    requires i < |keys|
    requires var k := keys[i]; buf == pre + EncPositionEntries(m, keys[..i]) + EncU8(k) + EncPosition(m[k])
    ensures buf == pre + EncPositionEntries(m, keys[..i + 1])
  {
    assert keys[..i + 1][..i] == keys[..i];
  }

  /** `send_lobby`: tag 0, the seven Hello parameters and the players. */
  function EncLobby(p: HelloParams, players: map<PlayerId, Player>): seq<u8> {
    EncU8(0) + EncText(p.name) + EncU8(p.playersCount) + EncU16(p.sizeX) + EncU16(p.sizeY)
    + EncU16(p.gameLength) + EncU16(p.explosionRadius) + EncU16(p.bombTimer)
    + EncPlayerMap(players)
  }

  /** The start of `send_game`: tag 1, four parameters and the turn. */
  function EncGameHead(p: HelloParams, turn: u16): seq<u8> {
    EncU8(1) + EncText(p.name) + EncU16(p.sizeX) + EncU16(p.sizeY) + EncU16(p.gameLength)
    + EncU16(turn)
  }

  /** The rest of `send_game`: players, positions, blocks, bombs, explosions, scores. */
  function EncBoard(s: ClientStatus): seq<u8> {
    EncPlayerMap(s.players) + EncPositionMap(s.positions) + EncPositionList(s.blocks)
    + EncBombMap(s.bombs) + EncPositionSet(s.explosions) + EncScoreMap(s.scores)
  }

  /** `send_game`. */
  function EncGame(p: HelloParams, s: ClientStatus): seq<u8> {
    EncGameHead(p, s.turn) + EncBoard(s)
  }
}
