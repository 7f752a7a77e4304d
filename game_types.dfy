/** The value types shared by the server and the client (GameTypes.h), the messages of
    the protocol, and the plain record of server parameters the room is built from. */
module GameTypes {
  import opened Collections

  /** Fixed-width unsigned integers of the source (`uint8_t`, `uint16_t`, `uint32_t`). */
  type u8 = x: int | 0 <= x < 0x100
  type u16 = x: int | 0 <= x < 0x1_0000
  type u32 = x: int | 0 <= x < 0x1_0000_0000

  type PlayerId = u8
  type BombId = u32
  type Score = u32

  /** A `std::string` on the wire: its raw bytes. */
  type Text = seq<u8>

  datatype Direction = Up | Right | Down | Left

  /** The numeric value of each `Direction` enumerator. */
  function DirectionCode(d: Direction): (c: u8)
    ensures c <= 3
  {
    match d
    case Up => 0
    case Right => 1
    case Down => 2
    case Left => 3
  }

  /** The enumerator a byte names, if any. */
  function DirectionOf(c: u8): (d: Option<Direction>)
    ensures d.Some? <==> c <= 3
    ensures d.Some? ==> DirectionCode(d.value) == c
  {
    if c == 0 then Some(Up)
    else if c == 1 then Some(Right)
    else if c == 2 then Some(Down)
    else if c == 3 then Some(Left)
    else None
  }

  lemma DirectionCodeInjective(d: Direction, e: Direction)
    ensures DirectionCode(d) == DirectionCode(e) ==> d == e
    ensures DirectionOf(DirectionCode(d)) == Some(d)
  {
  }

  datatype EventType = BombPlacedT | BombExplodedT | PlayerMovedT | BlockPlacedT

  /** The numeric value of each `EventType` enumerator; it is also the event's tag on the wire. */
  function EventTypeCode(t: EventType): (c: u8)
    ensures c <= 3
  {
    match t
    case BombPlacedT => 0
    case BombExplodedT => 1
    case PlayerMovedT => 2
    case BlockPlacedT => 3
  }

  lemma EventTypeCodeInjective(t: EventType, u: EventType)
    ensures EventTypeCode(t) == EventTypeCode(u) <==> t == u
  {
  }

  datatype Position = Position(x: u16, y: u16)

  /** `Position::operator==`. */
  predicate PositionEquals(a: Position, b: Position) {
    a.x == b.x && a.y == b.y
  }

  lemma PositionEqualsIsEquality(a: Position, b: Position)
    ensures PositionEquals(a, b) <==> a == b
  {
  }

  /** `Position::operator<`: lexicographic on (x, y). */
  predicate PositionLess(a: Position, b: Position) {
    a.x < b.x || (a.x == b.x && a.y < b.y)
  }

  /** `operator<` is a strict total order, so `std::set<Position>` and
      `std::map<..., Position>` are well formed. */
  lemma PositionLessStrictTotalOrder(a: Position, b: Position, c: Position)
    ensures !PositionLess(a, a)
    ensures PositionLess(a, b) && PositionLess(b, c) ==> PositionLess(a, c)
    ensures a != b ==> PositionLess(a, b) || PositionLess(b, a)
    ensures !(PositionLess(a, b) && PositionLess(b, a))
  {
  }

  /** A position as one number, ordered as `operator<` orders positions. */
  function PositionKey(p: Position): int {
    p.x * 0x1_0000 + p.y
  }

  lemma PositionKeyOrder(a: Position, b: Position)
    ensures PositionLess(a, b) <==> PositionKey(a) < PositionKey(b)
  {
  }

  lemma HasLeastPosition(s: set<Position>)
    requires s != {}
    ensures exists m :: m in s && forall p | p in s && p != m :: PositionLess(m, p)
  {
    var keys := set p | p in s :: PositionKey(p);
    var some := Pick(s);
    assert PositionKey(some) in keys;
    var k := Min(keys);
    var m :| m in s && PositionKey(m) == k;
    forall p | p in s && p != m ensures PositionLess(m, p) {
      assert PositionKey(p) in keys;
      PositionKeyOrder(m, p);
    }
  }

  /** The least position of a set under `operator<`. */
  function LeastPosition(s: set<Position>): (m: Position)
    requires s != {}
    ensures m in s
    ensures forall p | p in s && p != m :: PositionLess(m, p)
  {
    HasLeastPosition(s);
    var m :| m in s && forall p | p in s && p != m :: PositionLess(m, p); m
  }

  /** The elements of a `std::set<Position>` in its iteration order. */
  function AscendingPositions(s: set<Position>): (r: seq<Position>)
    ensures |r| == |s|
    ensures forall i | 0 <= i < |r| :: r[i] in s
    ensures forall p | p in s :: p in r
    ensures forall i, j | 0 <= i < j < |r| :: PositionLess(r[i], r[j])
    decreases |s|
  {
    if s == {} then []
    else
      var m := LeastPosition(s);
      [m] + AscendingPositions(s - {m})
  }

  datatype Bomb = Bomb(bombId: BombId, position: Position, timer: u16)

  /** `Bomb::operator==` looks at the id alone. */
  predicate SameBomb(a: Bomb, b: Bomb) {
    a.bombId == b.bombId
  }

  lemma SameBombIgnoresPositionAndTimer(a: Bomb, p: Position, t: u16)
    ensures SameBomb(a, Bomb(a.bombId, p, t))
    ensures a.position != p ==> SameBomb(a, Bomb(a.bombId, p, t)) && a != Bomb(a.bombId, p, t)
  {
  }

  /** A player as the room stores it; the `scored` flag of the source is never read and is
      not part of the model. */
  datatype Player = Player(name: Text, address: Text)

  /** The alternatives of `Event::item`. */
  datatype EventItem =
    | BombPlaced(bombId: BombId, position: Position)
    | BombExploded(bombId: BombId, robotsDestroyed: seq<PlayerId>, blocksDestroyed: seq<Position>)
    | PlayerMoved(playerId: PlayerId, position: Position)
    | BlockPlaced(position: Position)

  /** `Event` keeps its `EventType` apart from the alternative it holds; its constructors
      do not check that the two agree. */
  datatype Event = Event(kind: EventType, item: EventItem)

  /** The `EventType` that names an alternative. */
  function ItemType(item: EventItem): (t: EventType)
    ensures t == BombPlacedT <==> item.BombPlaced?
    ensures t == BombExplodedT <==> item.BombExploded?
    ensures t == PlayerMovedT <==> item.PlayerMoved?
    ensures t == BlockPlacedT <==> item.BlockPlaced?
  {
    match item
    case BombPlaced(_, _) => BombPlacedT
    case BombExploded(_, _, _) => BombExplodedT
    case PlayerMoved(_, _) => PlayerMovedT
    case BlockPlaced(_) => BlockPlacedT
  }

  /** The type tag and the alternative agree. */
  predicate Consistent(e: Event) {
    e.kind == ItemType(e.item)
  }

  predicate AllConsistent(es: seq<Event>) {
    forall i | 0 <= i < |es| :: Consistent(es[i])
  }

  /** An event built the way the room builds every event: tag and alternative together. */
  function MakeEvent(item: EventItem): (e: Event)
    ensures Consistent(e) && e.item == item
  {
    Event(ItemType(item), item)
  }

  /** The authoritative state of a round (`GameStatus`). The `explosions` and
      `players_scored` members are never touched by the server and are not part of it. */
  datatype GameStatus = GameStatus(
    turn: u16,
    turns: map<u16, seq<Event>>,
    blocks: seq<Position>,
    bombs: map<BombId, Bomb>,
    players: map<PlayerId, Player>,
    positions: map<PlayerId, Position>,
    scores: map<PlayerId, Score>)

  /** The server's configuration, with the fields the room and the sessions read. */
  datatype ServerParams = ServerParams(
    name: Text,
    playersCount: u8,
    sizeX: u16,
    sizeY: u16,
    gameLength: u16,
    explosionRadius: u16,
    bombTimer: u16,
    turnDuration: nat,
    initialBlocks: u16,
    seed: u32,
    port: u16)

  /** Server -> client messages, by tag 0..4. */
  datatype ServerMessage =
    | Hello(name: Text, playersCount: u8, sizeX: u16, sizeY: u16, gameLength: u16,
            explosionRadius: u16, bombTimer: u16)
    | AcceptedPlayer(playerId: PlayerId, player: Player)
    | GameStarted(players: map<PlayerId, Player>)
    | Turn(turn: u16, events: seq<Event>)
    | GameEnded(scores: map<PlayerId, Score>)

  /** The Hello a session sends, filled from the parameters. */
  function HelloOf(p: ServerParams): (m: ServerMessage)
    ensures m.Hello? && m.name == p.name && m.playersCount == p.playersCount
    ensures m.sizeX == p.sizeX && m.sizeY == p.sizeY && m.gameLength == p.gameLength
    ensures m.explosionRadius == p.explosionRadius && m.bombTimer == p.bombTimer
  {
    Hello(p.name, p.playersCount, p.sizeX, p.sizeY, p.gameLength, p.explosionRadius, p.bombTimer)
  }

  /** Every event a message carries has agreeing tag and alternative. */
  predicate MessageConsistent(m: ServerMessage) {
    m.Turn? ==> AllConsistent(m.events)
  }

  /** A move waiting in `_moves` for the next tick: message id 1, 2 or 3 with its direction. */
  datatype PendingMove = PlaceBomb | PlaceBlock | Move(direction: u8)
}
