/** The two ends of each connection agree. What a session writes for a server message,
    the client reads back as the same message and handles as such; the frames the client
    writes to the server, the session decodes into the Join or the move they stand for. */
module RoundTrip {
  import opened Collections
  import opened GameTypes
  import opened Wire
  import opened GameSession
  import opened ClientCodec
  import opened ClientRules
  import opened ListRoundTrip

  // ------------------------------------------------ whole messages

  /** The message the client decodes from a server message. */
  function InOf(m: ServerMessage, timer: u16): (r: Incoming)
    requires MessageConsistent(m)
    ensures !r.InUnknown?
  {
    match m
    case Hello(name, count, sx, sy, len, radius, bombTimer) =>
      InHello(HelloParams(name, count, sx, sy, len, radius, bombTimer))
    case AcceptedPlayer(id, p) => InAccepted(id, p)
    case GameStarted(players) => InStarted(players)
    case Turn(turn, events) => InTurn(turn, ToClientAll(events, |events|, timer))
    case GameEnded(scores) => InEnded(scores)
  }

  /** Every text the message carries has at most 255 bytes and every list fewer than 2^32
      elements, so nothing is cut short on the wire; and the whole message fits the
      session's `_buffer`, and with it the client's 65535-byte `buf`. */
  predicate MessageFits(m: ServerMessage) {
    && MessageConsistent(m) && |EncMessage(m)| <= BufferSize
    && match m
    case Hello(name, _, _, _, _, _, _) => Fits(name)
    case AcceptedPlayer(_, p) => Fits(p.name) && Fits(p.address)
    case GameStarted(players) => PlayersFit(players)
    case Turn(_, events) => AllEventsFit(events) && |events| < 0x1_0000_0000
    case GameEnded(_) => true
  }

  lemma HelloAt(b: seq<u8>, i: nat, m: ServerMessage, timer: u16, j: nat)
    requires m.Hello? && Fits(m.name) && At(b, i, EncMessage(m)) && j == i + |EncMessage(m)|
    ensures DecIncoming(b, i, timer) == Some((InOf(m, timer), j))
  {
    var s0, s1, s2 := EncU8(0), EncText(m.name), EncU8(m.playersCount);
    var s3, s4, s5 := EncU16(m.sizeX), EncU16(m.sizeY), EncU16(m.gameLength);
    var s6, s7 := EncU16(m.explosionRadius), EncU16(m.bombTimer);
    var i1 := i + 1;
    var i2 := i1 + |s1|;
    var i3 := i2 + 1;
    var i4 := i3 + 2;
    var i5 := i4 + 2;
    var i6 := i5 + 2;
    var i7 := i6 + 2;
    AtSplit(b, i, i7, s0 + s1 + s2 + s3 + s4 + s5 + s6, s7);
    AtSplit(b, i, i6, s0 + s1 + s2 + s3 + s4 + s5, s6);
    AtSplit(b, i, i5, s0 + s1 + s2 + s3 + s4, s5);
    AtSplit(b, i, i4, s0 + s1 + s2 + s3, s4);
    AtSplit(b, i, i3, s0 + s1 + s2, s3);
    AtSplit(b, i, i2, s0 + s1, s2);
    AtSplit(b, i, i1, s0, s1);
    U8At(b, i, 0, i1);
    TextAt(b, i1, m.name, i2);
    U8At(b, i2, m.playersCount, i3);
    U16At(b, i3, m.sizeX, i4);
    U16At(b, i4, m.sizeY, i5);
    U16At(b, i5, m.gameLength, i6);
    U16At(b, i6, m.explosionRadius, i7);
    U16At(b, i7, m.bombTimer, j);
  }

  lemma AcceptedAt(b: seq<u8>, i: nat, m: ServerMessage, timer: u16, j: nat)
    requires m.AcceptedPlayer? && Fits(m.player.name) && Fits(m.player.address)
    requires At(b, i, EncMessage(m)) && j == i + |EncMessage(m)|
    ensures DecIncoming(b, i, timer) == Some((InOf(m, timer), j))
  {
    var s0, s1, s2 := EncU8(1), EncU8(m.playerId), EncPlayer(m.player);
    var i1, i2 := i + 1, i + 2;
    AtSplit(b, i, i2, s0 + s1, s2);
    AtSplit(b, i, i1, s0, s1);
    U8At(b, i, 1, i1);
    U8At(b, i1, m.playerId, i2);
    PlayerAt(b, i2, m.player, j);
  }

  lemma StartedAt(b: seq<u8>, i: nat, m: ServerMessage, timer: u16, j: nat)
    requires m.GameStarted? && PlayersFit(m.players) && |EncMessage(m)| <= BufferSize
    requires At(b, i, EncMessage(m)) && j == i + |EncMessage(m)|
    ensures DecIncoming(b, i, timer) == Some((InOf(m, timer), j))
  {
    var i1 := i + 1;
    AtSplit(b, i, i1, EncU8(2), EncPlayerMap(m.players));
    U8At(b, i, 2, i1);
    PlayerMapAt(b, i1, m.players, j);
  }

  lemma TurnAt(b: seq<u8>, i: nat, m: ServerMessage, timer: u16, j: nat)
    requires m.Turn? && MessageConsistent(m) && AllEventsFit(m.events) && |m.events| < 0x1_0000_0000
    requires |EncMessage(m)| <= BufferSize
    requires At(b, i, EncMessage(m)) && j == i + |EncMessage(m)|
    ensures DecIncoming(b, i, timer) == Some((InOf(m, timer), j))
  {
    var s0, s1, s2 := EncU8(3), EncU16(m.turn), EncEventList(m.events);
    var i1, i3 := i + 1, i + 3;
    AtSplit(b, i, i3, s0 + s1, s2);
    AtSplit(b, i, i1, s0, s1);
    U8At(b, i, 3, i1);
    TurnBodyAt(b, i1, m, timer, i3, j);
  }

  lemma TurnBodyAt(b: seq<u8>, i1: nat, m: ServerMessage, timer: u16, i3: nat, j: nat)
    requires m.Turn? && MessageConsistent(m) && AllEventsFit(m.events) && |m.events| < 0x1_0000_0000
    requires At(b, i1, EncU16(m.turn)) && i3 == i1 + 2
    requires At(b, i3, EncEventList(m.events)) && j == i3 + |EncEventList(m.events)|
    ensures DecTurn(b, i1, timer) == Some(((m.turn, ToClientAll(m.events, |m.events|, timer)), j))
  {
    U16At(b, i1, m.turn, i3);
    EventListAt(b, i3, m.events, timer, j);
  }

  lemma EndedAt(b: seq<u8>, i: nat, m: ServerMessage, timer: u16, j: nat)
    requires m.GameEnded? && At(b, i, EncMessage(m)) && j == i + |EncMessage(m)|
    ensures DecIncoming(b, i, timer) == Some((InOf(m, timer), j))
  {
    var i1 := i + 1;
    AtSplit(b, i, i1, EncU8(4), EncScoreMap(m.scores));
    U8At(b, i, 4, i1);
    ScoreMapAt(b, i1, m.scores, j);
  }

  /** Wherever it starts in the received bytes, a message a session sends is read by the
      client as that message, and exactly its bytes are consumed. */
  lemma MessageAt(b: seq<u8>, i: nat, m: ServerMessage, timer: u16, j: nat)
    requires MessageConsistent(m) && MessageFits(m)
    requires At(b, i, EncMessage(m)) && j == i + |EncMessage(m)|
    ensures DecIncoming(b, i, timer) == Some((InOf(m, timer), j))
  {
    match m
    case Hello(_, _, _, _, _, _, _) => HelloAt(b, i, m, timer, j);
    case AcceptedPlayer(_, _) => AcceptedAt(b, i, m, timer, j);
    case GameStarted(_) => StartedAt(b, i, m, timer, j);
    case Turn(_, _) => TurnAt(b, i, m, timer, j);
    case GameEnded(_) => EndedAt(b, i, m, timer, j);
  }

  /** At the head of the connection's bytes, whatever follows it. */
  lemma MessageRoundTrip(m: ServerMessage, rest: seq<u8>, timer: u16)
    requires MessageConsistent(m) && MessageFits(m)
    ensures DecIncoming(EncMessage(m) + rest, 0, timer) == Some((InOf(m, timer), |EncMessage(m)|))
  {
    AtWhole([], EncMessage(m), rest);
    assert [] + EncMessage(m) + rest == EncMessage(m) + rest;
    MessageAt(EncMessage(m) + rest, 0, m, timer, |EncMessage(m)|);
  }

  /** `receive_message` on a message a session sent handles that message (never exits),
      and consumes exactly its bytes. */
  lemma ReceiveServerMessage(st: Mirror, m: ServerMessage, rest: seq<u8>, apply: (ClientStatus, ClientEvent) -> ClientStatus)
    requires MessageConsistent(m) && MessageFits(m)
    ensures Receive(st, EncMessage(m) + rest, apply)
         == (Handled(|EncMessage(m)|), Handle(st, InOf(m, st.params.bombTimer), apply))
  {
    MessageRoundTrip(m, rest, st.params.bombTimer);
  }

  /** The lobby the display is sent is the Hello the server sent, tag included, followed
      by the players in the server's own map layout. */
  lemma LobbyIsHelloAndPlayers(p: HelloParams, players: map<PlayerId, Player>)
    ensures EncLobby(p, players)
         == EncMessage(Hello(p.name, p.playersCount, p.sizeX, p.sizeY, p.gameLength,
                             p.explosionRadius, p.bombTimer)) + EncPlayerMap(players)
  {
  }

  /** After a Hello from the server, the display gets back the bytes of that Hello, then
      the players the client knows. */
  lemma HelloEchoedToDisplay(st: Mirror, m: ServerMessage, rest: seq<u8>, apply: (ClientStatus, ClientEvent) -> ClientStatus)
    requires m.Hello? && Fits(m.name)
    ensures var (o, after) := Receive(st, EncMessage(m) + rest, apply);
      o == Handled(|EncMessage(m)|)
      && after.toGui == st.toGui + [EncMessage(m) + EncPlayerMap(st.status.players)]
  {
    MessageRoundTrip(m, rest, st.params.bombTimer);
    var p := HelloParams(m.name, m.playersCount, m.sizeX, m.sizeY, m.gameLength, m.explosionRadius, m.bombTimer);
    LobbyIsHelloAndPlayers(p, st.status.players);
  }

  // ------------------------------------------------ client frames at the server

  /** A nickname of at most 255 bytes: the session reads the Join with that name, and the
      frame's length is exactly the bytes written. */
  lemma JoinFrameDecodes(nickname: Text, rest: seq<u8>)
    requires Fits(nickname)
    ensures var f := JoinFrame(nickname);
      DecodeInbound(f.bytes + rest, 0) == JoinRequest(nickname) && f.length == |f.bytes|
  {
    TextRoundTrip(EncU8(0), nickname, rest);
  }

  /** A longer nickname: `send` writes only its first `size % 256` bytes, so the session
      reads a Join with that prefix of the name, while the frame claims the whole size. */
  lemma JoinFrameOverlong(nickname: Text, rest: seq<u8>)
    requires !Fits(nickname)
    ensures var f := JoinFrame(nickname);
      && DecodeInbound(f.bytes + rest, 0) == JoinRequest(nickname[..|nickname| % 0x100])
      && f.length >= |f.bytes| + 0x100
  {
    TextRoundTrip(EncU8(0), nickname, rest);
  }

  /** The server's move for a display command. */
  function MoveOf(c: GuiInput): PendingMove {
    match c
    case GuiPlaceBomb => PlaceBomb
    case GuiPlaceBlock => PlaceBlock
    case GuiMove(d) => Move(DirectionCode(d))
  }

  /** A valid datagram from the display reaches the server as the same command, its tag
      shifted up by one (the display's 0..2 are the server's 1..3); a Move keeps its
      direction byte. */
  lemma CommandReachesServer(d: seq<u8>, rest: seq<u8>)
    requires ParseInput(d).Some?
    ensures var f := CommandFrame(ParseInput(d).value);
      && f.length == |f.bytes|
      && DecodeInbound(f.bytes + rest, 0) == Register(MoveOf(ParseInput(d).value))
      && |f.bytes| == |d| && f.bytes[0] == d[0] + 1 && f.bytes[1..] == d[1..]
  {
  }
}
