/** What the client does with one message from the server and with one datagram from the
    display (Client.cpp `receive_message`, `receive_input_message` and the loop of
    `gui_listener`), as functions of the state it keeps between them. */
module ClientRules {
  import opened Collections
  import opened GameTypes
  import opened Wire
  import opened ClientCodec

  /** The part of the client that outlives one message: the parameters of the last Hello,
      the nickname it joins with, its copy of the game, the lobby and validity flags, and
      the frames and datagrams it has sent, in order. */
  datatype Mirror = Mirror(
    params: HelloParams,
    nickname: Text,
    status: ClientStatus,
    inLobby: bool,
    validMsg: bool,
    toServer: seq<Frame>,
    toGui: seq<seq<u8>>)

  /** How one `receive_message` ends: the message was handled and took `consumed` bytes,
      the bytes ran out inside it (the source goes on waiting), or the process exits. */
  datatype Outcome = Handled(consumed: nat) | Waiting | Exited(code: int)

  /** The exit status of `receive_message` for an unknown tag. */
  const UnknownTagExit := 42

  /** `send_lobby`: one datagram with the parameters and the players. */
  function Lobby(st: Mirror): Mirror {
    st.(toGui := st.toGui + [EncLobby(st.params, st.status.players)])
  }

  /** `send_game`: one datagram with the board, after which the explosions and the
      scored players of the turn are forgotten. */
  function Game(st: Mirror): Mirror {
    st.(toGui := st.toGui + [EncGame(st.params, st.status)],
        status := st.status.(explosions := {}, playersScored := {}))
  }

  /** `receive_game_started`'s loop: every player gets a score of 0 unless it already
      has one (`insert` keeps an existing entry). */
  function ZeroScores(scores: map<PlayerId, Score>, players: map<PlayerId, Player>): (r: map<PlayerId, Score>)
    ensures forall k :: k in r <==> k in scores || k in players
    ensures forall k | k in scores :: r[k] == scores[k]
    ensures forall k | k in r && k !in scores :: r[k] == 0
  {
    map k | k in scores.Keys + players.Keys :: if k in scores then scores[k] else 0
  }

  /** The five message handlers, each followed by what `receive_message` does after it.
      `apply` is `Event::resolve`, which the client calls on its copy for each event. */
  function Handle(st: Mirror, m: Incoming, apply: (ClientStatus, ClientEvent) -> ClientStatus): Mirror {
    match m
    case InHello(p) =>
      Lobby(st.(params := p,
                status := st.status.(explosionRadius := p.explosionRadius, sizeX := p.sizeX, sizeY := p.sizeY)))
    case InAccepted(id, player) =>
      Lobby(st.(status := st.status.(players := Insert(st.status.players, id, player))))
    case InStarted(players) =>
      st.(status := st.status.(players := players, scores := ZeroScores(st.status.scores, players)),
          inLobby := false)
    case InTurn(turn, events) =>
      Game(st.(status := FoldFrom(st.status.(turn := turn), events, apply)))
    case InEnded(_) =>
      Lobby(st.(inLobby := true))
    case InUnknown(_) => st
  }

  /** `receive_message` on the bytes `stream` the connection delivers from the start of a
      message. BombPlaced events get the bomb timer the client holds before the message. */
  function Receive(st: Mirror, stream: seq<u8>, apply: (ClientStatus, ClientEvent) -> ClientStatus)
    : (Outcome, Mirror)
  {
    match DecIncoming(stream, 0, st.params.bombTimer)
    case None => (Waiting, st)
    case Some((m, n)) =>
      if m.InUnknown? then (Exited(UnknownTagExit), st) else (Handled(n), Handle(st, m, apply))
  }

  /** One round of `gui_listener`: the datagram is validated; a valid command is passed on
      to the server during a game, and any valid datagram in the lobby sends a Join. */
  function Input(st: Mirror, d: seq<u8>): Mirror {
    var c := ParseInput(d);
    var sent := if c.Some? && !st.inLobby then st.toServer + [CommandFrame(c.value)] else st.toServer;
    var joined := if c.Some? && st.inLobby then sent + [JoinFrame(st.nickname)] else sent;
    st.(validMsg := c.Some?, toServer := joined)
  }

  // ------------------------------------------------ properties

  /** Only a tag above 4 ends the process, with status 42, and it changes nothing first;
      a message cut short changes nothing either. */
  lemma ReceiveExits(st: Mirror, stream: seq<u8>, apply: (ClientStatus, ClientEvent) -> ClientStatus)
    ensures var (o, after) := Receive(st, stream, apply);
      && (o.Exited? <==> |stream| > 0 && stream[0] > 4)
      && (o.Exited? ==> o.code == 42 && after == st)
      && (o.Waiting? ==> after == st)
  {
    match DecIncoming(stream, 0, st.params.bombTimer)
    case None =>
    case Some((m, n)) =>
  }

  /** Hello replaces the parameters, copies three of them into the game, and sends the
      lobby to the display, built from the new parameters. */
  lemma HelloEffect(st: Mirror, p: HelloParams, apply: (ClientStatus, ClientEvent) -> ClientStatus)
    ensures var after := Handle(st, InHello(p), apply);
      && after.params == p
      && after.status.explosionRadius == p.explosionRadius
      && after.status.sizeX == p.sizeX && after.status.sizeY == p.sizeY
      && after.status.(explosionRadius := st.status.explosionRadius, sizeX := st.status.sizeX,
                       sizeY := st.status.sizeY) == st.status
      && after.toGui == st.toGui + [EncLobby(p, st.status.players)]
      && after.inLobby == st.inLobby && after.toServer == st.toServer
  {
  }

  /** AcceptedPlayer adds the player unless its id is taken, and shows the lobby. */
  lemma AcceptedEffect(st: Mirror, id: PlayerId, player: Player, apply: (ClientStatus, ClientEvent) -> ClientStatus)
    ensures var after := Handle(st, InAccepted(id, player), apply);
      && id in after.status.players
      && (id !in st.status.players ==> after.status.players[id] == player)
      && (forall k | k in st.status.players :: k in after.status.players &&
                                               after.status.players[k] == st.status.players[k])
      && after.toGui == st.toGui + [EncLobby(st.params, after.status.players)]
  {
  }

  /** GameStarted replaces the players, gives each a score (0 for a new one, the old score
      otherwise), leaves the lobby and sends nothing to the display. */
  lemma StartedEffect(st: Mirror, players: map<PlayerId, Player>, apply: (ClientStatus, ClientEvent) -> ClientStatus)
    ensures var after := Handle(st, InStarted(players), apply);
      && after.status.players == players
      && (forall k | k in players :: k in after.status.scores)
      && (forall k | k in players && k !in st.status.scores :: after.status.scores[k] == 0)
      && (forall k | k in st.status.scores :: after.status.scores[k] == st.status.scores[k])
      && !after.inLobby
      && after.toGui == st.toGui && after.toServer == st.toServer
  {
  }

  /** Turn applies its events in order to the copy with the new turn number, shows that
      board, and then forgets the turn's explosions and scored players. */
  lemma TurnEffect(st: Mirror, turn: u16, events: seq<ClientEvent>, apply: (ClientStatus, ClientEvent) -> ClientStatus)
    ensures var after := Handle(st, InTurn(turn, events), apply);
      var board := FoldFrom(st.status.(turn := turn), events, apply);
      && after.toGui == st.toGui + [EncGame(st.params, board)]
      && after.status == board.(explosions := {}, playersScored := {})
      && after.inLobby == st.inLobby
  {
  }

  /** Without events, the board shown after a Turn carries that turn's number. */
  lemma TurnShowsTurn(st: Mirror, turn: u16, apply: (ClientStatus, ClientEvent) -> ClientStatus)
    ensures Handle(st, InTurn(turn, []), apply).status.turn == turn
  {
  }

  /** GameEnded discards the scores it carries, returns to the lobby and shows it. */
  lemma EndedEffect(st: Mirror, scores: map<PlayerId, Score>, apply: (ClientStatus, ClientEvent) -> ClientStatus)
    ensures var after := Handle(st, InEnded(scores), apply);
      && after.inLobby && after.status == st.status && after.params == st.params
      && after.toGui == st.toGui + [EncLobby(st.params, st.status.players)]
  {
  }

  /** A datagram is valid exactly when it is a well-formed command; only a valid one sends
      anything, a command during the game and a Join in the lobby. */
  lemma InputEffect(st: Mirror, d: seq<u8>)
    ensures var after := Input(st, d);
      && (after.validMsg <==> ParseInput(d).Some?)
      && (!after.validMsg ==> after.toServer == st.toServer)
      && (after.validMsg && st.inLobby ==> after.toServer == st.toServer + [JoinFrame(st.nickname)])
      && (after.validMsg && !st.inLobby ==>
            after.toServer == st.toServer + [CommandFrame(ParseInput(d).value)])
      && after.(validMsg := st.validMsg, toServer := st.toServer) == st
  {
  }
}
