/** The client object (Client.cpp): a cursor over the bytes the server connection
    delivers, the write buffers of its two sockets, and the handlers that keep its copy
    of the game. Each method is proved against the decoders and encoders of ClientCodec
    and the state steps of ClientRules. */
module Client {
  import opened Collections
  import opened GameTypes
  import opened Wire
  import opened GameSession
  import opened ClientCodec
  import opened ClientRules

  /** Parameters before any Hello: all zero, with an empty name. */
  function NoParams(): HelloParams {
    HelloParams([], 0, 0, 0, 0, 0, 0)
  }

  /** A default-constructed `GameStatus`: no players, no board, turn 0. */
  function NoGame(): ClientStatus {
    ClientStatus(0, map[], map[], [], map[], {}, map[], {}, 0, 0, 0)
  }

  /** The loop of `receive_game_started`, run on a copy of the scores: each player is
      inserted with a score of 0. */
  method InsertZeros(scores0: map<PlayerId, Score>, players: map<PlayerId, Player>) returns (scores: map<PlayerId, Score>)
    ensures scores == ZeroScores(scores0, players)
  {
    var keys := Ascending(players.Keys);
    scores := scores0;
    for i := 0 to |keys|
      invariant forall k :: k in scores <==> k in scores0 || k in keys[..i]
      invariant forall k | k in scores :: scores[k] == if k in scores0 then scores0[k] else 0
    {
      var k: PlayerId := keys[i];
      scores := Insert(scores, k, 0);
    }
    assert keys[..|keys|] == keys;
    IsZeroScores(scores, scores0, players);
  }

  lemma IsZeroScores(a: map<PlayerId, Score>, scores0: map<PlayerId, Score>, players: map<PlayerId, Player>)
    requires forall k :: k in a <==> k in scores0 || k in Ascending(players.Keys)
    requires forall k | k in a :: a[k] == if k in scores0 then scores0[k] else 0
    ensures a == ZeroScores(scores0, players)
  {
    var z := ZeroScores(scores0, players);
    forall k: PlayerId ensures k in a <==> k in z {
      assert k in players <==> k in Ascending(players.Keys);
    }
    assert a.Keys == z.Keys;
    forall k | k in a ensures a[k] == z[k] { }
  }

  class Client {
    /** The parameters of the last Hello (`_server_params`). */
    var params: HelloParams
    /** `_client_params.get_nickname()`. */
    var nickname: Text
    /** `_game_status`. */
    var status: ClientStatus
    var inLobby: bool
    var validMsg: bool
    /** The frames sent to the server and the datagrams sent to the display, in order. */
    var toServer: seq<Frame>
    var toGui: seq<seq<u8>>
    /** The bytes the connection delivers from the start of the message being read, and
        `read_idx` into them. */
    var buffer: seq<u8>
    var readIdx: nat
    /** The frame being written to the server: what `send` wrote, and `buf_length`. */
    var out: seq<u8>
    var outLength: nat
    /** `buf_udp[0 .. buf_len_udp)`. */
    var udp: seq<u8>

    function State(): Mirror
      reads this
    {
      Mirror(params, nickname, status, inLobby, validMsg, toServer, toGui)
    }

    /** A client that has not heard from the server yet waits in the lobby. */
    constructor (nick: Text)
      ensures State() == Mirror(NoParams(), nick, NoGame(), true, false, [], [])
      ensures buffer == [] && readIdx == 0 && out == [] && outLength == 0 && udp == []
    {
      params := NoParams();
      nickname := nick;
      status := NoGame();
      inLobby := true;
      validMsg := false;
      toServer := [];
      toGui := [];
      buffer := [];
      readIdx := 0;
      out := [];
      outLength := 0;
      udp := [];
    }

    /** `clear_buffer`: the one buffer of the connection is emptied for reading and
        writing alike. */
    method ClearBuffer()
      modifies this`readIdx, this`out, this`outLength
      ensures readIdx == 0 && out == [] && outLength == 0
    {
      outLength := 0;
      out := [];
      readIdx := 0;
    }

    // -------------------------------------------- receive overloads

    method ReceiveU8() returns (r: Option<u8>)
      modifies this`readIdx
      ensures DecU8(buffer, old(readIdx)) == if r.Some? then Some((r.value, readIdx)) else None
    {
      if readIdx < |buffer| {
        r := Some(buffer[readIdx]);
        readIdx := readIdx + 1;
      } else {
        r := None;
      }
    }

    /** Two bytes, then `ntohs`. */
    method ReceiveU16() returns (r: Option<u16>)
      modifies this`readIdx
      ensures DecU16(buffer, old(readIdx)) == if r.Some? then Some((r.value, readIdx)) else None
    {
      if readIdx + 2 <= |buffer| {
        r := Some((buffer[readIdx] as int) * 0x100 + buffer[readIdx + 1]);
        readIdx := readIdx + 2;
      } else {
        r := None;
      }
    }

    /** Four bytes, then `ntohl`. */
    method ReceiveU32() returns (r: Option<u32>)
      modifies this`readIdx
      ensures DecU32(buffer, old(readIdx)) == if r.Some? then Some((r.value, readIdx)) else None
    {
      if readIdx + 4 <= |buffer| {
        var i := readIdx;
        r := Some((buffer[i] as int) * 0x100_0000 + (buffer[i + 1] as int) * 0x1_0000
                  + (buffer[i + 2] as int) * 0x100 + buffer[i + 3]);
        readIdx := readIdx + 4;
      } else {
        r := None;
      }
    }

    /** A length byte, then that many bytes. */
    method ReceiveText() returns (r: Option<Text>)
      modifies this`readIdx
      ensures DecText(buffer, old(readIdx)) == if r.Some? then Some((r.value, readIdx)) else None
    {
      if readIdx < |buffer| && readIdx + 1 + buffer[readIdx] <= |buffer| {
        var size := buffer[readIdx];
        readIdx := readIdx + 1;
        r := Some(buffer[readIdx..readIdx + size]);
        readIdx := readIdx + size;
      } else {
        r := None;
      }
    }

    method ReceivePlayer() returns (r: Option<Player>)
      modifies this`readIdx
      ensures DecPlayer(buffer, old(readIdx)) == if r.Some? then Some((r.value, readIdx)) else None
    {
      var name := ReceiveText();
      if name.None? { return None; }
      var address := ReceiveText();
      if address.None? { return None; }
      r := Some(Player(name.value, address.value));
    }

    method ReceivePosition() returns (r: Option<Position>)
      modifies this`readIdx
      ensures DecPosition(buffer, old(readIdx)) == if r.Some? then Some((r.value, readIdx)) else None
    {
      var x := ReceiveU16();
      if x.None? { return None; }
      var y := ReceiveU16();
      if y.None? { return None; }
      r := Some(Position(x.value, y.value));
    }

    /** `receive(std::list<player_id_t>&)`. */
    method ReceiveIdList() returns (r: Option<seq<PlayerId>>)
      modifies this`readIdx
      ensures DecIdList(buffer, old(readIdx)) == if r.Some? then Some((r.value, readIdx)) else None
    {
      var size := ReceiveU32();
      if size.None? { return None; }
      var list: seq<PlayerId> := [];
      ghost var target := DecIdList(buffer, old(readIdx));
      for i := 0 to size.value
        invariant DecIdItems(buffer, readIdx, size.value - i, list) == target
      {
        var id := ReceiveU8();
        if id.None? { return None; }
        list := list + [id.value];
      }
      r := Some(list);
    }

    /** `receive(std::list<Position>&)`. */
    method ReceivePositionList() returns (r: Option<seq<Position>>)
      modifies this`readIdx
      ensures DecPositionList(buffer, old(readIdx)) == if r.Some? then Some((r.value, readIdx)) else None
    {
      var size := ReceiveU32();
      if size.None? { return None; }
      var list: seq<Position> := [];
      ghost var target := DecPositionList(buffer, old(readIdx));
      for i := 0 to size.value
        invariant DecPositionItems(buffer, readIdx, size.value - i, list)
               == target
      {
        var p := ReceivePosition();
        if p.None? { return None; }
        list := list + [p.value];
      }
      r := Some(list);
    }

    /** One round of the event loop: the tag, then `receive(BombPlaced&)`,
        `receive(BombExploded&)`, `receive(PlayerMoved&)` or `receive(BlockPlaced&)`.
        A BombPlaced gets the bomb timer of the parameters; another tag gives nothing. */
    method ReceiveEvent() returns (r: Option<Option<ClientEvent>>)
      modifies this`readIdx
      ensures DecEvent(buffer, old(readIdx), params.bombTimer) == if r.Some? then Some((r.value, readIdx)) else None
    {
      var tag := ReceiveU8();
      if tag.None? { return None; }
      if tag.value == 0 {
        var id := ReceiveU32();
        if id.None? { return None; }
        var pos := ReceivePosition();
        if pos.None? { return None; }
        r := Some(Some(CBombPlaced(id.value, pos.value, params.bombTimer)));
      } else if tag.value == 1 {
        var id := ReceiveU32();
        if id.None? { return None; }
        var robots := ReceiveIdList();
        if robots.None? { return None; }
        var blocks := ReceivePositionList();
        if blocks.None? { return None; }
        r := Some(Some(CBombExploded(id.value, robots.value, blocks.value)));
      } else if tag.value == 2 {
        var id := ReceiveU8();
        if id.None? { return None; }
        var pos := ReceivePosition();
        if pos.None? { return None; }
        r := Some(Some(CPlayerMoved(id.value, pos.value)));
      } else if tag.value == 3 {
        var pos := ReceivePosition();
        if pos.None? { return None; }
        r := Some(Some(CBlockPlaced(pos.value)));
      } else {
        r := Some(None);
      }
    }

    /** `receive(std::list<std::shared_ptr<Event>>&)`. */
    method ReceiveEventList() returns (r: Option<seq<ClientEvent>>)
      modifies this`readIdx
      ensures DecEventList(buffer, old(readIdx), params.bombTimer)
           == if r.Some? then Some((r.value, readIdx)) else None
    {
      var size := ReceiveU32();
      if size.None? { return None; }
      var list: seq<ClientEvent> := [];
      ghost var target := DecEventList(buffer, old(readIdx), params.bombTimer);
      for i := 0 to size.value
        invariant DecEventItems(buffer, readIdx, size.value - i, list, params.bombTimer)
               == target
      {
        var e := ReceiveEvent();
        if e.None? { return None; }
        if e.value.Some? {
          list := list + [e.value.value];
        }
      }
      r := Some(list);
    }

    /** One round of the loop of `receive(std::map<player_id_t, Player>&)`. */
    method ReceivePlayerEntry(m: map<PlayerId, Player>) returns (r: Option<map<PlayerId, Player>>)
      modifies this`readIdx
      ensures AddPlayerEntry(buffer, old(readIdx), m) == if r.Some? then Some((r.value, readIdx)) else None
    {
      var key := ReceiveU8();
      if key.None? { return None; }
      var value := ReceivePlayer();
      if value.None? { return None; }
      r := Some(Insert(m, key.value, value.value));
    }

    /** One round of the loop of `receive(std::map<player_id_t, score_t>&)`. */
    method ReceiveScoreEntry(m: map<PlayerId, Score>) returns (r: Option<map<PlayerId, Score>>)
      modifies this`readIdx
      ensures AddScoreEntry(buffer, old(readIdx), m) == if r.Some? then Some((r.value, readIdx)) else None
    {
      var key := ReceiveU8();
      if key.None? { return None; }
      var value := ReceiveU32();
      if value.None? { return None; }
      r := Some(Insert(m, key.value, value.value));
    }

    /** `receive(std::map<player_id_t, Player>&)`: each pair is stored with `insert`. */
    method ReceivePlayerMap() returns (r: Option<map<PlayerId, Player>>)
      modifies this`readIdx
      ensures DecPlayerMap(buffer, old(readIdx)) == if r.Some? then Some((r.value, readIdx)) else None
    {
      var size := ReceiveU32();
      if size.None? { return None; }
      var m: map<PlayerId, Player> := map[];
      ghost var target := DecPlayerMap(buffer, old(readIdx));
      for i := 0 to size.value
        invariant DecPlayerEntries(buffer, readIdx, size.value - i, m) == target
      {
        var next := ReceivePlayerEntry(m);
        if next.None? { return None; }
        m := next.value;
      }
      r := Some(m);
    }

    /** `receive(std::map<player_id_t, score_t>&)`. */
    method ReceiveScoreMap() returns (r: Option<map<PlayerId, Score>>)
      modifies this`readIdx
      ensures DecScoreMap(buffer, old(readIdx)) == if r.Some? then Some((r.value, readIdx)) else None
    {
      var size := ReceiveU32();
      if size.None? { return None; }
      var m: map<PlayerId, Score> := map[];
      ghost var target := DecScoreMap(buffer, old(readIdx));
      for i := 0 to size.value
        invariant DecScoreEntries(buffer, readIdx, size.value - i, m) == target
      {
        var next := ReceiveScoreEntry(m);
        if next.None? { return None; }
        m := next.value;
      }
      r := Some(m);
    }

    // -------------------------------------------- message handlers

    /** `receive_hello`: seven fields, then the new parameters, three of which are also
        copied into the game. */
    method ReceiveHello() returns (ok: bool)
      modifies this`readIdx, this`params, this`status
      ensures match DecHello(buffer, old(readIdx))
        case None => !ok && State() == old(State())
        case Some((p, j)) =>
          && ok && readIdx == j
          && State() == old(State()).(params := p, status := old(status).(explosionRadius := p.explosionRadius,
                                                                          sizeX := p.sizeX, sizeY := p.sizeY))
    {
      var name := ReceiveText();
      if name.None? { return false; }
      var count := ReceiveU8();
      if count.None? { return false; }
      var sx := ReceiveU16();
      if sx.None? { return false; }
      var sy := ReceiveU16();
      if sy.None? { return false; }
      var len := ReceiveU16();
      if len.None? { return false; }
      var radius := ReceiveU16();
      if radius.None? { return false; }
      var timer := ReceiveU16();
      if timer.None? { return false; }
      params := HelloParams(name.value, count.value, sx.value, sy.value, len.value, radius.value, timer.value);
      status := status.(explosionRadius := params.explosionRadius, sizeX := params.sizeX, sizeY := params.sizeY);
      ok := true;
    }

    /** `receive_accepted_player`: the player is inserted, so a known id keeps its entry. */
    method ReceiveAcceptedPlayer() returns (ok: bool)
      modifies this`readIdx, this`status
      ensures match DecAccepted(buffer, old(readIdx))
        case None => !ok && State() == old(State())
        case Some(((id, p), j)) =>
          ok && readIdx == j && State() == old(State()).(status := old(status).(players := Insert(old(status).players, id, p)))
    {
      var id := ReceiveU8();
      if id.None? { return false; }
      var player := ReceivePlayer();
      if player.None? { return false; }
      status := status.(players := Insert(status.players, id.value, player.value));
      ok := true;
    }

    /** `receive_game_started`: the players are replaced, then each is given a score of 0
        with `insert`. */
    method ReceiveGameStarted() returns (ok: bool)
      modifies this`readIdx, this`status
      ensures match DecPlayerMap(buffer, old(readIdx))
        case None => !ok && State() == old(State())
        case Some((ps, j)) =>
          && ok && readIdx == j
          && State() == old(State()).(status := old(status).(players := ps, scores := ZeroScores(old(status).scores, ps)))
    {
      var players := ReceivePlayerMap();
      if players.None? { return false; }
      status := status.(players := players.value);
      var scores := InsertZeros(status.scores, status.players);
      status := status.(scores := scores);
      ok := true;
    }

    /** `receive_turn`: the turn number, then each event resolved on the copy in order. */
    method ReceiveTurn(apply: (ClientStatus, ClientEvent) -> ClientStatus) returns (ok: bool)
      modifies this`readIdx, this`status
      ensures match DecTurn(buffer, old(readIdx), params.bombTimer)
        case None => !ok && State() == old(State())
        case Some(((t, es), j)) =>
          ok && readIdx == j && State() == old(State()).(status := FoldFrom(old(status).(turn := t), es, apply))
    {
      var turn := ReceiveU16();
      if turn.None? { return false; }
      var events := ReceiveEventList();
      if events.None? { return false; }
      status := status.(turn := turn.value);
      ghost var start := status;
      ghost var idx := readIdx;
      var es := events.value;
      assert es[0..] == es;
      for i := 0 to |es|
        invariant FoldFrom(status, es[i..], apply) == FoldFrom(start, es, apply)
        invariant readIdx == idx
      {
        FoldFromStep(status, es, i, apply);
        status := apply(status, es[i]);
      }
      assert es[|es|..] == [];
      ok := true;
    }

    /** `receive_game_ended`: the scores are read and dropped; the client is back in the
        lobby. */
    method ReceiveGameEnded() returns (ok: bool)
      modifies this`readIdx, this`inLobby
      ensures match DecScoreMap(buffer, old(readIdx))
        case None => !ok && State() == old(State())
        case Some((_, j)) => ok && readIdx == j && State() == old(State()).(inLobby := true)
    {
      var scores := ReceiveScoreMap();
      if scores.None? { return false; }
      inLobby := true;
      ok := true;
    }

    /** The case for tag 0 of `receive_message`. */
    method OnHello(ghost apply: (ClientStatus, ClientEvent) -> ClientStatus) returns (ok: bool)
      modifies this`readIdx, this`params, this`status, this`udp, this`toGui
      ensures match DecHello(buffer, old(readIdx))
        case None => !ok && State() == old(State())
        case Some((p, j)) => ok && readIdx == j && State() == Handle(old(State()), InHello(p), apply)
    {
      ok := ReceiveHello();
      if ok { SendLobby(); }
    }

    /** The case for tag 1. */
    method OnAcceptedPlayer(ghost apply: (ClientStatus, ClientEvent) -> ClientStatus) returns (ok: bool)
      modifies this`readIdx, this`status, this`udp, this`toGui
      ensures match DecAccepted(buffer, old(readIdx))
        case None => !ok && State() == old(State())
        case Some(((id, p), j)) => ok && readIdx == j && State() == Handle(old(State()), InAccepted(id, p), apply)
    {
      ok := ReceiveAcceptedPlayer();
      if ok { SendLobby(); }
    }

    /** The case for tag 2: the players are stored and the client leaves the lobby. */
    method OnGameStarted(ghost apply: (ClientStatus, ClientEvent) -> ClientStatus) returns (ok: bool)
      modifies this`readIdx, this`status, this`inLobby
      ensures match DecPlayerMap(buffer, old(readIdx))
        case None => !ok && State() == old(State())
        case Some((ps, j)) => ok && readIdx == j && State() == Handle(old(State()), InStarted(ps), apply)
    {
      ok := ReceiveGameStarted();
      if ok { inLobby := false; }
    }

    /** The case for tag 3. */
    method OnTurn(apply: (ClientStatus, ClientEvent) -> ClientStatus) returns (ok: bool)
      modifies this`readIdx, this`status, this`udp, this`toGui
      ensures match DecTurn(buffer, old(readIdx), params.bombTimer)
        case None => !ok && State() == old(State())
        case Some(((t, es), j)) => ok && readIdx == j && State() == Handle(old(State()), InTurn(t, es), apply)
    {
      ghost var d := DecTurn(buffer, readIdx, params.bombTimer);
      ghost var st0 := State();
      ok := ReceiveTurn(apply);
      if ok {
        ghost var read := State();
        assert read == st0.(status := FoldFrom(st0.status.(turn := d.value.0.0), d.value.0.1, apply));
        SendGame();
        assert State() == Handle(st0, InTurn(d.value.0.0, d.value.0.1), apply);
      }
    }

    /** The case for tag 4. */
    method OnGameEnded(ghost apply: (ClientStatus, ClientEvent) -> ClientStatus) returns (ok: bool)
      modifies this`readIdx, this`inLobby, this`udp, this`toGui
      ensures match DecScoreMap(buffer, old(readIdx))
        case None => !ok && State() == old(State())
        case Some((s, j)) => ok && readIdx == j && State() == Handle(old(State()), InEnded(s), apply)
    {
      ok := ReceiveGameEnded();
      if ok { SendLobby(); }
    }

    /** `receive_message`: the tag, its handler, and what follows it; an unknown tag ends
        the process with status 42. */
    method ReceiveMessage(stream: seq<u8>, apply: (ClientStatus, ClientEvent) -> ClientStatus) returns (r: Outcome)
      modifies this
      ensures (r, State()) == Receive(old(State()), stream, apply)
      ensures buffer == stream
      ensures r.Handled? ==> readIdx == 0 && out == [] && outLength == 0
    {
      ClearBuffer();
      buffer := stream;
      var tag := ReceiveU8();
      if tag.None? { return Waiting; }
      var ok := false;
      if tag.value == 0 {
        ok := OnHello(apply);
      } else if tag.value == 1 {
        ok := OnAcceptedPlayer(apply);
      } else if tag.value == 2 {
        ok := OnGameStarted(apply);
      } else if tag.value == 3 {
        ok := OnTurn(apply);
      } else if tag.value == 4 {
        ok := OnGameEnded(apply);
      } else {
        return Exited(UnknownTagExit);
      }
      if !ok { return Waiting; }
      r := Handled(readIdx);
      ClearBuffer();
    }

    // -------------------------------------------- frames to the server

    method Send(n: u8)
      modifies this`out, this`outLength
      ensures out == old(out) + EncU8(n) && outLength == old(outLength) + 1
    {
      out := out + [n];
      outLength := outLength + 1;
    }

    /** `send(const std::string&)`: the size narrowed to a byte and that many bytes, while
        `buf_length` moves on by the whole size. */
    method SendText(s: Text)
      modifies this`out, this`outLength
      ensures out == old(out) + EncText(s) && outLength == old(outLength) + 1 + |s|
    {
      var size := |s| % 0x100;
      Send(size);
      out := out + s[..size];
      outLength := outLength + |s|;
    }

    /** `async_send` of the frame, then `clear_buffer`. */
    method Flush()
      modifies this`readIdx, this`out, this`outLength, this`toServer
      ensures toServer == old(toServer) + [Frame(old(out), old(outLength))]
      ensures readIdx == 0 && out == [] && outLength == 0
    {
      toServer := toServer + [Frame(out, outLength)];
      ClearBuffer();
    }

    method SendJoin()
      modifies this`readIdx, this`out, this`outLength, this`toServer
      ensures toServer == old(toServer) + [JoinFrame(nickname)]
      ensures readIdx == 0 && out == [] && outLength == 0
    {
      ClearBuffer();
      Send(0);
      assert out == EncU8(0);
      SendText(nickname);
      Flush();
    }

    method SendPlaceBomb()
      modifies this`readIdx, this`out, this`outLength, this`toServer
      ensures toServer == old(toServer) + [CommandFrame(GuiPlaceBomb)]
      ensures readIdx == 0 && out == [] && outLength == 0
    {
      ClearBuffer();
      Send(1);
      assert out == EncU8(1);
      Flush();
    }

    method SendPlaceBlock()
      modifies this`readIdx, this`out, this`outLength, this`toServer
      ensures toServer == old(toServer) + [CommandFrame(GuiPlaceBlock)]
      ensures readIdx == 0 && out == [] && outLength == 0
    {
      ClearBuffer();
      Send(2);
      assert out == EncU8(2);
      Flush();
    }

    method SendMove(d: Direction)
      modifies this`readIdx, this`out, this`outLength, this`toServer
      ensures toServer == old(toServer) + [CommandFrame(GuiMove(d))]
      ensures readIdx == 0 && out == [] && outLength == 0
    {
      ClearBuffer();
      Send(3);
      assert out == EncU8(3);
      Send(DirectionCode(d));
      Flush();
    }

    // -------------------------------------------- datagrams from the display

    /** `receive_input_message`: the datagram replaces the display buffer and is checked;
        during a game a valid command goes on to the server. An empty datagram fails every
        length test whatever stale byte its tag position holds. */
    method ReceiveInputMessage(d: seq<u8>)
      modifies this`udp, this`validMsg, this`toServer, this`readIdx, this`out, this`outLength
      ensures validMsg == ParseInput(d).Some?
      ensures toServer == if validMsg && !inLobby then old(toServer) + [CommandFrame(ParseInput(d).value)]
                          else old(toServer)
      ensures udp == []
    {
      udp := d;
      if |udp| == 0 {
        validMsg := false;
      } else if udp[0] == 0 {
        validMsg := |udp| == 1;
        if validMsg && !inLobby { SendPlaceBomb(); }
      } else if udp[0] == 1 {
        validMsg := |udp| == 1;
        if validMsg && !inLobby { SendPlaceBlock(); }
      } else if udp[0] == 2 {
        validMsg := |udp| == 2 && udp[1] <= 3;
        if validMsg && !inLobby { SendMove(DirectionOf(udp[1]).value); }
      } else {
        validMsg := false;
      }
      udp := [];
    }

    /** One round of `gui_listener`. */
    method GuiListenerStep(d: seq<u8>)
      modifies this`udp, this`validMsg, this`toServer, this`readIdx, this`out, this`outLength
      ensures State() == Input(old(State()), d)
      ensures udp == []
    {
      ReceiveInputMessage(d);
      if inLobby && validMsg {
        SendJoin();
      }
    }

    // -------------------------------------------- datagrams to the display

    method SendGuiU8(n: u8)
      modifies this`udp
      ensures udp == old(udp) + EncU8(n)
    {
      udp := udp + [n];
    }

    /** `htons`, then two bytes. */
    method SendGuiU16(n: u16)
      modifies this`udp
      ensures udp == old(udp) + EncU16(n)
    {
      udp := udp + [n / 0x100, n % 0x100];
    }

    /** `htonl`, then four bytes. */
    method SendGuiU32(n: u32)
      modifies this`udp
      ensures udp == old(udp) + EncU32(n)
    {
      udp := udp + [n / 0x100_0000, n / 0x1_0000 % 0x100, n / 0x100 % 0x100, n % 0x100];
    }

    /** The size narrowed to a byte, then that many bytes. */
    method SendGuiText(s: Text)
      modifies this`udp
      ensures udp == old(udp) + EncText(s)
    {
      var size := |s| % 0x100;
      SendGuiU8(size);
      udp := udp + s[..size];
    }

    method SendGuiPlayer(p: Player)
      modifies this`udp
      ensures udp == old(udp) + EncPlayer(p)
    {
      SendGuiText(p.name);
      SendGuiText(p.address);
    }

    method SendGuiPosition(p: Position)
      modifies this`udp
      ensures udp == old(udp) + EncPosition(p)
    {
      SendGuiU16(p.x);
      SendGuiU16(p.y);
    }

    method SendGuiBomb(b: Bomb)
      modifies this`udp
      ensures udp == old(udp) + EncBomb(b)
    {
      SendGuiPosition(b.position);
      SendGuiU16(b.timer);
    }

    /** The elements of a list of positions, in order (the loop of two overloads). */
    method SendGuiPositionItems(l: seq<Position>)
      modifies this`udp
      ensures udp == old(udp) + EncPositionItems(l)
    {
      for i := 0 to |l|
        invariant udp == old(udp) + EncPositionItems(l[..i])
      {
        assert l[..i + 1][..i] == l[..i];
        SendGuiPosition(l[i]);
      }
      assert l[..|l|] == l;
    }

    /** `send_gui(std::list<Position>)`. */
    method SendGuiPositionList(l: seq<Position>)
      modifies this`udp
      ensures udp == old(udp) + EncPositionList(l)
    {
      SendGuiU32(|l| % 0x1_0000_0000);
      SendGuiPositionItems(l);
      ConcatAssoc(old(udp), EncCount(|l|), EncPositionItems(l));
    }

    /** `send_gui(std::set<Position>)`: the positions in the set's order. */
    method SendGuiPositionSet(s: set<Position>)
      modifies this`udp
      ensures udp == old(udp) + EncPositionSet(s)
    {
      SendGuiU32(|s| % 0x1_0000_0000);
      SendGuiPositionItems(AscendingPositions(s));
      ConcatAssoc(old(udp), EncCount(|s|), EncPositionItems(AscendingPositions(s)));
    }

    /** `send_gui(std::map<bomb_id_t, Bomb>)`: only the bombs, in id order. */
    method SendGuiBombMap(m: map<BombId, Bomb>)
      modifies this`udp
      ensures udp == old(udp) + EncBombMap(m)
    {
      SendGuiU32(|m| % 0x1_0000_0000);
      ghost var start := udp;
      var keys := Ascending(m.Keys);
      for i := 0 to |keys|
        invariant udp == start + EncBombValues(m, keys[..i])
      {
        var k: BombId := keys[i];
        SendGuiBomb(m[k]);
        BombValuesStep(start, m, keys, i, udp);
      }
      assert keys[..|keys|] == keys;
      ConcatAssoc(old(udp), EncCount(|m|), EncBombValues(m, keys));
    }

    /** `send_gui(std::map<player_id_t, Player>)`. */
    method SendGuiPlayerMap(m: map<PlayerId, Player>)
      modifies this`udp
      ensures udp == old(udp) + EncPlayerMap(m)
    {
      SendGuiU32(|m| % 0x1_0000_0000);
      ghost var start := udp;
      var keys := Ascending(m.Keys);
      for i := 0 to |keys|
        invariant udp == start + EncPlayerEntries(m, keys[..i])
      {
        var k: PlayerId := keys[i];
        SendGuiU8(k);
        SendGuiPlayer(m[k]);
        PlayerEntriesStep(start, m, keys, i, udp);
      }
      assert keys[..|keys|] == keys;
      ConcatAssoc(old(udp), EncCount(|m|), EncPlayerEntries(m, keys));
    }

    /** `send_gui(std::map<player_id_t, Position>)`. */
    method SendGuiPositionMap(m: map<PlayerId, Position>)
      modifies this`udp
      ensures udp == old(udp) + EncPositionMap(m)
    {
      SendGuiU32(|m| % 0x1_0000_0000);
      ghost var start := udp;
      var keys := Ascending(m.Keys);
      for i := 0 to |keys|
        invariant udp == start + EncPositionEntries(m, keys[..i])
      {
        var k: PlayerId := keys[i];
        SendGuiU8(k);
        SendGuiPosition(m[k]);
        PositionEntriesStep(start, m, keys, i, udp);
      }
      assert keys[..|keys|] == keys;
      ConcatAssoc(old(udp), EncCount(|m|), EncPositionEntries(m, keys));
    }

    /** `send_gui(std::map<player_id_t, score_t>)`. */
    method SendGuiScoreMap(m: map<PlayerId, Score>)
      modifies this`udp
      ensures udp == old(udp) + EncScoreMap(m)
    {
      SendGuiU32(|m| % 0x1_0000_0000);
      ghost var start := udp;
      var keys := Ascending(m.Keys);
      for i := 0 to |keys|
        invariant udp == start + EncScoreEntries(m, keys[..i])
      {
        var k: PlayerId := keys[i];
        SendGuiU8(k);
        SendGuiU32(m[k]);
        ScoreEntriesStep(start, m, keys, i, udp);
      }
      assert keys[..|keys|] == keys;
      ConcatAssoc(old(udp), EncCount(|m|), EncScoreEntries(m, keys));
    }

    /** `send_lobby`: one datagram with the parameters and the players. */
    method SendLobby()
      modifies this`udp, this`toGui
      ensures State() == Lobby(old(State()))
      ensures udp == []
    {
      var p := params;
      var players := status.players;
      udp := [];
      SendGuiU8(0);
      assert udp == EncU8(0);
      SendGuiText(p.name);
      SendGuiU8(p.playersCount);
      SendGuiU16(p.sizeX);
      SendGuiU16(p.sizeY);
      SendGuiU16(p.gameLength);
      SendGuiU16(p.explosionRadius);
      SendGuiU16(p.bombTimer);
      SendGuiPlayerMap(players);
      assert udp == EncLobby(p, players);
      toGui := toGui + [udp];
      udp := [];
    }

    /** The first six fields of `send_game`. */
    method SendGameHead(p: HelloParams, turn: u16)
      modifies this`udp
      ensures udp == old(udp) + EncGameHead(p, turn)
    {
      SendGuiU8(1);
      SendGuiText(p.name);
      SendGuiU16(p.sizeX);
      SendGuiU16(p.sizeY);
      SendGuiU16(p.gameLength);
      SendGuiU16(turn);
    }

    /** The six collections of `send_game`. */
    method SendBoard(g: ClientStatus)
      modifies this`udp
      ensures udp == old(udp) + EncBoard(g)
    {
      ghost var start := udp;
      SendGuiPlayerMap(g.players);
      SendGuiPositionMap(g.positions);
      SendGuiPositionList(g.blocks);
      SendGuiBombMap(g.bombs);
      SendGuiPositionSet(g.explosions);
      SendGuiScoreMap(g.scores);
      ghost var a, b, c := EncPlayerMap(g.players), EncPositionMap(g.positions), EncPositionList(g.blocks);
      ghost var d, e := EncBombMap(g.bombs), EncPositionSet(g.explosions);
      ConcatAssoc(start, a, b);
      ConcatAssoc(start, a + b, c);
      ConcatAssoc(start, a + b + c, d);
      ConcatAssoc(start, a + b + c + d, e);
      ConcatAssoc(start, a + b + c + d + e, EncScoreMap(g.scores));
    }

    /** `send_game`: one datagram with the board; then the turn's explosions and scored
        players are cleared. */
    method SendGame()
      modifies this`udp, this`toGui, this`status
      ensures State() == Game(old(State()))
      ensures udp == []
    {
      udp := [];
      SendGameHead(params, status.turn);
      assert udp == EncGameHead(params, status.turn);
      SendBoard(status);
      toGui := toGui + [udp];
      status := status.(explosions := {}, playersScored := {});
      udp := [];
    }
  }
}
