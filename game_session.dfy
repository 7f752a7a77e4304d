/** One server connection (GameSession.cpp): the `send` overloads that serialise a message
    into the session's buffer, the framing of the five server messages, and the decoding of
    one inbound client message into a Join or a pending move. */
module GameSession {
  import opened Collections
  import opened GameTypes
  import opened Wire

  // ------------------------------------------------ the bytes each `send` appends

  /** The elements of a `std::list<player_id_t>`, in list order. */
  function EncIdItems(l: seq<PlayerId>): seq<u8>
    decreases |l|
  {
    if l == [] then [] else EncIdItems(l[..|l| - 1]) + EncU8(l[|l| - 1])
  }

  function EncIdList(l: seq<PlayerId>): seq<u8> {
    EncCount(|l|) + EncIdItems(l)
  }

  /** One event: the tag chosen by its `EventType`, then the fields of the alternative in
      declaration order. The source reads the alternative with `std::get`, which needs the
      tag and the alternative to agree. */
  function EncEvent(e: Event): seq<u8>
    requires Consistent(e)
  {
    match e.kind
    case BombPlacedT => EncU8(0) + EncU32(e.item.bombId) + EncPosition(e.item.position)
    case BombExplodedT =>
      EncU8(1) + EncU32(e.item.bombId) + EncIdList(e.item.robotsDestroyed)
      + EncPositionList(e.item.blocksDestroyed)
    case PlayerMovedT => EncU8(2) + EncU8(e.item.playerId) + EncPosition(e.item.position)
    case BlockPlacedT => EncU8(3) + EncPosition(e.item.position)
  }

  /** The first `n` events of a list, in list order. */
  function EncEventItems(l: seq<Event>, n: nat): seq<u8>
    requires AllConsistent(l) && n <= |l|
  {
    if n == 0 then [] else EncEventItems(l, n - 1) + EncEvent(l[n - 1])
  }

  function EncEventList(l: seq<Event>): seq<u8>
    requires AllConsistent(l)
  {
    EncCount(|l|) + EncEventItems(l, |l|)
  }

  /** A whole server message: its tag 0..4, then its payload. */
  function EncMessage(m: ServerMessage): seq<u8>
    requires MessageConsistent(m)
  {
    match m
    case Hello(name, count, sizeX, sizeY, length, radius, timer) =>
      EncU8(0) + EncText(name) + EncU8(count) + EncU16(sizeX) + EncU16(sizeY)
      + EncU16(length) + EncU16(radius) + EncU16(timer)
    case AcceptedPlayer(id, player) => EncU8(1) + EncU8(id) + EncPlayer(player)
    case GameStarted(players) => EncU8(2) + EncPlayerMap(players)
    case Turn(turn, events) => EncU8(3) + EncU16(turn) + EncEventList(events)
    case GameEnded(scores) => EncU8(4) + EncScoreMap(scores)
  }

  /** `BUFF_SIZE` of GameSession.h: the length of the session's `_buffer`, into which every
      message is written whole before it is sent. */
  const BufferSize: nat := 65507

  /** A block event is five bytes: its tag and the position. */
  lemma {:induction false} BlockItemsSize(l: seq<Event>, n: nat)
    requires AllConsistent(l) && n <= |l|
    requires forall k | 0 <= k < |l| :: l[k].kind.BlockPlacedT?
    ensures |EncEventItems(l, n)| == 5 * n
  {
    if n > 0 {
      BlockItemsSize(l, n - 1);
    }
  }

  /** A Turn of BlockPlaced events only, as `init_game` logs one per block drawn, takes
      7 + 5n bytes, and so does not fit `_buffer` once it holds more than 13100 events. */
  lemma BlockTurnSize(turn: u16, l: seq<Event>)
    requires AllConsistent(l)
    requires forall k | 0 <= k < |l| :: l[k].kind.BlockPlacedT?
    ensures |EncMessage(Turn(turn, l))| == 7 + 5 * |l|
    ensures |EncMessage(Turn(turn, l))| > BufferSize <==> |l| > 13100
  {
    BlockItemsSize(l, |l|);
  }

  /** The tag written for an event is its `EventType`'s value. */
  lemma EventTagIsEventType(e: Event)
    requires Consistent(e)
    ensures |EncEvent(e)| > 0 && EncEvent(e)[0] == EventTypeCode(e.kind)
  {
  }

  lemma EventItemsStep(pre: seq<u8>, l: seq<Event>, i: nat, buf: seq<u8>)
    requires AllConsistent(l) && i < |l|
    requires buf == pre + EncEventItems(l, i) + EncEvent(l[i])
    ensures buf == pre + EncEventItems(l, i + 1)
  {
    ConcatAssoc(pre, EncEventItems(l, i), EncEvent(l[i]));
  }

  lemma PlayerEntriesStep(pre: seq<u8>, m: map<PlayerId, Player>, keys: seq<int>, i: nat, buf: seq<u8>)
    requires forall j | 0 <= j < |keys| :: keys[j] in m
    requires i < |keys|
    requires var k := keys[i]; buf == pre + EncPlayerEntries(m, keys[..i]) + EncU8(k) + EncPlayer(m[k])
    ensures buf == pre + EncPlayerEntries(m, keys[..i + 1])
  {
    assert keys[..i + 1][..i] == keys[..i];
  }

  lemma ScoreEntriesStep(pre: seq<u8>, m: map<PlayerId, Score>, keys: seq<int>, i: nat, buf: seq<u8>)
    requires forall j | 0 <= j < |keys| :: keys[j] in m
    requires i < |keys|
    requires var k := keys[i]; buf == pre + EncScoreEntries(m, keys[..i]) + EncU8(k) + EncU32(m[k])
    ensures buf == pre + EncScoreEntries(m, keys[..i + 1])
  {
    assert keys[..i + 1][..i] == keys[..i];
  }

  // ------------------------------------------------ inbound messages

  /** What one inbound client message asks of the room. */
  datatype Inbound =
    | JoinRequest(name: Text)   // tag 0 with a name
    | Register(move: PendingMove) // tags 1, 2, 3
    | Ignored                   // any other tag
    | Truncated                 // the bytes end inside the message

  /** `read_message`'s dispatch on the tag at index `i`. */
  function DecodeInbound(b: seq<u8>, i: nat): (r: Inbound)
    ensures r.JoinRequest? ==> i < |b| && b[i] == 0 && |r.name| < 0x100
    ensures r.Register? && r.move.PlaceBomb? <==> i < |b| && b[i] == 1
    ensures r.Register? && r.move.PlaceBlock? <==> i < |b| && b[i] == 2
    ensures r.Register? && r.move.Move? <==> i + 1 < |b| && b[i] == 3
    ensures r.Register? && r.move.Move? ==> r.move.direction == b[i + 1]
    ensures r.Ignored? <==> i < |b| && b[i] > 3
  {
    match DecU8(b, i)
    case None => Truncated
    case Some((tag, j)) =>
      if tag == 0 then
        match DecText(b, j)
        case None => Truncated
        case Some((name, _)) => JoinRequest(name)
      else if tag == 1 then Register(PlaceBomb)
      else if tag == 2 then Register(PlaceBlock)
      else if tag == 3 then
        match DecU8(b, j)
        case None => Truncated
        case Some((dir, _)) => Register(Move(dir))
      else Ignored
  }

  /** Where `read_message`'s `receive` calls leave the cursor after `DecodeInbound(b, i)`:
      past the tag, and past the name or direction when the bytes hold it. */
  function InboundNext(b: seq<u8>, i: nat): (j: nat)
    ensures i >= |b| ==> j == i
    ensures i < |b| ==> i < j <= |b|
    ensures DecodeInbound(b, i).JoinRequest? ==> j == i + 2 + |DecodeInbound(b, i).name|
    ensures DecodeInbound(b, i).Register? && DecodeInbound(b, i).move.Move? ==> j == i + 2
  {
    match DecU8(b, i)
    case None => i
    case Some((tag, j)) =>
      if tag == 0 then
        match DecText(b, j)
        case None => j
        case Some((_, k)) => k
      else if tag == 3 then
        match DecU8(b, j)
        case None => j
        case Some((_, k)) => k
      else j
  }

  /** Where `char` is signed, the Join frame of a name of 128 to 255 bytes, which
      `DecodeInbound` reads as that name, makes the server's `receive(std::string&)` throw
      `std::length_error` out of the receive handler instead. */
  lemma SignedJoinThrows(name: Text, rest: seq<u8>)
    requires 0x80 <= |name| < 0x100
    ensures DecodeInbound([0] + EncText(name) + rest, 0) == JoinRequest(name)
    ensures DecTextSigned([0] + EncText(name) + rest, 1) == LengthError
  {
    TextRoundTrip([0], name, rest);
    SignedLengthNotReadBack([0], name, rest);
  }

  // ------------------------------------------------ the receive handler over time

  /** The requests a session's receive handler hands the room when its socket completes
      the reads `chunks` in order, from the buffer `b` and the cursor `i`: each completion
      appends its bytes and decodes one message at the cursor. With `rearm` the handler
      starts the next read once it is done; without it, as `read_message` is written, no
      read follows the first one that `start` posts. */
  function Served(b: seq<u8>, i: nat, chunks: seq<seq<u8>>, rearm: bool): (r: seq<Inbound>)
    ensures |r| <= |chunks|
    ensures chunks != [] ==> |r| > 0 && r[0] == DecodeInbound(b + chunks[0], i)
    decreases |chunks|
  {
    if chunks == [] then []
    else
      var b1 := b + chunks[0];
      [DecodeInbound(b1, i)] + (if rearm then Served(b1, InboundNext(b1, i), chunks[1..], true) else [])
  }

  /** As written, a session's first request is the only one the room ever gets: one that
      joins and then asks to move is joined, and its move never arrives. */
  lemma SecondRequestLost(name: Text, dir: u8)
    requires |name| < 0x100
    ensures var chunks := [[0] + EncText(name), [3, dir]];
      && Served([], 0, chunks, false) == [JoinRequest(name)]
      && Served([], 0, chunks, true) == [JoinRequest(name), Register(Move(dir))]
  {
    var join := [0] + EncText(name);
    var chunks: seq<seq<u8>> := [join, [3, dir]];
    TextRoundTrip([0], name, []);
    assert [] + join == [0] + EncText(name) + [];
    var b2 := join + [3, dir];
    var k := InboundNext(join, 0);
    assert k == |join|;
    assert b2[k] == 3 && b2[k + 1] == dir;
    assert DecodeInbound(b2, k) == Register(Move(dir));
    assert chunks[1..] == [[3, dir]];
    assert |chunks[1..][1..]| == 0;
  }

  /** With the read re-armed, every completion is handled, and the first one as it is
      handled now. */
  lemma {:induction false} RearmedServesEach(b: seq<u8>, i: nat, chunks: seq<seq<u8>>)
    ensures |Served(b, i, chunks, true)| == |chunks|
    ensures Served(b, i, chunks, false) == Served(b, i, chunks, true)[..if chunks == [] then 0 else 1]
    decreases |chunks|
  {
    if chunks != [] {
      var b1 := b + chunks[0];
      RearmedServesEach(b1, InboundNext(b1, i), chunks[1..]);
    }
  }

  // ------------------------------------------------ the session object

  /** A session's buffer and cursors. `buffer` is `_buffer[0 .. _buf_len)`, `readIdx` is
      `_read_idx`, and `written` lists the frames handed to `async_write`, in order. */
  class Session {
    var buffer: seq<u8>
    var readIdx: nat
    var written: seq<seq<u8>>

    constructor ()
      ensures buffer == [] && readIdx == 0 && written == []
    {
      buffer := [];
      readIdx := 0;
      written := [];
    }

    method ClearBuffer()
      modifies this`buffer, this`readIdx
      ensures buffer == [] && readIdx == 0
    {
      readIdx := 0;
      buffer := [];
    }

    /** `send_message`: the current buffer goes out as one frame. */
    method SendMessage()
      modifies this`written
      ensures written == old(written) + [buffer]
    {
      written := written + [buffer];
    }

    method SendU8(n: u8)
      modifies this`buffer
      ensures buffer == old(buffer) + EncU8(n)
    {
      buffer := buffer + [n];
    }

    method SendU16(n: u16)
      modifies this`buffer
      ensures buffer == old(buffer) + EncU16(n)
    {
      buffer := buffer + [n / 0x100, n % 0x100];
    }

    method SendU32(n: u32)
      modifies this`buffer
      ensures buffer == old(buffer) + EncU32(n)
    {
      buffer := buffer + [n / 0x100_0000, n / 0x1_0000 % 0x100, n / 0x100 % 0x100, n % 0x100];
    }

    method SendText(s: Text)
      modifies this`buffer
      ensures buffer == old(buffer) + EncText(s)
      ensures |buffer| == old(|buffer|) + 1 + |s| % 0x100
    {
      var size := |s| % 0x100;
      SendU8(size);
      buffer := buffer + s[..size];
    }

    method SendPlayer(p: Player)
      modifies this`buffer
      ensures buffer == old(buffer) + EncPlayer(p)
    {
      SendText(p.name);
      SendText(p.address);
    }

    method SendPosition(p: Position)
      modifies this`buffer
      ensures buffer == old(buffer) + EncPosition(p)
    {
      SendU16(p.x);
      SendU16(p.y);
    }

    method SendIdList(l: seq<PlayerId>)
      modifies this`buffer
      ensures buffer == old(buffer) + EncIdList(l)
    {
      SendU32(|l| % 0x1_0000_0000);
      var i := 0;
      while i < |l|
        invariant 0 <= i <= |l|
        invariant buffer == old(buffer) + EncCount(|l|) + EncIdItems(l[..i])
      {
        assert l[..i + 1][..i] == l[..i];
        SendU8(l[i]);
        i := i + 1;
      }
      assert l[..|l|] == l;
    }

    method SendPositionList(l: seq<Position>)
      modifies this`buffer
      ensures buffer == old(buffer) + EncPositionList(l)
    {
      SendU32(|l| % 0x1_0000_0000);
      var i := 0;
      while i < |l|
        invariant 0 <= i <= |l|
        invariant buffer == old(buffer) + EncCount(|l|) + EncPositionItems(l[..i])
      {
        assert l[..i + 1][..i] == l[..i];
        SendPosition(l[i]);
        i := i + 1;
      }
      assert l[..|l|] == l;
    }

    /** The four `send(event)` overloads, chosen by the event's type tag. */
    method SendEvent(e: Event)
      requires Consistent(e)
      modifies this`buffer
      ensures buffer == old(buffer) + EncEvent(e)
    {
      match e.kind
      case BombPlacedT =>
        SendU8(0);
        SendU32(e.item.bombId);
        SendPosition(e.item.position);
      case BombExplodedT =>
        SendU8(1);
        SendU32(e.item.bombId);
        SendIdList(e.item.robotsDestroyed);
        SendPositionList(e.item.blocksDestroyed);
      case PlayerMovedT =>
        SendU8(2);
        SendU8(e.item.playerId);
        SendPosition(e.item.position);
      case BlockPlacedT =>
        SendU8(3);
        SendPosition(e.item.position);
    }

    /** The loop of `send(std::list<Event>)`: each event in list order. */
    method SendEventItems(l: seq<Event>)
      requires AllConsistent(l)
      modifies this`buffer
      ensures buffer == old(buffer) + EncEventItems(l, |l|)
    {
      var i := 0;
      while i < |l|
        invariant 0 <= i <= |l|
        invariant buffer == old(buffer) + EncEventItems(l, i)
      {
        SendEvent(l[i]);
        EventItemsStep(old(buffer), l, i, buffer);
        i := i + 1;
      }
    }

    method SendEventList(l: seq<Event>)
      requires AllConsistent(l)
      modifies this`buffer
      ensures buffer == old(buffer) + EncEventList(l)
    {
      SendU32(|l| % 0x1_0000_0000);
      SendEventItems(l);
      ConcatAssoc(old(buffer), EncCount(|l|), EncEventItems(l, |l|));
    }

    /** The loop of `send(std::map<player_id_t, Player>)`, visiting `keys` in order. */
    method SendPlayerEntries(m: map<PlayerId, Player>, keys: seq<int>)
      requires forall j | 0 <= j < |keys| :: keys[j] in m
      modifies this`buffer
      ensures buffer == old(buffer) + EncPlayerEntries(m, keys)
    {
      var i := 0;
      while i < |keys|
        invariant 0 <= i <= |keys|
        invariant buffer == old(buffer) + EncPlayerEntries(m, keys[..i])
      {
        var k: PlayerId := keys[i];
        SendU8(k);
        SendPlayer(m[k]);
        PlayerEntriesStep(old(buffer), m, keys, i, buffer);
        i := i + 1;
      }
      assert keys[..|keys|] == keys;
    }

    method SendPlayerMap(m: map<PlayerId, Player>)
      modifies this`buffer
      ensures buffer == old(buffer) + EncPlayerMap(m)
    {
      SendU32(|m| % 0x1_0000_0000);
      SendPlayerEntries(m, Ascending(m.Keys));
      ConcatAssoc(old(buffer), EncCount(|m|), EncPlayerEntries(m, Ascending(m.Keys)));
    }

    method SendScoreEntries(m: map<PlayerId, Score>, keys: seq<int>)
      requires forall j | 0 <= j < |keys| :: keys[j] in m
      modifies this`buffer
      ensures buffer == old(buffer) + EncScoreEntries(m, keys)
    {
      var i := 0;
      while i < |keys|
        invariant 0 <= i <= |keys|
        invariant buffer == old(buffer) + EncScoreEntries(m, keys[..i])
      {
        var k: PlayerId := keys[i];
        SendU8(k);
        SendU32(m[k]);
        ScoreEntriesStep(old(buffer), m, keys, i, buffer);
        i := i + 1;
      }
      assert keys[..|keys|] == keys;
    }

    method SendScoreMap(m: map<PlayerId, Score>)
      modifies this`buffer
      ensures buffer == old(buffer) + EncScoreMap(m)
    {
      SendU32(|m| % 0x1_0000_0000);
      SendScoreEntries(m, Ascending(m.Keys));
      ConcatAssoc(old(buffer), EncCount(|m|), EncScoreEntries(m, Ascending(m.Keys)));
    }

    /** `send_hello`: an emptied buffer, tag 0 and the seven parameters, sent as one frame. */
    method SendHello(p: ServerParams)
      modifies this
      ensures written == old(written) + [EncMessage(HelloOf(p))]
      ensures buffer == [] && readIdx == 0
    {
      ClearBuffer();
      SendU8(0);
      assert buffer == [0];
      SendText(p.name);
      SendU8(p.playersCount);
      SendU16(p.sizeX);
      SendU16(p.sizeY);
      SendU16(p.gameLength);
      SendU16(p.explosionRadius);
      SendU16(p.bombTimer);
      SendMessage();
      ClearBuffer();
    }

    method SendAcceptedPlayer(id: PlayerId, player: Player)
      modifies this
      ensures written == old(written) + [EncMessage(AcceptedPlayer(id, player))]
      ensures buffer == [] && readIdx == 0
    {
      ClearBuffer();
      SendU8(1);
      assert buffer == [1];
      SendU8(id);
      SendPlayer(player);
      SendMessage();
      ClearBuffer();
    }

    method SendGameStarted(players: map<PlayerId, Player>)
      modifies this
      ensures written == old(written) + [EncMessage(GameStarted(players))]
      ensures buffer == [] && readIdx == 0
    {
      ClearBuffer();
      SendU8(2);
      assert buffer == [2];
      SendPlayerMap(players);
      SendMessage();
      ClearBuffer();
    }

    method SendTurn(turn: u16, events: seq<Event>)
      requires AllConsistent(events)
      modifies this
      ensures written == old(written) + [EncMessage(Turn(turn, events))]
      ensures buffer == [] && readIdx == 0
    {
      ClearBuffer();
      SendU8(3);
      assert buffer == [3];
      SendU16(turn);
      SendEventList(events);
      SendMessage();
      ClearBuffer();
    }

    method SendGameEnded(scores: map<PlayerId, Score>)
      modifies this
      ensures written == old(written) + [EncMessage(GameEnded(scores))]
      ensures buffer == [] && readIdx == 0
    {
      ClearBuffer();
      SendU8(4);
      assert buffer == [4];
      SendScoreMap(scores);
      SendMessage();
      ClearBuffer();
    }

    /** `receive(uint8_t&)`. */
    method ReceiveU8() returns (r: Option<u8>)
      modifies this`readIdx
      ensures DecU8(buffer, old(readIdx)) == if r.Some? then Some((r.value, readIdx)) else None
      ensures r.None? ==> readIdx == old(readIdx)
    {
      if readIdx < |buffer| {
        r := Some(buffer[readIdx]);
        readIdx := readIdx + 1;
      } else {
        r := None;
      }
    }

    /** `receive(std::string&)`: a length byte `L`, then `L` bytes; the cursor moves by `1 + L`. */
    method ReceiveText() returns (r: Option<Text>)
      modifies this`readIdx
      ensures DecText(buffer, old(readIdx)) == if r.Some? then Some((r.value, readIdx)) else None
      ensures r.Some? ==> readIdx == old(readIdx) + 1 + |r.value|
      ensures r.None? ==> readIdx == old(readIdx)
    {
      if readIdx < |buffer| && readIdx + 1 + buffer[readIdx] <= |buffer| {
        var size := buffer[readIdx];
        readIdx := readIdx + 1;
        r := Some(buffer[readIdx..readIdx + size]);
        readIdx := readIdx + size;
      } else {
        r := None;
      }
    }

    /** The decoding half of `read_message`: the received bytes are appended to the buffer,
        then one message is read at the cursor. */
    method ReadInbound(data: seq<u8>) returns (r: Inbound)
      modifies this`buffer, this`readIdx
      ensures buffer == old(buffer) + data
      ensures r == DecodeInbound(buffer, old(readIdx))
      ensures readIdx == InboundNext(buffer, old(readIdx))
    {
      buffer := buffer + data;
      var tag := ReceiveU8();
      if tag.None? {
        return Truncated;
      }
      if tag.value == 0 {
        var name := ReceiveText();
        r := if name.Some? then JoinRequest(name.value) else Truncated;
      } else if tag.value == 1 {
        r := Register(PlaceBomb);
      } else if tag.value == 2 {
        r := Register(PlaceBlock);
      } else if tag.value == 3 {
        var dir := ReceiveU8();
        r := if dir.Some? then Register(Move(dir.value)) else Truncated;
      } else {
        r := Ignored;
      }
    }
  }
}
