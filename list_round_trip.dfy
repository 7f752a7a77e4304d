/** The lists, maps and events a session writes (GameSession.cpp) are read back unchanged
    by the client's `receive` overloads (Client.cpp). Each lemma is stated at an index of
    any received byte sequence that holds the encoding there: `At(b, i, x)`. The encoders
    write a list from the back and the decoders read it from the front, so each items
    decoder gets a "snoc" lemma that adds one round at the end. */
module ListRoundTrip {
  import opened Collections
  import opened GameTypes
  import opened Wire
  import opened GameSession
  import opened ClientCodec

  // ------------------------------------------------ bytes at an index

  /** The bytes `x` occur in `b` from index `i` on. */
  predicate At(b: seq<u8>, i: nat, x: seq<u8>) {
    i + |x| <= |b| && b[i..i + |x|] == x
  }

  lemma AtWhole(pre: seq<u8>, x: seq<u8>, rest: seq<u8>)
    ensures At(pre + x + rest, |pre|, x)
  {
    assert (pre + x + rest)[|pre|..|pre| + |x|] == x;
  }

  /** Bytes `u + v` at `i` are `u` at `i` and `v` at `j`, just past `u`. End indices are
      passed in rather than written as sums, which keeps the solver's terms small. */
  lemma AtSplit(b: seq<u8>, i: nat, j: nat, u: seq<u8>, v: seq<u8>)
    requires At(b, i, u + v) && j == i + |u|
    ensures At(b, i, u) && At(b, j, v)
  {
    var w := b[i..i + |u| + |v|];
    assert b[i..i + |u|] == w[..|u|];
    assert w[..|u|] == u;
    assert b[i + |u|..i + |u| + |v|] == w[|u|..];
    assert w[|u|..] == v;
  }

  lemma Split(b: seq<u8>, i: nat, x: seq<u8>)
    requires At(b, i, x)
    ensures b == b[..i] + x + b[i + |x|..]
  {
    assert b == b[..i] + b[i..i + |x|] + b[i + |x|..];
  }

  lemma U8At(b: seq<u8>, i: nat, n: u8, j: nat)
    requires At(b, i, EncU8(n)) && j == i + 1
    ensures DecU8(b, i) == Some((n, j))
  {
    assert b[i] == b[i..i + 1][0];
  }

  lemma U16At(b: seq<u8>, i: nat, n: u16, j: nat)
    requires At(b, i, EncU16(n)) && j == i + 2
    ensures DecU16(b, i) == Some((n, j))
  {
    Split(b, i, EncU16(n));
    U16RoundTrip(b[..i], n, b[i + 2..]);
  }

  lemma U32At(b: seq<u8>, i: nat, n: u32, j: nat)
    requires At(b, i, EncU32(n)) && j == i + 4
    ensures DecU32(b, i) == Some((n, j))
  {
    Split(b, i, EncU32(n));
    U32RoundTrip(b[..i], n, b[i + 4..]);
  }

  lemma TextAt(b: seq<u8>, i: nat, s: Text, j: nat)
    requires Fits(s) && At(b, i, EncText(s)) && j == i + |EncText(s)|
    ensures DecText(b, i) == Some((s, j))
  {
    TextRoundTrip(b[..i], s, b[i + |EncText(s)|..]);
    Split(b, i, EncText(s));
  }

  lemma PositionAt(b: seq<u8>, i: nat, p: Position, j: nat)
    requires At(b, i, EncPosition(p)) && j == i + |EncPosition(p)|
    ensures DecPosition(b, i) == Some((p, j))
  {
    PositionRoundTrip(b[..i], p, b[i + 4..]);
    Split(b, i, EncPosition(p));
  }

  lemma PlayerAt(b: seq<u8>, i: nat, p: Player, j: nat)
    requires Fits(p.name) && Fits(p.address) && At(b, i, EncPlayer(p)) && j == i + |EncPlayer(p)|
    ensures DecPlayer(b, i) == Some((p, j))
  {
    PlayerRoundTrip(b[..i], p, b[i + |EncPlayer(p)|..]);
    Split(b, i, EncPlayer(p));
  }

  // ------------------------------------------------ sizes

  lemma {:induction false} SubsetSize(a: set<int>, b: set<int>)
    requires a <= b
    ensures |a| <= |b|
    decreases |b|
  {
    if b != {} {
      var x := Pick(b);
      if x in a { SubsetSize(a - {x}, b - {x}); } else { SubsetSize(a, b - {x}); }
    }
  }

  /** A map keyed by `uint8_t` ids has at most 256 entries, so `EncCount` writes its size
      exactly. */
  lemma IdMapSize<V>(m: map<PlayerId, V>)
    ensures |m| <= 0x100
  {
    SubsetSize(m.Keys, Below(0x100));
  }

  /** A size below 2^32 is written by `EncCount` unchanged. */
  lemma CountAt(b: seq<u8>, i: nat, n: nat, body: seq<u8>, j: nat)
    requires n < 0x1_0000_0000 && At(b, i, EncCount(n) + body) && j == i + 4
    ensures DecU32(b, i) == Some((n, j)) && At(b, j, body)
  {
    AtSplit(b, i, j, EncU32(n), body);
    U32At(b, i, n, j);
  }

  // ------------------------------------------------ one more round

  lemma {:induction false} IdItemsSnoc(b: seq<u8>, i: nat, n: nat, acc: seq<PlayerId>, a: seq<PlayerId>, j: nat)
    requires DecIdItems(b, i, n, acc) == Some((a, j))
    ensures DecIdItems(b, i, n + 1, acc) == AppendId(b, j, a)
    decreases n
  {
    if n > 0 {
      var (next, k) := AppendId(b, i, acc).value;
      IdItemsSnoc(b, k, n - 1, next, a, j);
    }
  }

  lemma {:induction false} PositionItemsSnoc(b: seq<u8>, i: nat, n: nat, acc: seq<Position>, a: seq<Position>, j: nat)
    requires DecPositionItems(b, i, n, acc) == Some((a, j))
    ensures DecPositionItems(b, i, n + 1, acc) == AppendPosition(b, j, a)
    decreases n
  {
    if n > 0 {
      var (next, k) := AppendPosition(b, i, acc).value;
      PositionItemsSnoc(b, k, n - 1, next, a, j);
    }
  }

  lemma {:induction false} EventItemsSnoc(b: seq<u8>, i: nat, n: nat, acc: seq<ClientEvent>, timer: u16, a: seq<ClientEvent>, j: nat)
    requires DecEventItems(b, i, n, acc, timer) == Some((a, j))
    ensures DecEventItems(b, i, n + 1, acc, timer) == AppendEvent(b, j, a, timer)
    decreases n
  {
    if n > 0 {
      var (next, k) := AppendEvent(b, i, acc, timer).value;
      EventItemsSnoc(b, k, n - 1, next, timer, a, j);
    }
  }

  lemma {:induction false} PlayerEntriesSnoc(b: seq<u8>, i: nat, n: nat, acc: map<PlayerId, Player>, a: map<PlayerId, Player>, j: nat)
    requires DecPlayerEntries(b, i, n, acc) == Some((a, j))
    ensures DecPlayerEntries(b, i, n + 1, acc) == AddPlayerEntry(b, j, a)
    decreases n
  {
    if n > 0 {
      var (next, k) := AddPlayerEntry(b, i, acc).value;
      PlayerEntriesSnoc(b, k, n - 1, next, a, j);
    }
  }

  lemma {:induction false} ScoreEntriesSnoc(b: seq<u8>, i: nat, n: nat, acc: map<PlayerId, Score>, a: map<PlayerId, Score>, j: nat)
    requires DecScoreEntries(b, i, n, acc) == Some((a, j))
    ensures DecScoreEntries(b, i, n + 1, acc) == AddScoreEntry(b, j, a)
    decreases n
  {
    if n > 0 {
      var (next, k) := AddScoreEntry(b, i, acc).value;
      ScoreEntriesSnoc(b, k, n - 1, next, a, j);
    }
  }

  // ------------------------------------------------ lists

  lemma {:induction false} IdItemsAt(b: seq<u8>, i: nat, l: seq<PlayerId>, acc: seq<PlayerId>, j: nat)
    requires At(b, i, EncIdItems(l)) && j == i + |EncIdItems(l)|
    ensures DecIdItems(b, i, |l|, acc) == Some((acc + l, j))
    decreases |l|
  {
    if l == [] {
      assert acc + l == acc;
    } else {
      var init, x := l[..|l| - 1], l[|l| - 1];
      var items := EncIdItems(init);
      var k := i + |items|;
      assert EncIdItems(l) == items + EncU8(x);
      AtSplit(b, i, k, items, EncU8(x));
      IdItemsAt(b, i, init, acc, k);
      U8At(b, k, x, j);
      IdItemsSnoc(b, i, |init|, acc, acc + init, k);
      assert acc + init + [x] == acc + l;
    }
  }

  /** `receive(std::list<player_id_t>&)` reads back what `send` wrote for the list. */
  lemma IdListAt(b: seq<u8>, i: nat, l: seq<PlayerId>, j: nat)
    requires |l| < 0x1_0000_0000 && At(b, i, EncIdList(l)) && j == i + |EncIdList(l)|
    ensures DecIdList(b, i) == Some((l, j))
  {
    var k := i + 4;
    CountAt(b, i, |l|, EncIdItems(l), k);
    IdItemsAt(b, k, l, [], j);
    assert [] + l == l;
  }

  lemma {:induction false} PositionItemsAt(b: seq<u8>, i: nat, l: seq<Position>, acc: seq<Position>, j: nat)
    requires At(b, i, EncPositionItems(l)) && j == i + |EncPositionItems(l)|
    ensures DecPositionItems(b, i, |l|, acc) == Some((acc + l, j))
    decreases |l|
  {
    if l == [] {
      assert acc + l == acc;
    } else {
      var init, x := l[..|l| - 1], l[|l| - 1];
      var items := EncPositionItems(init);
      var k := i + |items|;
      assert EncPositionItems(l) == items + EncPosition(x);
      AtSplit(b, i, k, items, EncPosition(x));
      PositionItemsAt(b, i, init, acc, k);
      PositionAt(b, k, x, j);
      PositionItemsSnoc(b, i, |init|, acc, acc + init, k);
      assert acc + init + [x] == acc + l;
    }
  }

  /** `receive(std::list<Position>&)` reads back what `send` wrote for the list. */
  lemma PositionListAt(b: seq<u8>, i: nat, l: seq<Position>, j: nat)
    requires |l| < 0x1_0000_0000 && At(b, i, EncPositionList(l)) && j == i + |EncPositionList(l)|
    ensures DecPositionList(b, i) == Some((l, j))
  {
    var k := i + 4;
    CountAt(b, i, |l|, EncPositionItems(l), k);
    PositionItemsAt(b, k, l, [], j);
    assert [] + l == l;
  }

  // ------------------------------------------------ events

  /** The event the client builds from the one the server sent. */
  function ToClient(e: Event, timer: u16): (c: ClientEvent)
    requires Consistent(e)
  {
    match e.item
    case BombPlaced(id, pos) => CBombPlaced(id, pos, timer)
    case BombExploded(id, robots, blocks) => CBombExploded(id, robots, blocks)
    case PlayerMoved(id, pos) => CPlayerMoved(id, pos)
    case BlockPlaced(pos) => CBlockPlaced(pos)
  }

  /** The first `n` events of a list as the client builds them. */
  function ToClientAll(l: seq<Event>, n: nat, timer: u16): (r: seq<ClientEvent>)
    requires AllConsistent(l) && n <= |l|
    ensures |r| == n
    ensures forall i | 0 <= i < n :: r[i] == ToClient(l[i], timer)
  {
    if n == 0 then [] else ToClientAll(l, n - 1, timer) + [ToClient(l[n - 1], timer)]
  }

  /** The sizes an event writes fit in their `uint32_t` counts. */
  predicate EventFits(e: Event) {
    e.item.BombExploded? ==> |e.item.robotsDestroyed| < 0x1_0000_0000 && |e.item.blocksDestroyed| < 0x1_0000_0000
  }

  predicate AllEventsFit(l: seq<Event>) {
    forall i | 0 <= i < |l| :: EventFits(l[i])
  }

  lemma BombPlacedAt(b: seq<u8>, i: nat, e: Event, timer: u16, j: nat)
    requires Consistent(e) && e.item.BombPlaced? && At(b, i, EncEvent(e)) && j == i + |EncEvent(e)|
    ensures DecEvent(b, i, timer) == Some((Some(ToClient(e, timer)), j))
  {
    var s0, s1, s2 := EncU8(0), EncU32(e.item.bombId), EncPosition(e.item.position);
    var i1, i2 := i + 1, i + 5;
    AtSplit(b, i, i2, s0 + s1, s2);
    AtSplit(b, i, i1, s0, s1);
    U8At(b, i, 0, i1);
    U32At(b, i1, e.item.bombId, i2);
    PositionAt(b, i2, e.item.position, j);
  }

  lemma BombExplodedAt(b: seq<u8>, i: nat, e: Event, timer: u16, j: nat)
    requires Consistent(e) && e.item.BombExploded? && EventFits(e)
    requires At(b, i, EncEvent(e)) && j == i + |EncEvent(e)|
    ensures DecEvent(b, i, timer) == Some((Some(ToClient(e, timer)), j))
  {
    var s0, s1 := EncU8(1), EncU32(e.item.bombId);
    var s2, s3 := EncIdList(e.item.robotsDestroyed), EncPositionList(e.item.blocksDestroyed);
    var i1, i2 := i + 1, i + 5;
    var i3 := i2 + |s2|;
    AtSplit(b, i, i3, s0 + s1 + s2, s3);
    AtSplit(b, i, i2, s0 + s1, s2);
    AtSplit(b, i, i1, s0, s1);
    U8At(b, i, 1, i1);
    U32At(b, i1, e.item.bombId, i2);
    IdListAt(b, i2, e.item.robotsDestroyed, i3);
    PositionListAt(b, i3, e.item.blocksDestroyed, j);
  }

  lemma PlayerMovedAt(b: seq<u8>, i: nat, e: Event, timer: u16, j: nat)
    requires Consistent(e) && e.item.PlayerMoved? && At(b, i, EncEvent(e)) && j == i + |EncEvent(e)|
    ensures DecEvent(b, i, timer) == Some((Some(ToClient(e, timer)), j))
  {
    var s0, s1, s2 := EncU8(2), EncU8(e.item.playerId), EncPosition(e.item.position);
    var i1, i2 := i + 1, i + 2;
    AtSplit(b, i, i2, s0 + s1, s2);
    AtSplit(b, i, i1, s0, s1);
    U8At(b, i, 2, i1);
    U8At(b, i1, e.item.playerId, i2);
    PositionAt(b, i2, e.item.position, j);
  }

  lemma BlockPlacedAt(b: seq<u8>, i: nat, e: Event, timer: u16, j: nat)
    requires Consistent(e) && e.item.BlockPlaced? && At(b, i, EncEvent(e)) && j == i + |EncEvent(e)|
    ensures DecEvent(b, i, timer) == Some((Some(ToClient(e, timer)), j))
  {
    var s0, s1 := EncU8(3), EncPosition(e.item.position);
    var i1 := i + 1;
    AtSplit(b, i, i1, s0, s1);
    U8At(b, i, 3, i1);
    PositionAt(b, i1, e.item.position, j);
  }

  /** The client reads an event back as the event the server sent, with the bomb timer
      it holds filled in for a BombPlaced. */
  lemma EventAt(b: seq<u8>, i: nat, e: Event, timer: u16, j: nat)
    requires Consistent(e) && EventFits(e) && At(b, i, EncEvent(e)) && j == i + |EncEvent(e)|
    ensures DecEvent(b, i, timer) == Some((Some(ToClient(e, timer)), j))
  {
    match e.item
    case BombPlaced(_, _) => BombPlacedAt(b, i, e, timer, j);
    case BombExploded(_, _, _) => BombExplodedAt(b, i, e, timer, j);
    case PlayerMoved(_, _) => PlayerMovedAt(b, i, e, timer, j);
    case BlockPlaced(_) => BlockPlacedAt(b, i, e, timer, j);
  }

  lemma {:induction false} EventItemsAt(b: seq<u8>, i: nat, l: seq<Event>, n: nat, acc: seq<ClientEvent>, timer: u16, j: nat)
    requires AllConsistent(l) && AllEventsFit(l) && n <= |l|
    requires At(b, i, EncEventItems(l, n)) && j == i + |EncEventItems(l, n)|
    ensures DecEventItems(b, i, n, acc, timer) == Some((acc + ToClientAll(l, n, timer), j))
  {
    if n == 0 {
      assert acc + ToClientAll(l, n, timer) == acc;
    } else {
      var m := n - 1;
      var k := i + |EncEventItems(l, m)|;
      EventItemsSplit(b, i, l, m, n, k, j);
      EventItemsAt(b, i, l, m, acc, timer, k);
      EventAt(b, k, l[m], timer, j);
      EventItemsStep(b, i, l, m, n, acc, timer, k, j);
    }
  }

  lemma EventItemsSplit(b: seq<u8>, i: nat, l: seq<Event>, m: nat, n: nat, k: nat, j: nat)
    requires AllConsistent(l) && m < |l| && n == m + 1
    requires At(b, i, EncEventItems(l, n)) && j == i + |EncEventItems(l, n)|
    requires k == i + |EncEventItems(l, m)|
    ensures At(b, i, EncEventItems(l, m)) && At(b, k, EncEvent(l[m])) && j == k + |EncEvent(l[m])|
  {
    assert EncEventItems(l, n) == EncEventItems(l, m) + EncEvent(l[m]);
    AtSplit(b, i, k, EncEventItems(l, m), EncEvent(l[m]));
  }

  lemma EventItemsStep(b: seq<u8>, i: nat, l: seq<Event>, m: nat, n: nat, acc: seq<ClientEvent>, timer: u16, k: nat, j: nat)
    requires AllConsistent(l) && m < |l| && n == m + 1
    requires DecEventItems(b, i, m, acc, timer) == Some((acc + ToClientAll(l, m, timer), k))
    requires DecEvent(b, k, timer) == Some((Some(ToClient(l[m], timer)), j))
    ensures DecEventItems(b, i, n, acc, timer) == Some((acc + ToClientAll(l, n, timer), j))
  {
    var init := ToClientAll(l, m, timer);
    EventItemsSnoc(b, i, m, acc, timer, acc + init, k);
    assert acc + init + [ToClient(l[m], timer)] == acc + ToClientAll(l, n, timer);
  }

  /** `receive(std::list<std::shared_ptr<Event>>&)` reads back the events `send` wrote. */
  lemma EventListAt(b: seq<u8>, i: nat, l: seq<Event>, timer: u16, j: nat)
    requires AllConsistent(l) && AllEventsFit(l) && |l| < 0x1_0000_0000
    requires At(b, i, EncEventList(l)) && j == i + |EncEventList(l)|
    ensures DecEventList(b, i, timer) == Some((ToClientAll(l, |l|, timer), j))
  {
    var k := i + 4;
    var r := ToClientAll(l, |l|, timer);
    CountAt(b, i, |l|, EncEventItems(l, |l|), k);
    EventItemsAt(b, k, l, |l|, [], timer, j);
    assert [] + r == r;
  }

  // ------------------------------------------------ maps

  /** The entries of `m` whose keys occur in `keys`. */
  function MapOf<V>(m: map<PlayerId, V>, keys: seq<int>): (r: map<PlayerId, V>)
    ensures forall k :: k in r <==> k in m && k in keys
    ensures forall k | k in r :: r[k] == m[k]
  {
    map k | k in m.Keys && k in keys :: m[k]
  }

  /** Read in ascending order, the keys of `m` give back all of `m`. */
  lemma MapOfAll<V>(m: map<PlayerId, V>)
    ensures MapOf(m, Ascending(m.Keys)) == m
  {
    var r := MapOf(m, Ascending(m.Keys));
    assert r.Keys == m.Keys;
  }

  /** `insert` of the entry of the last key extends the part of `m` read so far,
      whether or not the key was there: a value already stored came from `m` too. */
  lemma InsertExtends<V>(m: map<PlayerId, V>, keys: seq<int>)
    requires forall i | 0 <= i < |keys| :: keys[i] in m
    requires keys != []
    ensures var k: PlayerId := keys[|keys| - 1];
      Insert(MapOf(m, keys[..|keys| - 1]), k, m[k]) == MapOf(m, keys)
  {
    var init := keys[..|keys| - 1];
    var k: PlayerId := keys[|keys| - 1];
    var a, c := Insert(MapOf(m, init), k, m[k]), MapOf(m, keys);
    forall x: PlayerId ensures x in a <==> x in c {
      if x in keys && x != k {
        var i :| 0 <= i < |keys| && keys[i] == x;
        assert init[i] == x;
      }
    }
    assert a.Keys == c.Keys;
  }

  predicate PlayersFit(m: map<PlayerId, Player>) {
    forall k | k in m :: Fits(m[k].name) && Fits(m[k].address)
  }

  lemma {:induction false} PlayerEntriesAt(b: seq<u8>, i: nat, m: map<PlayerId, Player>, keys: seq<int>, j: nat)
    requires forall t | 0 <= t < |keys| :: keys[t] in m
    requires PlayersFit(m) && At(b, i, EncPlayerEntries(m, keys)) && j == i + |EncPlayerEntries(m, keys)|
    ensures DecPlayerEntries(b, i, |keys|, map[]) == Some((MapOf(m, keys), j))
    decreases |keys|
  {
    if keys == [] {
      assert MapOf(m, keys) == map[];
    } else {
      var init := keys[..|keys| - 1];
      var k: PlayerId := keys[|keys| - 1];
      var items := EncPlayerEntries(m, init);
      var i1 := i + |items|;
      var i2 := i1 + 1;
      assert EncPlayerEntries(m, keys) == items + EncU8(k) + EncPlayer(m[k]);
      AtSplit(b, i, i2, items + EncU8(k), EncPlayer(m[k]));
      AtSplit(b, i, i1, items, EncU8(k));
      PlayerEntriesAt(b, i, m, init, i1);
      U8At(b, i1, k, i2);
      PlayerAt(b, i2, m[k], j);
      PlayerEntriesSnoc(b, i, |init|, map[], MapOf(m, init), i1);
      InsertExtends(m, keys);
    }
  }

  /** `receive(std::map<player_id_t, Player>&)` reads back the map `send` wrote. */
  lemma PlayerMapAt(b: seq<u8>, i: nat, m: map<PlayerId, Player>, j: nat)
    requires PlayersFit(m) && At(b, i, EncPlayerMap(m)) && j == i + |EncPlayerMap(m)|
    ensures DecPlayerMap(b, i) == Some((m, j))
  {
    var k := i + 4;
    IdMapSize(m);
    CountAt(b, i, |m|, EncPlayerEntries(m, Ascending(m.Keys)), k);
    PlayerEntriesAt(b, k, m, Ascending(m.Keys), j);
    MapOfAll(m);
  }

  lemma {:induction false} ScoreEntriesAt(b: seq<u8>, i: nat, m: map<PlayerId, Score>, keys: seq<int>, j: nat)
    requires forall t | 0 <= t < |keys| :: keys[t] in m
    requires At(b, i, EncScoreEntries(m, keys)) && j == i + |EncScoreEntries(m, keys)|
    ensures DecScoreEntries(b, i, |keys|, map[]) == Some((MapOf(m, keys), j))
    decreases |keys|
  {
    if keys == [] {
      assert MapOf(m, keys) == map[];
    } else {
      var init := keys[..|keys| - 1];
      var k: PlayerId := keys[|keys| - 1];
      var items := EncScoreEntries(m, init);
      var i1 := i + |items|;
      var i2 := i1 + 1;
      assert EncScoreEntries(m, keys) == items + EncU8(k) + EncU32(m[k]);
      AtSplit(b, i, i2, items + EncU8(k), EncU32(m[k]));
      AtSplit(b, i, i1, items, EncU8(k));
      ScoreEntriesAt(b, i, m, init, i1);
      U8At(b, i1, k, i2);
      U32At(b, i2, m[k], j);
      ScoreEntriesSnoc(b, i, |init|, map[], MapOf(m, init), i1);
      InsertExtends(m, keys);
    }
  }

  /** `receive(std::map<player_id_t, score_t>&)` reads back the scores `send` wrote. */
  lemma ScoreMapAt(b: seq<u8>, i: nat, m: map<PlayerId, Score>, j: nat)
    requires At(b, i, EncScoreMap(m)) && j == i + |EncScoreMap(m)|
    ensures DecScoreMap(b, i) == Some((m, j))
  {
    var k := i + 4;
    IdMapSize(m);
    CountAt(b, i, |m|, EncScoreEntries(m, Ascending(m.Keys)), k);
    ScoreEntriesAt(b, k, m, Ascending(m.Keys), j);
    MapOfAll(m);
  }
}
