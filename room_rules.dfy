/** The rules the room applies to a `GameStatus` (GameRoom.cpp), stated as functions of
    values: the random generator, the three kinds of pending move, the bomb timers, the
    four explosion rays and the draws that set up a round. The `Room` class in module
    GameRoom performs the same steps in place and is proved against these functions. */
module RoomRules {
  import opened Collections
  import opened GameTypes

  // ------------------------------------------------------------ random numbers

  /** The multiplier and modulus of the generator (`Q` and `MOD`). */
  const Q: int := 48271
  const MOD: int := 2147483647

  /** `random()` as written: the product is formed in 64 bits, reduced modulo `MOD` and
      narrowed to 32 bits. */
  function NextRandom(s: u32): u32 {
    s * 48271 % 0x1_0000_0000_0000_0000 % 2147483647 % 0x1_0000_0000
  }

  /** Neither the 64-bit product nor the narrowing loses a bit: the generator is the
      Lehmer generator `s * 48271 mod (2^31 - 1)`. */
  lemma NextRandomIsLehmer(s: u32)
    ensures s * Q < 0x1_0000_0000_0000_0000
    ensures NextRandom(s) == s * Q % MOD && NextRandom(s) < MOD
  {
    assert s * Q <= 0xFFFF_FFFF * Q by {
      assert s <= 0xFFFF_FFFF;
    }
  }

  lemma NextRandomFromSmallSeeds()
    ensures NextRandom(1) == 48271
    ensures NextRandom(0) == 0
  {
  }

  // ------------------------------------------------------------ the board

  predicate OnBoard(p: Position, sizeX: int, sizeY: int) {
    p.x < sizeX && p.y < sizeY
  }

  predicate AllOnBoard(ps: seq<Position>, sizeX: int, sizeY: int) {
    forall i | 0 <= i < |ps| :: OnBoard(ps[i], sizeX, sizeY)
  }

  /** `turns[turn]` as `operator[]` reads it: empty when the turn has no entry yet. */
  function Log(st: GameStatus): seq<Event> {
    if st.turn in st.turns then st.turns[st.turn] else []
  }

  /** `turns[turn].emplace_back(e)`. */
  function Record(st: GameStatus, e: Event): (r: GameStatus)
    ensures Log(r) == Log(st) + [e]
    ensures forall t :: t in r.turns <==> t == st.turn || t in st.turns
    ensures forall t | t in st.turns && t != st.turn :: r.turns[t] == st.turns[t]
    ensures r == st.(turns := r.turns)
  {
    st.(turns := st.turns[st.turn := Log(st) + [e]])
  }

  /** `player_positions[id]` creates the entry `{0, 0}` for an id it has not seen. */
  function Touch(st: GameStatus, id: PlayerId): (r: GameStatus)
    ensures id in r.positions
    ensures id in st.positions ==> r == st
    ensures id !in st.positions ==> r.positions[id] == Position(0, 0)
    ensures forall q :: q in r.positions <==> q == id || q in st.positions
    ensures forall q | q in st.positions :: r.positions[q] == st.positions[q]
    ensures r == st.(positions := r.positions)
  {
    if id in st.positions then st else st.(positions := st.positions[id := Position(0, 0)])
  }

  // ------------------------------------------------------------ pending moves

  /** `resolve_place_bomb`: the bomb `bombId` goes on the player's tile unless a bomb with
      that id already exists, and BombPlaced is logged either way. */
  function PlaceBombOn(st: GameStatus, id: PlayerId, bombId: BombId, timer: u16): GameStatus {
    var t := Touch(st, id);
    var p := t.positions[id];
    var u := if bombId in t.bombs then t else t.(bombs := t.bombs[bombId := Bomb(bombId, p, timer)]);
    Record(u, MakeEvent(BombPlaced(bombId, p)))
  }

  /** `resolve_place_block`: only a tile that is already a block gets (another) block. */
  function PlaceBlockOn(st: GameStatus, id: PlayerId): GameStatus {
    var t := Touch(st, id);
    var p := t.positions[id];
    if p in t.blocks then Record(t.(blocks := t.blocks + [p]), MakeEvent(BlockPlaced(p))) else t
  }

  /** `++` on `uint16_t`: 65535 wraps to 0. */
  function Inc16(v: u16): (r: u16)
    ensures r == (v + 1) % 0x1_0000
  {
    if v == 0xFFFF then 0 else v + 1
  }

  /** The tile `resolve_move` heads for, or `None` at the edge it would cross. Up and Right
      add one (on 16 bits), Down and Left subtract one; a byte above 3 matches no case of
      the `switch` and leaves the tile as it is. */
  function MoveTarget(p: Position, dir: u8, sizeX: u16, sizeY: u16): Option<Position> {
    if dir == 0 then (if p.y == sizeY - 1 then None else Some(p.(y := Inc16(p.y))))
    else if dir == 1 then (if p.x == sizeX - 1 then None else Some(p.(x := Inc16(p.x))))
    else if dir == 2 then (if p.y == 0 then None else Some(p.(y := p.y - 1)))
    else if dir == 3 then (if p.x == 0 then None else Some(p.(x := p.x - 1)))
    else Some(p)
  }

  /** The edge a robot on `p` cannot cross in direction `dir`. */
  predicate AtEdge(p: Position, dir: u8, sizeX: int, sizeY: int) {
    (dir == 0 && p.y == sizeY - 1) || (dir == 1 && p.x == sizeX - 1)
    || (dir == 2 && p.y == 0) || (dir == 3 && p.x == 0)
  }

  /** From a tile on the board a move stays on the board, goes one step in the direction the
      enumerator names, and is refused exactly at the matching edge. */
  lemma MoveTargetFacts(p: Position, dir: u8, sizeX: u16, sizeY: u16)
    requires OnBoard(p, sizeX, sizeY)
    ensures var t := MoveTarget(p, dir, sizeX, sizeY);
      && (t.None? <==> AtEdge(p, dir, sizeX, sizeY))
      && (t.Some? ==> OnBoard(t.value, sizeX, sizeY))
      && (dir > 3 ==> t == Some(p))
      && (t.Some? && DirectionOf(dir) == Some(Up) ==> t.value == Position(p.x, p.y + 1))
      && (t.Some? && DirectionOf(dir) == Some(Right) ==> t.value == Position(p.x + 1, p.y))
      && (t.Some? && DirectionOf(dir) == Some(Down) ==> t.value == Position(p.x, p.y - 1))
      && (t.Some? && DirectionOf(dir) == Some(Left) ==> t.value == Position(p.x - 1, p.y))
  {
  }

  /** `resolve_move`: a refused move or a block in the way changes nothing but the position
      entry `operator[]` creates; otherwise the robot moves and PlayerMoved is logged. */
  function MoveOn(st: GameStatus, id: PlayerId, dir: u8, sizeX: u16, sizeY: u16): GameStatus {
    var t := Touch(st, id);
    match MoveTarget(t.positions[id], dir, sizeX, sizeY)
    case None => t
    case Some(q) =>
      if q in t.blocks then t
      else Record(t.(positions := t.positions[id := q]), MakeEvent(PlayerMoved(id, q)))
  }

  /** The pending move of one player, dispatched on its message id. */
  function ResolveOn(st: GameStatus, id: PlayerId, m: PendingMove, p: ServerParams, nextBomb: BombId): GameStatus {
    match m
    case PlaceBomb => PlaceBombOn(st, id, nextBomb, p.bombTimer)
    case PlaceBlock => PlaceBlockOn(st, id)
    case Move(dir) => MoveOn(st, id, dir, p.sizeX, p.sizeY)
  }

  /** `resolve_place_bomb` logs exactly one BombPlaced, carrying `bombId` and the player's
      tile; it adds the bomb only when no bomb with that id exists, and changes nothing else
      besides the position entry `operator[]` may create. */
  lemma PlaceBombFacts(st: GameStatus, id: PlayerId, bombId: BombId, timer: u16)
    ensures var t := Touch(st, id);
            var r := PlaceBombOn(st, id, bombId, timer);
      && Log(r) == Log(st) + [MakeEvent(BombPlaced(bombId, t.positions[id]))]
      && (bombId in st.bombs ==> r.bombs == st.bombs)
      && (bombId !in st.bombs ==> r.bombs == st.bombs[bombId := Bomb(bombId, t.positions[id], timer)])
      && r == t.(bombs := r.bombs, turns := r.turns)
  {
  }

  /** `resolve_place_block` changes the blocks only when the player's tile already is one:
      then that tile is appended a second time and BlockPlaced is logged. */
  lemma PlaceBlockFacts(st: GameStatus, id: PlayerId)
    ensures var t := Touch(st, id);
            var tile := t.positions[id];
            var r := PlaceBlockOn(st, id);
      && (tile in st.blocks ==> r.blocks == st.blocks + [tile] && tile in r.blocks[..|st.blocks|]
                                && Log(r) == Log(st) + [MakeEvent(BlockPlaced(tile))]
                                && r == t.(blocks := r.blocks, turns := r.turns))
      && (tile !in st.blocks ==> r == t)
  {
    var t := Touch(st, id);
    var r := PlaceBlockOn(st, id);
    if t.positions[id] in st.blocks {
      assert r.blocks[..|st.blocks|] == st.blocks;
    }
  }

  /** A move that is refused at the edge or blocked changes nothing but the position entry
      `operator[]` may create; any other move puts the robot on the target tile and logs
      PlayerMoved with it. */
  lemma MoveFacts(st: GameStatus, id: PlayerId, dir: u8, sizeX: u16, sizeY: u16)
    ensures var t := Touch(st, id);
            var target := MoveTarget(t.positions[id], dir, sizeX, sizeY);
            var r := MoveOn(st, id, dir, sizeX, sizeY);
      && (target.None? || target.value in st.blocks ==> r == t)
      && (target.Some? && target.value !in st.blocks ==>
            && r.positions == t.positions[id := target.value]
            && Log(r) == Log(st) + [MakeEvent(PlayerMoved(id, target.value))]
            && r == t.(positions := r.positions, turns := r.turns))
  {
  }

  /** What the room keeps true of its status while a round runs: robots, bombs and blocks
      are on the board, the only bomb id is 0 (`_next_bomb` never moves), no score is ever
      written, and every logged event pairs its tag and alternative. */
  predicate StatusOk(st: GameStatus, p: ServerParams) {
    && p.sizeX > 0 && p.sizeY > 0
    && PiecesOnBoard(st, p)
    && st.scores == map[]
    && LogsConsistent(st)
  }

  /** Robots, bombs and blocks are on the board, and the only bomb is bomb 0. */
  predicate PiecesOnBoard(st: GameStatus, p: ServerParams) {
    && (forall q | q in st.positions :: OnBoard(st.positions[q], p.sizeX, p.sizeY))
    && (forall b | b in st.bombs :: b == 0 && st.bombs[b].bombId == b
                                    && OnBoard(st.bombs[b].position, p.sizeX, p.sizeY))
    && AllOnBoard(st.blocks, p.sizeX, p.sizeY)
  }

  /** The events every room function logs pair their tag and alternative. */
  predicate LogsConsistent(st: GameStatus) {
    forall t | t in st.turns :: AllConsistent(st.turns[t])
  }

  lemma RecordKeepsConsistent(st: GameStatus, e: Event)
    requires LogsConsistent(st) && Consistent(e)
    ensures LogsConsistent(Record(st, e))
  {
    var r := Record(st, e);
    forall t | t in r.turns ensures AllConsistent(r.turns[t]) {
      if t == st.turn {
        assert r.turns[t] == Log(st) + [e];
      }
    }
  }

  /** The entry `operator[]` creates is `{0, 0}`, which is on every non-empty board. */
  lemma TouchKeepsOk(st: GameStatus, id: PlayerId, p: ServerParams)
    requires StatusOk(st, p)
    ensures StatusOk(Touch(st, id), p)
  {
  }

  lemma PlaceBombKeepsOk(st: GameStatus, id: PlayerId, p: ServerParams)
    requires StatusOk(st, p)
    ensures StatusOk(PlaceBombOn(st, id, 0, p.bombTimer), p)
  {
    TouchKeepsOk(st, id, p);
    var t := Touch(st, id);
    var tile := t.positions[id];
    var u := if 0 in t.bombs then t else t.(bombs := t.bombs[0 := Bomb(0, tile, p.bombTimer)]);
    assert StatusOk(u, p);
    RecordKeepsConsistent(u, MakeEvent(BombPlaced(0, tile)));
  }

  lemma PlaceBlockKeepsOk(st: GameStatus, id: PlayerId, p: ServerParams)
    requires StatusOk(st, p)
    ensures StatusOk(PlaceBlockOn(st, id), p)
  {
    TouchKeepsOk(st, id, p);
    var t := Touch(st, id);
    var tile := t.positions[id];
    if tile in t.blocks {
      var u := t.(blocks := t.blocks + [tile]);
      assert AllOnBoard(u.blocks, p.sizeX, p.sizeY);
      RecordKeepsConsistent(u, MakeEvent(BlockPlaced(tile)));
    }
  }

  lemma MoveKeepsOk(st: GameStatus, id: PlayerId, dir: u8, p: ServerParams)
    requires StatusOk(st, p)
    ensures StatusOk(MoveOn(st, id, dir, p.sizeX, p.sizeY), p)
  {
    TouchKeepsOk(st, id, p);
    var t := Touch(st, id);
    var tile := t.positions[id];
    MoveTargetFacts(tile, dir, p.sizeX, p.sizeY);
    match MoveTarget(tile, dir, p.sizeX, p.sizeY)
    case None =>
    case Some(q) =>
      if q !in t.blocks {
        var u := t.(positions := t.positions[id := q]);
        assert StatusOk(u, p);
        RecordKeepsConsistent(u, MakeEvent(PlayerMoved(id, q)));
      }
  }

  /** Resolving a pending move of any kind keeps `StatusOk`. */
  lemma ResolveOnKeepsOk(st: GameStatus, id: PlayerId, m: PendingMove, p: ServerParams)
    requires StatusOk(st, p)
    ensures StatusOk(ResolveOn(st, id, m, p, 0), p)
  {
    match m
    case PlaceBomb => PlaceBombKeepsOk(st, id, p);
    case PlaceBlock => PlaceBlockKeepsOk(st, id, p);
    case Move(dir) => MoveKeepsOk(st, id, dir, p);
  }

  /** `r` only adds to `st`: bombs already placed keep their entry and at most the bomb
      `nextBomb` is new, blocks are appended, position entries may appear and events are
      appended to the current turn's log; players, scores, the turn and the other turns'
      logs stay. */
  predicate Extends(st: GameStatus, r: GameStatus, nextBomb: BombId) {
    && r.turn == st.turn && r.players == st.players && r.scores == st.scores
    && PiecesKept(st, r, nextBomb)
    && LogKept(st, r)
  }

  /** Bombs are kept, at most `nextBomb` added, blocks appended, robots kept. */
  predicate PiecesKept(st: GameStatus, r: GameStatus, nextBomb: BombId) {
    && BombsKept(st.bombs, r.bombs, nextBomb)
    && IsPrefix(st.blocks, r.blocks)
    && st.positions.Keys <= r.positions.Keys
  }

  /** Every bomb of `a` is in `b` unchanged, and `b` adds at most the bomb `nextBomb`. */
  predicate BombsKept(a: map<BombId, Bomb>, b: map<BombId, Bomb>, nextBomb: BombId) {
    && (forall k | k in a :: k in b && b[k] == a[k])
    && (forall k | k in b :: k in a || k == nextBomb)
  }

  predicate IsPrefix<T(==)>(a: seq<T>, b: seq<T>) {
    |a| <= |b| && b[..|a|] == a
  }

  /** The current turn's log of `r` extends that of `st`; the other turns' logs stay. */
  predicate LogKept(st: GameStatus, r: GameStatus) {
    && IsPrefix(Log(st), Log(r))
    && (forall t | t in st.turns && t != st.turn :: t in r.turns && r.turns[t] == st.turns[t])
  }

  lemma ExtendsTransitive(a: GameStatus, b: GameStatus, c: GameStatus, nextBomb: BombId)
    requires Extends(a, b, nextBomb) && Extends(b, c, nextBomb)
    ensures Extends(a, c, nextBomb)
  {
    assert c.blocks[..|a.blocks|] == c.blocks[..|b.blocks|][..|a.blocks|];
    assert Log(c)[..|Log(a)|] == Log(c)[..|Log(b)|][..|Log(a)|];
  }

  lemma TouchExtends(st: GameStatus, id: PlayerId, nextBomb: BombId)
    ensures Extends(st, Touch(st, id), nextBomb)
  {
    assert st.blocks[..|st.blocks|] == st.blocks;
    assert Log(st)[..|Log(st)|] == Log(st);
  }

  lemma RecordExtends(st: GameStatus, e: Event, nextBomb: BombId)
    ensures Extends(st, Record(st, e), nextBomb)
  {
    assert st.blocks[..|st.blocks|] == st.blocks;
    assert (Log(st) + [e])[..|Log(st)|] == Log(st);
  }

  lemma PlaceBombExtends(st: GameStatus, id: PlayerId, nextBomb: BombId, timer: u16)
    ensures Extends(st, PlaceBombOn(st, id, nextBomb, timer), nextBomb)
  {
    var t := Touch(st, id);
    TouchExtends(st, id, nextBomb);
    var tile := t.positions[id];
    var u := if nextBomb in t.bombs then t else t.(bombs := t.bombs[nextBomb := Bomb(nextBomb, tile, timer)]);
    assert Extends(t, u, nextBomb) by {
      assert t.blocks[..|t.blocks|] == t.blocks;
      assert Log(t)[..|Log(t)|] == Log(t);
    }
    RecordExtends(u, MakeEvent(BombPlaced(nextBomb, tile)), nextBomb);
    ExtendsTransitive(t, u, Record(u, MakeEvent(BombPlaced(nextBomb, tile))), nextBomb);
    ExtendsTransitive(st, t, PlaceBombOn(st, id, nextBomb, timer), nextBomb);
  }

  lemma PlaceBlockExtends(st: GameStatus, id: PlayerId, nextBomb: BombId)
    ensures Extends(st, PlaceBlockOn(st, id), nextBomb)
  {
    var t := Touch(st, id);
    TouchExtends(st, id, nextBomb);
    var tile := t.positions[id];
    if tile in t.blocks {
      var u := t.(blocks := t.blocks + [tile]);
      assert Extends(t, u, nextBomb) by {
        assert u.blocks[..|t.blocks|] == t.blocks;
        assert Log(t)[..|Log(t)|] == Log(t);
      }
      RecordExtends(u, MakeEvent(BlockPlaced(tile)), nextBomb);
      ExtendsTransitive(t, u, Record(u, MakeEvent(BlockPlaced(tile))), nextBomb);
      ExtendsTransitive(st, t, PlaceBlockOn(st, id), nextBomb);
    }
  }

  lemma MoveExtends(st: GameStatus, id: PlayerId, dir: u8, sizeX: u16, sizeY: u16, nextBomb: BombId)
    ensures Extends(st, MoveOn(st, id, dir, sizeX, sizeY), nextBomb)
  {
    var t := Touch(st, id);
    TouchExtends(st, id, nextBomb);
    match MoveTarget(t.positions[id], dir, sizeX, sizeY)
    case None =>
    case Some(q) =>
      if q !in t.blocks {
        var u := t.(positions := t.positions[id := q]);
        assert Extends(t, u, nextBomb) by {
          assert t.blocks[..|t.blocks|] == t.blocks;
          assert Log(t)[..|Log(t)|] == Log(t);
        }
        RecordExtends(u, MakeEvent(PlayerMoved(id, q)), nextBomb);
        ExtendsTransitive(t, u, Record(u, MakeEvent(PlayerMoved(id, q))), nextBomb);
        ExtendsTransitive(st, t, MoveOn(st, id, dir, sizeX, sizeY), nextBomb);
      }
  }

  /** Resolving a move of any kind only adds to the status. */
  lemma ResolveOnExtends(st: GameStatus, id: PlayerId, m: PendingMove, p: ServerParams, nextBomb: BombId)
    ensures Extends(st, ResolveOn(st, id, m, p, nextBomb), nextBomb)
  {
    match m
    case PlaceBomb => PlaceBombExtends(st, id, nextBomb, p.bombTimer);
    case PlaceBlock => PlaceBlockExtends(st, id, nextBomb);
    case Move(dir) => MoveExtends(st, id, dir, p.sizeX, p.sizeY, nextBomb);
  }

  /** The step of the resolve pass: one pending move, with its player's id, resolved. */
  function Resolver(p: ServerParams, nextBomb: BombId): (GameStatus, (PlayerId, PendingMove)) -> GameStatus {
    (s: GameStatus, m: (PlayerId, PendingMove)) => ResolveOn(s, m.0, m.1, p, nextBomb)
  }

  /** The pending moves `ms`, each with its player's id, resolved against `st` in order. */
  function ResolveAll(st: GameStatus, ms: seq<(PlayerId, PendingMove)>, p: ServerParams, nextBomb: BombId): GameStatus {
    FoldFirst(st, ms, |ms|, Resolver(p, nextBomb))
  }

  /** Resolving pending moves only adds to the status. */
  lemma ResolveAllExtends(st: GameStatus, ms: seq<(PlayerId, PendingMove)>, p: ServerParams, nextBomb: BombId)
    ensures Extends(st, ResolveAll(st, ms, p, nextBomb), nextBomb)
  {
    var f := Resolver(p, nextBomb);
    var inv := (s: GameStatus) => Extends(st, s, nextBomb);
    forall t, i | 0 <= i < |ms| && inv(t) ensures inv(f(t, ms[i])) {
      ResolveOnExtends(t, ms[i].0, ms[i].1, p, nextBomb);
      ExtendsTransitive(st, t, f(t, ms[i]), nextBomb);
    }
    assert st.blocks[..|st.blocks|] == st.blocks;
    assert Log(st)[..|Log(st)|] == Log(st);
    FoldFirstKeeps(st, ms, |ms|, f, inv);
  }

  /** With bomb id 0, resolving pending moves keeps `StatusOk`. */
  lemma ResolveAllKeepsOk(st: GameStatus, ms: seq<(PlayerId, PendingMove)>, p: ServerParams)
    requires StatusOk(st, p)
    ensures StatusOk(ResolveAll(st, ms, p, 0), p)
  {
    var f := Resolver(p, 0);
    var inv := (s: GameStatus) => StatusOk(s, p);
    forall t, i | 0 <= i < |ms| && inv(t) ensures inv(f(t, ms[i])) {
      ResolveOnKeepsOk(t, ms[i].0, ms[i].1, p);
    }
    FoldFirstKeeps(st, ms, |ms|, f, inv);
  }

  // ------------------------------------------------------------ bomb timers

  /** `timer--` on `uint16_t`: zero wraps to 65535. */
  function DecrementTimer(b: Bomb): (r: Bomb)
    ensures r.bombId == b.bombId && r.position == b.position
    ensures b.timer > 0 ==> r.timer == b.timer - 1
    ensures b.timer == 0 ==> r.timer == 0xFFFF
  {
    b.(timer := if b.timer == 0 then 0xFFFF else b.timer - 1)
  }

  /** Every bomb's timer goes down by one; ids and positions stay. */
  function DecrementTimers(bombs: map<BombId, Bomb>): (r: map<BombId, Bomb>)
    ensures forall b :: b in r <==> b in bombs
    ensures forall b | b in r :: r[b] == DecrementTimer(bombs[b])
  {
    map b | b in bombs :: DecrementTimer(bombs[b])
  }

  /** The loop over the ids `ks`, in order: each id of the map has its timer lowered by one
      where it comes; an id not in the map is passed over. */
  function DecrementOnly(bombs: map<BombId, Bomb>, ks: seq<int>): (r: map<BombId, Bomb>)
    ensures forall b :: b in r <==> b in bombs
    decreases |ks|
  {
    if ks == [] then bombs
    else
      var done := DecrementOnly(bombs, ks[..|ks| - 1]);
      var id := ks[|ks| - 1];
      if 0 <= id < 0x1_0000_0000 && id as BombId in done then done[id as BombId := DecrementTimer(done[id as BombId])]
      else done
  }

  /** Lowering the timers of distinct ids one at a time lowers each listed one once and
      leaves the others as they were. */
  lemma {:induction false} DecrementOnlyEach(bombs: map<BombId, Bomb>, ks: seq<int>)
    requires forall i, j | 0 <= i < j < |ks| :: ks[i] < ks[j]
    ensures forall b | b in bombs :: DecrementOnly(bombs, ks)[b] == if b in ks then DecrementTimer(bombs[b]) else bombs[b]
    decreases |ks|
  {
    if ks != [] {
      var front := ks[..|ks| - 1];
      var id := ks[|ks| - 1];
      DecrementOnlyEach(bombs, front);
      assert ks == front + [id];
      assert id !in front by {
        forall i | 0 <= i < |front| ensures front[i] != id {
          assert front[i] == ks[i];
        }
      }
    }
  }

  /** Decrementing one more id: it is a key of the map, and the loop body lowers its timer. */
  lemma DecrementOnlyStep(bombs: map<BombId, Bomb>, keys: seq<int>, i: nat, done: map<BombId, Bomb>)
    requires i < |keys| && ListsAscending(keys, bombs.Keys)
    requires done == DecrementOnly(bombs, keys[..i])
    ensures 0 <= keys[i] < 0x1_0000_0000 && keys[i] in done
    ensures var id: BombId := keys[i];
      DecrementOnly(bombs, keys[..i + 1]) == done[id := DecrementTimer(done[id])]
  {
    assert keys[..i + 1][..i] == keys[..i];
  }

  /** Decrementing no id changes nothing. */
  lemma DecrementOnlyNone(bombs: map<BombId, Bomb>)
    ensures DecrementOnly(bombs, []) == bombs
  {
  }

  /** Decrementing every id of the map once, in ascending order, is `DecrementTimers`. */
  lemma DecrementOnlyAll(bombs: map<BombId, Bomb>, keys: seq<int>)
    requires ListsAscending(keys, bombs.Keys)
    ensures DecrementOnly(bombs, keys) == DecrementTimers(bombs)
  {
    DecrementOnlyEach(bombs, keys);
  }

  // ------------------------------------------------------------ explosions

  datatype Ray = MinusX | PlusX | MinusY | PlusY

  /** The loop variable `i` of a ray after `k` steps. */
  function RayIndex(b: Position, ray: Ray, k: nat): int {
    match ray
    case MinusX => b.x - k
    case PlusX => b.x + k
    case MinusY => b.y - k
    case PlusY => b.y + k
  }

  /** Each ray's loop condition, as written; the +y ray is bounded by `x + radius`. */
  predicate RayGoesOn(b: Position, ray: Ray, i: int, radius: int, sizeX: int, sizeY: int) {
    match ray
    case MinusX => i >= 0 && i >= b.x - radius
    case PlusX => i < sizeX && i <= b.x + radius
    case MinusY => i >= 0 && i >= b.y - radius
    case PlusY => i < sizeY && i <= b.x + radius
  }

  /** A ray goes on for fewer than 2^16 steps, whatever its bound. */
  lemma RayStepBounded(b: Position, ray: Ray, k: nat, p: ServerParams)
    requires RayGoesOn(b, ray, RayIndex(b, ray, k), p.explosionRadius, p.sizeX, p.sizeY)
    ensures k < 0x1_0000
  {
  }

  /** The cell `Position{(uint16_t) i, y}` or `Position{x, (uint16_t) i}` of a ray. */
  function RayCell(b: Position, ray: Ray, i: int): Position {
    if ray == MinusX || ray == PlusX then Position(i % 0x1_0000, b.y) else Position(b.x, i % 0x1_0000)
  }

  /** A cell a ray may reach from `b`: on its line and within its bound. */
  predicate InReach(b: Position, ray: Ray, c: Position, radius: int) {
    match ray
    case MinusX => c.y == b.y && c.x <= b.x && c.x >= b.x - radius
    case PlusX => c.y == b.y && b.x <= c.x <= b.x + radius
    case MinusY => c.x == b.x && c.y <= b.y && c.y >= b.y - radius
    case PlusY => c.x == b.x && b.y <= c.y <= b.x + radius
  }

  /** A ray goes on only while its step count is below 2^16, so the cast never wraps and
      the cell is on the board and within reach. */
  lemma CellFacts(b: Position, ray: Ray, k: nat, p: ServerParams)
    requires OnBoard(b, p.sizeX, p.sizeY)
    requires RayGoesOn(b, ray, RayIndex(b, ray, k), p.explosionRadius, p.sizeX, p.sizeY)
    ensures k < 0x1_0000 && 0 <= RayIndex(b, ray, k) < 0x1_0000
    ensures var c := RayCell(b, ray, RayIndex(b, ray, k));
      OnBoard(c, p.sizeX, p.sizeY) && InReach(b, ray, c, p.explosionRadius)
  {
  }

  /** The ids whose position is `c`, among `keys` visited in order. */
  function PlayersOnAmong(positions: map<PlayerId, Position>, keys: seq<int>, c: Position): (ids: seq<PlayerId>)
    requires forall i | 0 <= i < |keys| :: keys[i] in positions
    ensures forall i | 0 <= i < |ids| :: ids[i] in keys && positions[ids[i]] == c
    decreases |keys|
  {
    if keys == [] then []
    else
      var k: PlayerId := keys[|keys| - 1];
      PlayersOnAmong(positions, keys[..|keys| - 1], c) + (if positions[k] == c then [k] else [])
  }

  /** The inner loop of every ray: each robot on `c`, in ascending id order. */
  function PlayersOn(positions: map<PlayerId, Position>, c: Position): seq<PlayerId> {
    PlayersOnAmong(positions, Ascending(positions.Keys), c)
  }

  lemma {:induction false} PlayersOnAmongComplete(positions: map<PlayerId, Position>, keys: seq<int>, c: Position)
    requires forall i | 0 <= i < |keys| :: keys[i] in positions
    ensures forall id | id in keys && positions[id] == c :: id in PlayersOnAmong(positions, keys, c)
    decreases |keys|
  {
    if keys != [] {
      var front := keys[..|keys| - 1];
      PlayersOnAmongComplete(positions, front, c);
      forall id | id in keys && positions[id] == c ensures id in PlayersOnAmong(positions, keys, c) {
        if id != keys[|keys| - 1] {
          var j :| 0 <= j < |keys| && keys[j] == id;
          assert front[j] == id;
        }
      }
    }
  }

  /** A robot is listed for a cell exactly when it stands there. */
  lemma PlayersOnExact(positions: map<PlayerId, Position>, c: Position)
    ensures forall id :: id in PlayersOn(positions, c) <==> id in positions && positions[id] == c
  {
    PlayersOnAmongComplete(positions, Ascending(positions.Keys), c);
  }

  /** What a ray collects: the robots on the cells it visits, and the block that stopped it. */
  datatype RayResult = RayResult(robots: seq<PlayerId>, blocks: seq<Position>)

  /** The cells a ray visits from step `k` on, up to and including the first block. */
  function Visited(b: Position, ray: Ray, k: nat, pos: map<PlayerId, Position>, blocks: seq<Position>, p: ServerParams): seq<Position>
    decreases 0x1_0000 - k
  {
    var i := RayIndex(b, ray, k);
    if !RayGoesOn(b, ray, i, p.explosionRadius, p.sizeX, p.sizeY) then []
    else
      var c := RayCell(b, ray, i);
      if c in blocks then [c] else [c] + Visited(b, ray, k + 1, pos, blocks, p)
  }

  /** The ray loop from step `k` on: the robots on every visited cell, and the block that
      ends the ray if there is one. */
  function ScanFrom(b: Position, ray: Ray, k: nat, pos: map<PlayerId, Position>, blocks: seq<Position>, p: ServerParams): RayResult
    decreases 0x1_0000 - k
  {
    var i := RayIndex(b, ray, k);
    if !RayGoesOn(b, ray, i, p.explosionRadius, p.sizeX, p.sizeY) then RayResult([], [])
    else
      var c := RayCell(b, ray, i);
      var here := PlayersOn(pos, c);
      if c in blocks then RayResult(here, [c])
      else
        var rest := ScanFrom(b, ray, k + 1, pos, blocks, p);
        RayResult(here + rest.robots, rest.blocks)
  }

  /** The ray loop as it runs: from step `k` on, with `robots` already collected. */
  function ScanLoop(b: Position, ray: Ray, k: nat, robots: seq<PlayerId>, pos: map<PlayerId, Position>,
                    blocks: seq<Position>, p: ServerParams): RayResult
    decreases 0x1_0000 - k
  {
    var i := RayIndex(b, ray, k);
    if !RayGoesOn(b, ray, i, p.explosionRadius, p.sizeX, p.sizeY) then RayResult(robots, [])
    else
      var c := RayCell(b, ray, i);
      var here := PlayersOn(pos, c);
      if c in blocks then RayResult(robots + here, [c])
      else ScanLoop(b, ray, k + 1, robots + here, pos, blocks, p)
  }

  /** One test of a ray's loop condition: past the ray the loop gives the robots collected
      so far; on the ray the step count is below 2^16, and the loop ends at a block or goes
      on with the robots of the cell added. */
  lemma ScanLoopStep(b: Position, ray: Ray, k: nat, robots: seq<PlayerId>, pos: map<PlayerId, Position>,
                     blocks: seq<Position>, p: ServerParams)
    ensures var i := RayIndex(b, ray, k);
      !RayGoesOn(b, ray, i, p.explosionRadius, p.sizeX, p.sizeY) ==>
        ScanLoop(b, ray, k, robots, pos, blocks, p) == RayResult(robots, [])
    ensures var i := RayIndex(b, ray, k);
      RayGoesOn(b, ray, i, p.explosionRadius, p.sizeX, p.sizeY) ==>
        && k < 0x1_0000
        && var c := RayCell(b, ray, i);
          ScanLoop(b, ray, k, robots, pos, blocks, p) ==
            if c in blocks then RayResult(robots + PlayersOn(pos, c), [c])
            else ScanLoop(b, ray, k + 1, robots + PlayersOn(pos, c), pos, blocks, p)
  {
  }

  /** The running loop ends with the robots collected so far followed by those of the
      rest of the ray. */
  lemma {:induction false} ScanLoopFrom(b: Position, ray: Ray, k: nat, robots: seq<PlayerId>, pos: map<PlayerId, Position>,
                                        blocks: seq<Position>, p: ServerParams)
    ensures var s := ScanFrom(b, ray, k, pos, blocks, p);
      ScanLoop(b, ray, k, robots, pos, blocks, p) == RayResult(robots + s.robots, s.blocks)
    decreases 0x1_0000 - k
  {
    var i := RayIndex(b, ray, k);
    if RayGoesOn(b, ray, i, p.explosionRadius, p.sizeX, p.sizeY) {
      var c := RayCell(b, ray, i);
      if c !in blocks {
        var here := PlayersOn(pos, c);
        ScanLoopFrom(b, ray, k + 1, robots + here, pos, blocks, p);
        AppendAssoc(robots, here, ScanFrom(b, ray, k + 1, pos, blocks, p).robots);
      }
    }
  }

  /** Run from its first step with nothing collected, the loop computes `ScanFrom`. */
  lemma ScanLoopStart(b: Position, ray: Ray, pos: map<PlayerId, Position>, blocks: seq<Position>, p: ServerParams)
    ensures ScanLoop(b, ray, 0, [], pos, blocks, p) == ScanFrom(b, ray, 0, pos, blocks, p)
  {
    ScanLoopFrom(b, ray, 0, [], pos, blocks, p);
    assert [] + ScanFrom(b, ray, 0, pos, blocks, p).robots == ScanFrom(b, ray, 0, pos, blocks, p).robots;
  }

  /** Every cell a ray from a bomb on the board visits is on the board and within reach. */
  lemma {:induction false} VisitedInReach(b: Position, ray: Ray, k: nat, pos: map<PlayerId, Position>, blocks: seq<Position>, p: ServerParams)
    requires OnBoard(b, p.sizeX, p.sizeY)
    ensures forall c | c in Visited(b, ray, k, pos, blocks, p) :: OnBoard(c, p.sizeX, p.sizeY) && InReach(b, ray, c, p.explosionRadius)
    decreases 0x1_0000 - k
  {
    var i := RayIndex(b, ray, k);
    if RayGoesOn(b, ray, i, p.explosionRadius, p.sizeX, p.sizeY) {
      CellFacts(b, ray, k, p);
      if RayCell(b, ray, i) !in blocks {
        VisitedInReach(b, ray, k + 1, pos, blocks, p);
      }
    }
  }

  /** A ray stops at the first block: no visited cell but the last is a block. */
  lemma {:induction false} VisitedStopsAtBlock(b: Position, ray: Ray, k: nat, pos: map<PlayerId, Position>, blocks: seq<Position>, p: ServerParams)
    ensures forall j | 0 <= j < |Visited(b, ray, k, pos, blocks, p)| - 1 :: Visited(b, ray, k, pos, blocks, p)[j] !in blocks
    decreases 0x1_0000 - k
  {
    var i := RayIndex(b, ray, k);
    if RayGoesOn(b, ray, i, p.explosionRadius, p.sizeX, p.sizeY) {
      var c := RayCell(b, ray, i);
      if c !in blocks {
        VisitedStopsAtBlock(b, ray, k + 1, pos, blocks, p);
        var rest := Visited(b, ray, k + 1, pos, blocks, p);
        var v := Visited(b, ray, k, pos, blocks, p);
        assert v == [c] + rest;
        forall j | 0 < j < |v| - 1 ensures v[j] !in blocks {
          assert v[j] == rest[j - 1];
        }
      }
    }
  }

  /** A ray goes on until it reaches a block or the loop condition fails: the step after the
      last visited cell is out of the board or of the radius. */
  lemma {:induction false} VisitedEnds(b: Position, ray: Ray, k: nat, pos: map<PlayerId, Position>, blocks: seq<Position>, p: ServerParams)
    ensures var v := Visited(b, ray, k, pos, blocks, p);
      || (|v| > 0 && v[|v| - 1] in blocks)
      || !RayGoesOn(b, ray, RayIndex(b, ray, k + |v|), p.explosionRadius, p.sizeX, p.sizeY)
    decreases 0x1_0000 - k
  {
    var i := RayIndex(b, ray, k);
    if RayGoesOn(b, ray, i, p.explosionRadius, p.sizeX, p.sizeY) {
      RayStepBounded(b, ray, k, p);
      var c := RayCell(b, ray, i);
      if c !in blocks {
        VisitedEnds(b, ray, k + 1, pos, blocks, p);
        var rest := Visited(b, ray, k + 1, pos, blocks, p);
        var v := Visited(b, ray, k, pos, blocks, p);
        assert v == [c] + rest;
        assert k + |v| == (k + 1) + |rest|;
        if |rest| > 0 { assert v[|v| - 1] == rest[|rest| - 1]; }
      }
    }
  }

  /** The block a sequence of visited cells ends on, if it ends on one. */
  function EndBlock(v: seq<Position>, blocks: seq<Position>): (r: seq<Position>)
    ensures |r| <= 1
    ensures forall c | c in r :: c in blocks && c in v
  {
    if |v| > 0 && v[|v| - 1] in blocks then [v[|v| - 1]] else []
  }

  /** A cell that is not a block in front of the rest of a ray changes nothing at its end. */
  lemma EndBlockCons(c: Position, rest: seq<Position>, blocks: seq<Position>)
    requires c !in blocks
    ensures EndBlock([c] + rest, blocks) == EndBlock(rest, blocks)
  {
    if |rest| > 0 { assert ([c] + rest)[|rest|] == rest[|rest| - 1]; }
  }

  /** The ray records a block exactly when it ends at one, and then it is the last cell. */
  lemma {:induction false} ScanBlocks(b: Position, ray: Ray, k: nat, pos: map<PlayerId, Position>, blocks: seq<Position>, p: ServerParams)
    ensures ScanFrom(b, ray, k, pos, blocks, p).blocks == EndBlock(Visited(b, ray, k, pos, blocks, p), blocks)
    decreases 0x1_0000 - k
  {
    var i := RayIndex(b, ray, k);
    if RayGoesOn(b, ray, i, p.explosionRadius, p.sizeX, p.sizeY) {
      var c := RayCell(b, ray, i);
      if c !in blocks {
        ScanBlocks(b, ray, k + 1, pos, blocks, p);
        EndBlockCons(c, Visited(b, ray, k + 1, pos, blocks, p), blocks);
      }
    }
  }

  /** The ray lists exactly the robots standing on a cell it visited. */
  lemma {:induction false} ScanRobots(b: Position, ray: Ray, k: nat, pos: map<PlayerId, Position>, blocks: seq<Position>, p: ServerParams)
    ensures forall id :: id in ScanFrom(b, ray, k, pos, blocks, p).robots <==>
                         id in pos && pos[id] in Visited(b, ray, k, pos, blocks, p)
    decreases 0x1_0000 - k
  {
    var i := RayIndex(b, ray, k);
    if RayGoesOn(b, ray, i, p.explosionRadius, p.sizeX, p.sizeY) {
      var c := RayCell(b, ray, i);
      PlayersOnExact(pos, c);
      if c !in blocks {
        ScanRobots(b, ray, k + 1, pos, blocks, p);
        assert Visited(b, ray, k, pos, blocks, p) == [c] + Visited(b, ray, k + 1, pos, blocks, p);
      }
    }
  }

  /** One whole ray from a bomb on the board: its cells are on the board and within reach,
      it records at most one block, which is a block it visited, and it lists exactly the
      robots on the cells it visited. */
  lemma RayFacts(b: Position, ray: Ray, pos: map<PlayerId, Position>, blocks: seq<Position>, p: ServerParams)
    requires OnBoard(b, p.sizeX, p.sizeY)
    ensures var v := Visited(b, ray, 0, pos, blocks, p);
            var s := ScanFrom(b, ray, 0, pos, blocks, p);
      && (forall c | c in v :: OnBoard(c, p.sizeX, p.sizeY) && InReach(b, ray, c, p.explosionRadius))
      && |s.blocks| <= 1
      && (forall c | c in s.blocks :: c in blocks && c in v)
      && (forall id :: id in s.robots <==> id in pos && pos[id] in v)
  {
    VisitedInReach(b, ray, 0, pos, blocks, p);
    ScanBlocks(b, ray, 0, pos, blocks, p);
    ScanRobots(b, ray, 0, pos, blocks, p);
  }

  /** BombExploded for one bomb: the four rays in the order -x, +x, -y, +y, robots and
      blocks concatenated in that order. */
  function ExplosionOf(bomb: Bomb, pos: map<PlayerId, Position>, blocks: seq<Position>, p: ServerParams): EventItem {
    var a := ScanFrom(bomb.position, MinusX, 0, pos, blocks, p);
    var b := ScanFrom(bomb.position, PlusX, 0, pos, blocks, p);
    var c := ScanFrom(bomb.position, MinusY, 0, pos, blocks, p);
    var d := ScanFrom(bomb.position, PlusY, 0, pos, blocks, p);
    BombExploded(bomb.bombId, a.robots + b.robots + c.robots + d.robots,
                 a.blocks + b.blocks + c.blocks + d.blocks)
  }

  /** An explosion names its bomb, destroys at most one block per ray, every one of them a
      block on the board, and lists exactly the robots on a cell one of the rays visited. */
  lemma ExplosionFacts(bomb: Bomb, pos: map<PlayerId, Position>, blocks: seq<Position>, p: ServerParams)
    requires OnBoard(bomb.position, p.sizeX, p.sizeY)
    ensures var e := ExplosionOf(bomb, pos, blocks, p);
      && e.bombId == bomb.bombId
      && |e.blocksDestroyed| <= 4
      && (forall c | c in e.blocksDestroyed :: c in blocks && OnBoard(c, p.sizeX, p.sizeY))
      && (forall id :: id in e.robotsDestroyed <==>
            id in pos
            && (pos[id] in Visited(bomb.position, MinusX, 0, pos, blocks, p)
                || pos[id] in Visited(bomb.position, PlusX, 0, pos, blocks, p)
                || pos[id] in Visited(bomb.position, MinusY, 0, pos, blocks, p)
                || pos[id] in Visited(bomb.position, PlusY, 0, pos, blocks, p)))
  {
    var b := bomb.position;
    RayFacts(b, MinusX, pos, blocks, p);
    RayFacts(b, PlusX, pos, blocks, p);
    RayFacts(b, MinusY, pos, blocks, p);
    RayFacts(b, PlusY, pos, blocks, p);
  }

  /** The bombs of `keys` whose timer is 0, each followed by its explosion, in order. */
  function ExplodeAmong(st: GameStatus, keys: seq<int>, p: ServerParams, base: GameStatus): GameStatus
    requires forall i | 0 <= i < |keys| :: 0 <= keys[i] < 0x1_0000_0000 && keys[i] in base.bombs
    decreases |keys|
  {
    if keys == [] then st
    else
      var k: BombId := keys[|keys| - 1];
      var bomb := base.bombs[k];
      var r := ExplodeAmong(st, keys[..|keys| - 1], p, base);
      if bomb.timer == 0 then Record(r, MakeEvent(ExplosionOf(bomb, base.positions, base.blocks, p))) else r
  }

  /** `explode_bombs`: every bomb whose timer is 0, in id order, logs its explosion. */
  function ExplodeAll(st: GameStatus, p: ServerParams): GameStatus {
    ExplodeAmong(st, Ascending(st.bombs.Keys), p, st)
  }

  /** Explosions only log events: blocks, bombs, robots and scores stay as they were. */
  lemma {:induction false} ExplodeAmongOnlyLogs(st: GameStatus, keys: seq<int>, p: ServerParams, base: GameStatus)
    requires forall i | 0 <= i < |keys| :: 0 <= keys[i] < 0x1_0000_0000 && keys[i] in base.bombs
    ensures var r := ExplodeAmong(st, keys, p, base);
      && r == st.(turns := r.turns)
      && (LogsConsistent(st) ==> LogsConsistent(r))
      && (forall t | t != st.turn :: t in r.turns <==> t in st.turns)
      && (forall t | t in st.turns && t != st.turn :: r.turns[t] == st.turns[t])
      && |Log(r)| >= |Log(st)| && Log(r)[..|Log(st)|] == Log(st)
      && (forall j | |Log(st)| <= j < |Log(r)| :: Log(r)[j].kind == BombExplodedT)
    decreases |keys|
  {
    if keys != [] {
      var k: BombId := keys[|keys| - 1];
      var bomb := base.bombs[k];
      var r := ExplodeAmong(st, keys[..|keys| - 1], p, base);
      ExplodeAmongOnlyLogs(st, keys[..|keys| - 1], p, base);
      if bomb.timer == 0 {
        var e := MakeEvent(ExplosionOf(bomb, base.positions, base.blocks, p));
        if LogsConsistent(st) { RecordKeepsConsistent(r, e); }
        assert Log(Record(r, e))[..|Log(r)|] == Log(r);
      }
    }
  }

  /** The tick after the pending moves: every bomb timer goes down by one, the bombs at 0
      explode, and the log of the turn is created if nothing was logged. */
  function FinishTurn(st: GameStatus, p: ServerParams): GameStatus {
    var ticked := st.(bombs := DecrementTimers(st.bombs));
    var exploded := ExplodeAll(ticked, p);
    exploded.(turns := exploded.turns[exploded.turn := Log(exploded)])
  }

  /** Finishing a turn changes the bomb timers and the logs alone. */
  lemma FinishTurnFacts(st: GameStatus, p: ServerParams)
    ensures var r := FinishTurn(st, p);
      r == st.(bombs := r.bombs, turns := r.turns) && r.bombs == DecrementTimers(st.bombs)
  {
    var ticked := st.(bombs := DecrementTimers(st.bombs));
    ExplodeAmongOnlyLogs(ticked, Ascending(ticked.bombs.Keys), p, ticked);
  }

  /** The log of the turn exists after it is finished, and the logs of other turns stay. */
  lemma FinishTurnTurns(st: GameStatus, p: ServerParams)
    ensures var r := FinishTurn(st, p);
      && st.turn in r.turns
      && (forall t | t != st.turn :: t in r.turns <==> t in st.turns)
      && (forall t | t in st.turns && t != st.turn :: r.turns[t] == st.turns[t])
  {
    var ticked := st.(bombs := DecrementTimers(st.bombs));
    ExplodeAmongOnlyLogs(ticked, Ascending(ticked.bombs.Keys), p, ticked);
  }

  /** The log of a finished turn starts with what was logged before, followed only by
      explosions; consistent logs stay consistent. */
  lemma FinishTurnLog(st: GameStatus, p: ServerParams)
    ensures var r := FinishTurn(st, p);
      && IsPrefix(Log(st), Log(r))
      && (forall j | |Log(st)| <= j < |Log(r)| :: Log(r)[j].kind == BombExplodedT)
      && (LogsConsistent(st) ==> LogsConsistent(r))
  {
    var ticked := st.(bombs := DecrementTimers(st.bombs));
    ExplodeAmongOnlyLogs(ticked, Ascending(ticked.bombs.Keys), p, ticked);
    var exploded := ExplodeAll(ticked, p);
    var r := FinishTurn(st, p);
    assert Log(r) == Log(exploded);
    if LogsConsistent(st) {
      forall t | t in r.turns ensures AllConsistent(r.turns[t]) {
        if t != r.turn { assert r.turns[t] == exploded.turns[t]; }
      }
    }
  }

  /** Finishing a turn keeps the status well formed. */
  lemma FinishTurnKeepsOk(st: GameStatus, p: ServerParams)
    requires StatusOk(st, p)
    ensures StatusOk(FinishTurn(st, p), p)
  {
    FinishTurnFacts(st, p);
    FinishTurnLog(st, p);
    var r := FinishTurn(st, p);
    forall b | b in r.bombs ensures b == 0 && r.bombs[b].bombId == b && OnBoard(r.bombs[b].position, p.sizeX, p.sizeY) {
      assert r.bombs[b] == DecrementTimer(st.bombs[b]);
    }
  }

  /** `timer--` on every bomb of two statuses keeps the one extending the other. */
  lemma DecrementExtends(a: GameStatus, b: GameStatus, nextBomb: BombId)
    requires Extends(a, b, nextBomb)
    ensures Extends(a.(bombs := DecrementTimers(a.bombs)), b.(bombs := DecrementTimers(b.bombs)), nextBomb)
  {
  }

  /** Finishing a turn extends the status with its timers gone down, whatever bomb is new. */
  lemma FinishTurnExtends(st: GameStatus, p: ServerParams, nextBomb: BombId)
    ensures Extends(st.(bombs := DecrementTimers(st.bombs)), FinishTurn(st, p), nextBomb)
  {
    FinishTurnFacts(st, p);
    FinishTurnTurns(st, p);
    FinishTurnLog(st, p);
    assert st.blocks[..|st.blocks|] == st.blocks;
  }

  /** One turn of the room on its status: the pending moves `ms` resolved in order, then the
      turn finished. */
  function PlayTurn(st: GameStatus, ms: seq<(PlayerId, PendingMove)>, p: ServerParams, nextBomb: BombId): GameStatus {
    FinishTurn(ResolveAll(st, ms, p, nextBomb), p)
  }

  /** Over a turn every bomb's timer goes down by one and bombs, whether or not they
      explode, stay; at most `nextBomb` is new, blocks are only appended, no robot is
      removed, the players, the scores and the turn stay, the log of the turn grows and the
      logs of other turns stay. */
  lemma PlayTurnExtends(st: GameStatus, ms: seq<(PlayerId, PendingMove)>, p: ServerParams, nextBomb: BombId)
    ensures Extends(st.(bombs := DecrementTimers(st.bombs)), PlayTurn(st, ms, p, nextBomb), nextBomb)
  {
    var resolved := ResolveAll(st, ms, p, nextBomb);
    ResolveAllExtends(st, ms, p, nextBomb);
    DecrementExtends(st, resolved, nextBomb);
    FinishTurnExtends(resolved, p, nextBomb);
    ExtendsTransitive(st.(bombs := DecrementTimers(st.bombs)), resolved.(bombs := DecrementTimers(resolved.bombs)),
                      PlayTurn(st, ms, p, nextBomb), nextBomb);
  }

  /** The log of the turn exists after it is played. */
  lemma PlayTurnLogs(st: GameStatus, ms: seq<(PlayerId, PendingMove)>, p: ServerParams, nextBomb: BombId)
    ensures var r := PlayTurn(st, ms, p, nextBomb);
      r.turn == st.turn && r.turn in r.turns
  {
    var resolved := ResolveAll(st, ms, p, nextBomb);
    ResolveAllExtends(st, ms, p, nextBomb);
    FinishTurnFacts(resolved, p);
    FinishTurnTurns(resolved, p);
  }

  /** With bomb id 0, a turn keeps the status well formed. */
  lemma PlayTurnKeepsOk(st: GameStatus, ms: seq<(PlayerId, PendingMove)>, p: ServerParams)
    requires StatusOk(st, p)
    ensures StatusOk(PlayTurn(st, ms, p, 0), p)
  {
    ResolveAllKeepsOk(st, ms, p);
    FinishTurnKeepsOk(ResolveAll(st, ms, p, 0), p);
  }

  // ------------------------------------------------------------ setting up a round

  /** The part of the room `init_game` changes while it draws positions and blocks. */
  datatype Setup = Setup(rng: u32, positions: map<PlayerId, Position>, blocks: seq<Position>, events: seq<Event>)

  /** Two draws, the first for x and the second for y. */
  function DrawPosition(rng: u32, sizeX: u16, sizeY: u16): (r: (Position, u32))
    requires sizeX > 0 && sizeY > 0
    ensures OnBoard(r.0, sizeX, sizeY)
    ensures r.1 == NextRandom(NextRandom(rng))
  {
    var x := NextRandom(rng);
    var y := NextRandom(x);
    (Position(x % sizeX, y % sizeY), y)
  }

  /** Every key names a player id of 8 bits. */
  predicate IdKeys(keys: seq<int>) {
    forall i | 0 <= i < |keys| :: 0 <= keys[i] < 0x100
  }

  /** The first `n` keys, as a set. */
  function KeySet(keys: seq<int>, n: nat): (r: set<int>)
    requires n <= |keys|
    ensures forall j | 0 <= j < n :: keys[j] in r
  {
    if n == 0 then {} else KeySet(keys, n - 1) + {keys[n - 1]}
  }

  /** The first `n` keys are keys. */
  lemma {:induction false} KeySetWithin(keys: seq<int>, n: nat)
    requires n <= |keys|
    ensures forall x | x in KeySet(keys, n) :: x in keys
  {
    if n > 0 { KeySetWithin(keys, n - 1); }
  }

  /** No key repeats an earlier one. */
  predicate FreshKeys(keys: seq<int>) {
    forall i {:trigger KeySet(keys, i)} | 0 <= i < |keys| :: keys[i] !in KeySet(keys, i)
  }

  lemma {:induction false} KeySetBounded(keys: seq<int>, n: nat, bound: int)
    requires n <= |keys| && forall j | 0 <= j < n :: keys[j] < bound
    ensures forall x | x in KeySet(keys, n) :: x < bound
  {
    if n > 0 { KeySetBounded(keys, n - 1, bound); }
  }

  /** The ascending listing of a set never repeats a key. */
  lemma AscendingFresh(s: set<int>)
    ensures FreshKeys(Ascending(s))
  {
    var keys := Ascending(s);
    AscendingIsSorted(s);
    forall i | 0 <= i < |keys| ensures keys[i] !in KeySet(keys, i) {
      KeySetBounded(keys, i, keys[i]);
    }
  }

  /** The first loop of `init_game`, over the first `n` player ids: each gets a drawn
      position (an existing entry is kept, as `insert` keeps it) and a PlayerMoved event
      carrying the drawn position. */
  function Spawn(keys: seq<int>, n: nat, s0: Setup, sizeX: u16, sizeY: u16): Setup
    requires n <= |keys| && IdKeys(keys) && sizeX > 0 && sizeY > 0
  {
    if n == 0 then s0
    else
      var s := Spawn(keys, n - 1, s0, sizeX, sizeY);
      var d := DrawPosition(s.rng, sizeX, sizeY);
      var id: PlayerId := keys[n - 1];
      Setup(d.1, if id in s.positions then s.positions else s.positions[id := d.0],
            s.blocks, s.events + [MakeEvent(PlayerMoved(id, d.0))])
  }

  /** The second loop of `init_game`: `n` draws, each adding a block only where there is none. */
  function Drop(n: nat, s0: Setup, sizeX: u16, sizeY: u16): Setup
    requires sizeX > 0 && sizeY > 0
  {
    if n == 0 then s0
    else
      var s := Drop(n - 1, s0, sizeX, sizeY);
      var d := DrawPosition(s.rng, sizeX, sizeY);
      if d.0 in s.blocks then s.(rng := d.1)
      else Setup(d.1, s.positions, s.blocks + [d.0], s.events + [MakeEvent(BlockPlaced(d.0))])
  }

  predicate Distinct<T(==)>(s: seq<T>) {
    forall i, j | 0 <= i < j < |s| :: s[i] != s[j]
  }

  /** Spawning gives every listed player a position on the board, adds no other entry and
      leaves the blocks alone. */
  lemma {:induction false} SpawnBoard(keys: seq<int>, n: nat, s0: Setup, sizeX: u16, sizeY: u16)
    requires n <= |keys| && IdKeys(keys) && sizeX > 0 && sizeY > 0
    requires forall q | q in s0.positions :: OnBoard(s0.positions[q], sizeX, sizeY)
    ensures var s := Spawn(keys, n, s0, sizeX, sizeY);
      && s.blocks == s0.blocks
      && (forall q | q in s.positions :: OnBoard(s.positions[q], sizeX, sizeY))
      && (forall j | 0 <= j < n :: keys[j] in s.positions)
  {
    if n > 0 {
      SpawnBoard(keys, n - 1, s0, sizeX, sizeY);
    }
  }

  /** Spawning logs one PlayerMoved per player, in the order of `keys`, after what was
      already logged. */
  lemma {:induction false} SpawnEvents(keys: seq<int>, n: nat, s0: Setup, sizeX: u16, sizeY: u16)
    requires n <= |keys| && IdKeys(keys) && sizeX > 0 && sizeY > 0
    ensures |Spawn(keys, n, s0, sizeX, sizeY).events| == |s0.events| + n
    ensures Spawn(keys, n, s0, sizeX, sizeY).events[..|s0.events|] == s0.events
    ensures forall j | |s0.events| <= j < |s0.events| + n ::
              Spawn(keys, n, s0, sizeX, sizeY).events[j].item.PlayerMoved?
              && Spawn(keys, n, s0, sizeX, sizeY).events[j].item.playerId == keys[j - |s0.events|]
    ensures AllConsistent(s0.events) ==> AllConsistent(Spawn(keys, n, s0, sizeX, sizeY).events)
  {
    if n > 0 {
      SpawnEvents(keys, n - 1, s0, sizeX, sizeY);
      var s := Spawn(keys, n - 1, s0, sizeX, sizeY);
      var r := Spawn(keys, n, s0, sizeX, sizeY);
      var e := r.events[|r.events| - 1];
      assert r.events == s.events + [e];
      assert r.events[..|s0.events|] == s.events[..|s0.events|];
      forall j | |s0.events| <= j < |s0.events| + n - 1 ensures r.events[j] == s.events[j] { }
    }
  }

  /** Spawning adds positions only for the ids it visits. */
  lemma {:induction false} SpawnWithin(keys: seq<int>, n: nat, s0: Setup, sizeX: u16, sizeY: u16)
    requires n <= |keys| && IdKeys(keys) && sizeX > 0 && sizeY > 0
    ensures forall q | q in Spawn(keys, n, s0, sizeX, sizeY).positions :: q in s0.positions || q in KeySet(keys, n)
  {
    if n > 0 { SpawnWithin(keys, n - 1, s0, sizeX, sizeY); }
  }

  /** Each of the first `n` PlayerMoved events of a setup carries the position its player has. */
  predicate EventsAgree(keys: seq<int>, n: nat, e0: nat, s: Setup)
    requires n <= |keys| && IdKeys(keys) && e0 + n <= |s.events|
  {
    forall j | 0 <= j < n ::
      keys[j] as PlayerId in s.positions
      && s.events[e0 + j] == MakeEvent(PlayerMoved(keys[j] as PlayerId, s.positions[keys[j] as PlayerId]))
  }

  /** One spawn step keeps the events in agreement when the new id has no position yet. */
  lemma SpawnStepAgrees(keys: seq<int>, n: nat, e0: nat, s: Setup, r: Setup, x: Position)
    requires 0 < n <= |keys| && IdKeys(keys) && e0 + n - 1 == |s.events|
    requires EventsAgree(keys, n - 1, e0, s)
    requires keys[n - 1] as PlayerId !in s.positions
    requires r.positions == s.positions[keys[n - 1] as PlayerId := x]
    requires r.events == s.events + [MakeEvent(PlayerMoved(keys[n - 1] as PlayerId, x))]
    ensures EventsAgree(keys, n, e0, r)
  {
    forall j | 0 <= j < n
      ensures keys[j] as PlayerId in r.positions
      ensures r.events[e0 + j] == MakeEvent(PlayerMoved(keys[j] as PlayerId, r.positions[keys[j] as PlayerId]))
    {
      if j < n - 1 {
        assert r.events[e0 + j] == s.events[e0 + j];
      }
    }
  }

  /** Spawned from no positions with distinct ids, each PlayerMoved event carries exactly the
      position its player was given. */
  lemma {:induction false} SpawnAgrees(keys: seq<int>, n: nat, s0: Setup, sizeX: u16, sizeY: u16)
    requires n <= |keys| && IdKeys(keys) && sizeX > 0 && sizeY > 0
    requires s0.positions == map[] && FreshKeys(keys)
    ensures |Spawn(keys, n, s0, sizeX, sizeY).events| == |s0.events| + n
    ensures EventsAgree(keys, n, |s0.events|, Spawn(keys, n, s0, sizeX, sizeY))
  {
    if n > 0 {
      SpawnAgrees(keys, n - 1, s0, sizeX, sizeY);
      SpawnWithin(keys, n - 1, s0, sizeX, sizeY);
      var s := Spawn(keys, n - 1, s0, sizeX, sizeY);
      var id: PlayerId := keys[n - 1];
      assert keys[n - 1] !in KeySet(keys, n - 1);
      assert id !in s.positions;
      SpawnStepAgrees(keys, n, |s0.events|, s, Spawn(keys, n, s0, sizeX, sizeY), DrawPosition(s.rng, sizeX, sizeY).0);
    }
  }

  /** The block draws leave `blocks` free of repeats and on the board, longer by at most one
      per attempt and otherwise as they were; robots are not touched. */
  lemma {:induction false} DropBlocks(n: nat, s0: Setup, sizeX: u16, sizeY: u16)
    requires sizeX > 0 && sizeY > 0
    requires Distinct(s0.blocks) && AllOnBoard(s0.blocks, sizeX, sizeY)
    ensures var s := Drop(n, s0, sizeX, sizeY);
      && s.positions == s0.positions
      && Distinct(s.blocks) && AllOnBoard(s.blocks, sizeX, sizeY)
      && |s0.blocks| <= |s.blocks| <= |s0.blocks| + n && s.blocks[..|s0.blocks|] == s0.blocks
  {
    if n > 0 {
      DropBlocks(n - 1, s0, sizeX, sizeY);
      var s := Drop(n - 1, s0, sizeX, sizeY);
      var pos := DrawPosition(s.rng, sizeX, sizeY).0;
      if pos !in s.blocks {
        var r := Drop(n, s0, sizeX, sizeY);
        assert r.blocks == s.blocks + [pos];
        assert r.blocks[..|s0.blocks|] == s.blocks[..|s0.blocks|];
      }
    }
  }

  /** One BlockPlaced is logged per block added, in the order of the blocks, after what
      was already logged. */
  lemma {:induction false} DropEvents(n: nat, s0: Setup, sizeX: u16, sizeY: u16)
    requires sizeX > 0 && sizeY > 0
    ensures |Drop(n, s0, sizeX, sizeY).blocks| >= |s0.blocks|
    ensures |Drop(n, s0, sizeX, sizeY).events| - |s0.events| == |Drop(n, s0, sizeX, sizeY).blocks| - |s0.blocks|
    ensures Drop(n, s0, sizeX, sizeY).events[..|s0.events|] == s0.events
    ensures forall j | |s0.events| <= j < |Drop(n, s0, sizeX, sizeY).events| ::
              Drop(n, s0, sizeX, sizeY).events[j]
              == MakeEvent(BlockPlaced(Drop(n, s0, sizeX, sizeY).blocks[j - |s0.events| + |s0.blocks|]))
    ensures AllConsistent(s0.events) ==> AllConsistent(Drop(n, s0, sizeX, sizeY).events)
  {
    if n > 0 {
      DropEvents(n - 1, s0, sizeX, sizeY);
      var s := Drop(n - 1, s0, sizeX, sizeY);
      var pos := DrawPosition(s.rng, sizeX, sizeY).0;
      if pos !in s.blocks {
        var r := Drop(n, s0, sizeX, sizeY);
        assert r.events == s.events + [MakeEvent(BlockPlaced(pos))];
        assert r.blocks == s.blocks + [pos];
        assert r.events[..|s0.events|] == s.events[..|s0.events|];
        forall j | |s0.events| <= j < |s.events|
          ensures r.events[j] == s.events[j] && r.blocks[j - |s0.events| + |s0.blocks|] == s.blocks[j - |s0.events| + |s0.blocks|]
        {
        }
      }
    }
  }

  /** The first loop of `init_game` from no positions, blocks or events, over distinct ids:
      exactly the listed ids get a position, on the board, and the i-th event is the
      PlayerMoved of the i-th id carrying the position it got. */
  lemma SpawnSetup(keys: seq<int>, s0: Setup, sizeX: u16, sizeY: u16)
    requires IdKeys(keys) && FreshKeys(keys) && sizeX > 0 && sizeY > 0
    requires s0.positions == map[] && s0.blocks == [] && s0.events == []
    ensures var s := Spawn(keys, |keys|, s0, sizeX, sizeY);
      && s.blocks == []
      && (forall q :: q in s.positions <==> q in keys)
      && (forall q | q in s.positions :: OnBoard(s.positions[q], sizeX, sizeY))
      && |s.events| == |keys| && AllConsistent(s.events)
      && EventsAgree(keys, |keys|, 0, s)
  {
    SpawnAgrees(keys, |keys|, s0, sizeX, sizeY);
    SpawnBoard(keys, |keys|, s0, sizeX, sizeY);
    SpawnWithin(keys, |keys|, s0, sizeX, sizeY);
    KeySetWithin(keys, |keys|);
    SpawnEvents(keys, |keys|, s0, sizeX, sizeY);
  }

  /** Both loops of `init_game` from an empty setup over distinct ids: the positions are
      those of the first loop, the blocks are on the board, distinct and at most `n`, and
      the log is the PlayerMoved events followed by one BlockPlaced per block, in order. */
  lemma InitSetup(keys: seq<int>, s0: Setup, sizeX: u16, sizeY: u16, n: u16)
    requires IdKeys(keys) && FreshKeys(keys) && sizeX > 0 && sizeY > 0
    requires s0.positions == map[] && s0.blocks == [] && s0.events == []
    ensures var spawned := Spawn(keys, |keys|, s0, sizeX, sizeY);
            var s := Drop(n, spawned, sizeX, sizeY);
      && s.positions == spawned.positions
      && Distinct(s.blocks) && |s.blocks| <= n && AllOnBoard(s.blocks, sizeX, sizeY)
      && |s.events| == |keys| + |s.blocks| && AllConsistent(s.events)
      && EventsAgree(keys, |keys|, 0, s)
      && (forall j | |keys| <= j < |s.events| :: s.events[j] == MakeEvent(BlockPlaced(s.blocks[j - |keys|])))
  {
    var spawned := Spawn(keys, |keys|, s0, sizeX, sizeY);
    var s := Drop(n, spawned, sizeX, sizeY);
    SpawnSetup(keys, s0, sizeX, sizeY);
    DropBlocks(n, spawned, sizeX, sizeY);
    DropEvents(n, spawned, sizeX, sizeY);
    forall j | 0 <= j < |keys| ensures s.events[j] == spawned.events[j] {
      assert s.events[j] == s.events[..|keys|][j];
    }
  }

  /** `init_game` on a lobby with no blocks: at most `initial_blocks` blocks, no repeats. */
  lemma InitBlocksBounded(keys: seq<int>, s0: Setup, sizeX: u16, sizeY: u16, initialBlocks: u16)
    requires IdKeys(keys) && sizeX > 0 && sizeY > 0 && s0.blocks == []
    requires forall q | q in s0.positions :: OnBoard(s0.positions[q], sizeX, sizeY)
    ensures var s := Drop(initialBlocks, Spawn(keys, |keys|, s0, sizeX, sizeY), sizeX, sizeY);
      Distinct(s.blocks) && |s.blocks| <= initialBlocks && AllOnBoard(s.blocks, sizeX, sizeY)
  {
    SpawnBoard(keys, |keys|, s0, sizeX, sizeY);
    DropBlocks(initialBlocks, Spawn(keys, |keys|, s0, sizeX, sizeY), sizeX, sizeY);
  }
}
