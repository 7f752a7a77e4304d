/** The server's command line (robots-server.cpp): each numeric option is range-checked by
    a notifier before `main` narrows it into the game parameters. */
module RobotsServer {
  import opened Collections
  import opened GameTypes

  /** `check_uint8`: accepts exactly the values the cast to `uint8_t` keeps. */
  function CheckUint8(num: int): (ok: bool)
    ensures ok <==> num % 0x100 == num
  {
    !(num < 0 || num > 0xFF)
  }

  /** `check_uint16`: accepts exactly the values the cast to `uint16_t` keeps. */
  function CheckUint16(num: int): (ok: bool)
    ensures ok <==> num % 0x1_0000 == num
  {
    !(num < 0 || num > 0xFFFF)
  }

  /** `check_uint32`: accepts exactly the values the cast to `uint32_t` keeps. */
  function CheckUint32(num: int): (ok: bool)
    ensures ok <==> num % 0x1_0000_0000 == num
  {
    !(num < 0 || num > 0xFFFF_FFFF)
  }

  /** A value of C++ `int`. */
  predicate IsInt(n: int) {
    -0x8000_0000 <= n < 0x8000_0000
  }

  /** The seed option is read as an `int`, so `check_uint32` can only reject a negative
      seed: every non-negative `int` is below 2^32. */
  lemma SeedCheckRejectsOnlyNegatives(num: int)
    requires IsInt(num)
    ensures CheckUint32(num) <==> num >= 0
  {
  }

  /** The options as `boost::program_options` stored them; `seed` is None when it was not
      given. */
  datatype ServerOptions = ServerOptions(
    bombTimer: int,
    playersCount: int,
    turnDuration: nat,
    explosionRadius: int,
    initialBlocks: int,
    gameLength: int,
    serverName: Text,
    port: int,
    seed: Option<int>,
    sizeX: int,
    sizeY: int)

  /** Every notifier `po::notify` runs accepts its option. A missing seed runs no
      notifier. */
  predicate NotifiersAccept(o: ServerOptions) {
    && CheckUint16(o.bombTimer)
    && CheckUint8(o.playersCount)
    && CheckUint16(o.explosionRadius)
    && CheckUint16(o.initialBlocks)
    && CheckUint16(o.gameLength)
    && CheckUint16(o.port)
    && (o.seed.Some? ==> CheckUint32(o.seed.value))
    && CheckUint16(o.sizeX)
    && CheckUint16(o.sizeY)
  }

  /** `po::notify` and then the narrowing casts into the server's parameters. None when a
      notifier throws, or when no seed was given: the constructor reads the seed from the
      option map, where a missing option cannot be read as an `int`. */
  function Configure(o: ServerOptions): (r: Option<ServerParams>)
    requires o.turnDuration < 0x1_0000_0000_0000_0000
    ensures r.Some? <==> NotifiersAccept(o) && o.seed.Some?
    ensures r.Some? ==> var p := r.value;
      && p.bombTimer == o.bombTimer && p.playersCount == o.playersCount
      && p.turnDuration == o.turnDuration && p.explosionRadius == o.explosionRadius
      && p.initialBlocks == o.initialBlocks && p.gameLength == o.gameLength
      && p.name == o.serverName && p.port == o.port && p.seed == o.seed.value
      && p.sizeX == o.sizeX && p.sizeY == o.sizeY
  {
    if !NotifiersAccept(o) || o.seed.None? then None
    else
      Some(ServerParams(
        o.serverName,
        o.playersCount % 0x100,
        o.sizeX % 0x1_0000,
        o.sizeY % 0x1_0000,
        o.gameLength % 0x1_0000,
        o.explosionRadius % 0x1_0000,
        o.bombTimer % 0x1_0000,
        o.turnDuration,
        o.initialBlocks % 0x1_0000,
        o.seed.value % 0x1_0000_0000,
        o.port % 0x1_0000))
  }
}
