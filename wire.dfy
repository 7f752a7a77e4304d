/** The framing primitives every connection shares: fixed-width big-endian integers,
    length-prefixed text, and the layouts the server's `send` overloads
    (GameSession.cpp) and the client's `send_gui` overloads (Client.cpp) write byte for
    byte alike. Encoders give the bytes a value becomes; decoders read a value at an
    index of an already received byte sequence and give the index after it, or `None`
    when the bytes run out (where the source would go on waiting for more). */
module Wire {
  import opened Collections
  import opened GameTypes

  // ---------------------------------------------------------------- encoders

  function EncU8(n: u8): seq<u8> {
    [n]
  }

  /** `htons`: high byte first. */
  function EncU16(n: u16): seq<u8> {
    [n / 0x100, n % 0x100]
  }

  /** `htonl`: four bytes, most significant first. */
  function EncU32(n: u32): seq<u8> {
    [n / 0x100_0000, n / 0x1_0000 % 0x100, n / 0x100 % 0x100, n % 0x100]
  }

  /** A list or map size, narrowed to `uint32_t` before it is written. */
  function EncCount(n: nat): seq<u8> {
    EncU32(n % 0x1_0000_0000)
  }

  /** A string: its size narrowed to `uint8_t`, then that many leading bytes. */
  function EncText(s: Text): seq<u8> {
    var l := |s| % 0x100;
    [l] + s[..l]
  }

  function EncPlayer(p: Player): seq<u8> {
    EncText(p.name) + EncText(p.address)
  }

  function EncPosition(p: Position): seq<u8> {
    EncU16(p.x) + EncU16(p.y)
  }

  /** The elements of a `std::list<Position>`, in list order. */
  function EncPositionItems(l: seq<Position>): seq<u8>
    decreases |l|
  {
    if l == [] then [] else EncPositionItems(l[..|l| - 1]) + EncPosition(l[|l| - 1])
  }

  function EncPositionList(l: seq<Position>): seq<u8> {
    EncCount(|l|) + EncPositionItems(l)
  }

  /** The entries of a `std::map<player_id_t, Player>` visited in the order `keys`. */
  function EncPlayerEntries(m: map<PlayerId, Player>, keys: seq<int>): seq<u8>
    requires forall i | 0 <= i < |keys| :: keys[i] in m
    decreases |keys|
  {
    if keys == [] then []
    else
      var k := keys[|keys| - 1];
      EncPlayerEntries(m, keys[..|keys| - 1]) + EncU8(k) + EncPlayer(m[k])
  }

  /** A player map: its size, then key and value of each entry in ascending key order. */
  function EncPlayerMap(m: map<PlayerId, Player>): seq<u8> {
    EncCount(|m|) + EncPlayerEntries(m, Ascending(m.Keys))
  }

  function EncScoreEntries(m: map<PlayerId, Score>, keys: seq<int>): seq<u8>
    requires forall i | 0 <= i < |keys| :: keys[i] in m
    decreases |keys|
  {
    if keys == [] then []
    else
      var k := keys[|keys| - 1];
      EncScoreEntries(m, keys[..|keys| - 1]) + EncU8(k) + EncU32(m[k])
  }

  function EncScoreMap(m: map<PlayerId, Score>): seq<u8> {
    EncCount(|m|) + EncScoreEntries(m, Ascending(m.Keys))
  }

  /** Regrouping a concatenation; stated once so callers need not argue element by element. */
  lemma ConcatAssoc(a: seq<u8>, b: seq<u8>, c: seq<u8>)
    ensures a + b + c == a + (b + c)
  {
  }

  // ---------------------------------------------------------------- decoders

  function DecU8(b: seq<u8>, i: nat): Option<(u8, nat)> {
    if i < |b| then Some((b[i], i + 1)) else None
  }

  /** `ntohs`. */
  function DecU16(b: seq<u8>, i: nat): Option<(u16, nat)> {
    if i + 2 <= |b| then Some(((b[i] as int) * 0x100 + b[i + 1], i + 2)) else None
  }

  /** `ntohl`. */
  function DecU32(b: seq<u8>, i: nat): Option<(u32, nat)> {
    if i + 4 <= |b| then
      Some(((b[i] as int) * 0x100_0000 + (b[i + 1] as int) * 0x1_0000 + (b[i + 2] as int) * 0x100 + b[i + 3],
            i + 4))
    else None
  }

  /** A length byte `L`, then `L` bytes of text. */
  function DecText(b: seq<u8>, i: nat): Option<(Text, nat)> {
    if i < |b| && i + 1 + b[i] <= |b| then Some((b[i + 1..i + 1 + b[i]], i + 1 + b[i]))
    else None
  }

  function DecPosition(b: seq<u8>, i: nat): Option<(Position, nat)> {
    match DecU16(b, i)
    case None => None
    case Some((x, j)) =>
      match DecU16(b, j)
      case None => None
      case Some((y, k)) => Some((Position(x, y), k))
  }

  function DecPlayer(b: seq<u8>, i: nat): Option<(Player, nat)> {
    match DecText(b, i)
    case None => None
    case Some((name, j)) =>
      match DecText(b, j)
      case None => None
      case Some((address, k)) => Some((Player(name, address), k))
  }

  // ---------------------------------------------------------------- round trips

  /** A text of at most 255 bytes survives its encoding unchanged. */
  predicate Fits(s: Text) {
    |s| < 0x100
  }

  lemma U8RoundTrip(pre: seq<u8>, n: u8, rest: seq<u8>)
    ensures DecU8(pre + EncU8(n) + rest, |pre|) == Some((n, |pre| + 1))
  {
    assert (pre + EncU8(n) + rest)[|pre|] == n;
  }

  lemma U16RoundTrip(pre: seq<u8>, n: u16, rest: seq<u8>)
    ensures |EncU16(n)| == 2
    ensures DecU16(pre + EncU16(n) + rest, |pre|) == Some((n, |pre| + 2))
  {
    var b := pre + EncU16(n) + rest;
    assert b[|pre|] == n / 0x100 && b[|pre| + 1] == n % 0x100;
  }

  lemma U32RoundTrip(pre: seq<u8>, n: u32, rest: seq<u8>)
    ensures |EncU32(n)| == 4
    ensures DecU32(pre + EncU32(n) + rest, |pre|) == Some((n, |pre| + 4))
  {
    var b := pre + EncU32(n) + rest;
    var i := |pre|;
    assert b[i] == n / 0x100_0000 && b[i + 1] == n / 0x1_0000 % 0x100;
    assert b[i + 2] == n / 0x100 % 0x100 && b[i + 3] == n % 0x100;
    var lo := n % 0x100;
    var n1 := n / 0x100;
    assert n == n1 * 0x100 + lo;
    var n2 := n1 / 0x100;
    assert n1 == n2 * 0x100 + n1 % 0x100;
    assert n / 0x1_0000 == n2;
    assert n2 == n / 0x100_0000 * 0x100 + n2 % 0x100;
    assert n / 0x100_0000 == n2 / 0x100;
  }

  lemma TextRoundTrip(pre: seq<u8>, s: Text, rest: seq<u8>)
    ensures |EncText(s)| == 1 + |s| % 0x100
    ensures DecText(pre + EncText(s) + rest, |pre|) == Some((s[..|s| % 0x100], |pre| + 1 + |s| % 0x100))
    ensures Fits(s) ==> DecText(pre + EncText(s) + rest, |pre|) == Some((s, |pre| + 1 + |s|))
  {
    var b := pre + EncText(s) + rest;
    var l := |s| % 0x100;
    assert b[|pre|] == l;
    assert b[|pre| + 1..|pre| + 1 + l] == s[..l];
    if Fits(s) { assert s[..l] == s; }
  }

  // ---------------------------------------------------------------- signed length bytes

  /* Both sides read a text's length byte from a buffer of plain `char` and widen it with
     `(uint64_t) buf[i]` (GameSession.cpp:76, Client.cpp:107). Where `char` is signed, as
     on x86-64, a byte of 128 or more is sign-extended to a size near 2^64. `DecText`
     above reads the byte unsigned, as where `char` is unsigned (AArch64 Linux) and as the
     sender's `(uint8_t) size` means it; the rest of the model uses `DecText`. */

  /** `(uint64_t)` of a signed `char` holding the byte `c`. */
  function SignExtend(c: u8): nat {
    if c < 0x80 then c else 0x1_0000_0000_0000_0000 - 0x100 + c
  }

  /** An upper bound of `std::string::max_size()` on a 64-bit target: `PTRDIFF_MAX`. */
  const MaxStringSize: nat := 0x7FFF_FFFF_FFFF_FFFF

  /** The three ways the server's `receive(std::string&)` can end with a signed length
      byte: a text and the cursor after it, a message the bytes cut short, or the
      `std::length_error` the string constructor throws for a size above `max_size()`. */
  datatype SignedText = SignedRead(text: Text, next: nat) | Incomplete | LengthError

  /** `receive(std::string&)` where `char` is signed. */
  function DecTextSigned(b: seq<u8>, i: nat): SignedText {
    if i >= |b| then Incomplete
    else
      var size := SignExtend(b[i]);
      if size > MaxStringSize then LengthError
      else if i + 1 + size <= |b| then SignedRead(b[i + 1..i + 1 + size], i + 1 + size)
      else Incomplete
  }

  /** Below 128 the signed reading and the unsigned one agree. */
  lemma SignedAgreesBelow128(b: seq<u8>, i: nat)
    requires i < |b| && b[i] < 0x80
    ensures DecText(b, i).Some? <==> DecTextSigned(b, i).SignedRead?
    ensures DecText(b, i).Some? ==>
      DecTextSigned(b, i) == SignedRead(DecText(b, i).value.0, DecText(b, i).value.1)
  {
  }

  /** So every text of fewer than 128 bytes is read back where `char` is signed too. */
  lemma SignedTextRoundTrip(pre: seq<u8>, s: Text, rest: seq<u8>)
    requires |s| < 0x80
    ensures DecTextSigned(pre + EncText(s) + rest, |pre|) == SignedRead(s, |pre| + 1 + |s|)
  {
    TextRoundTrip(pre, s, rest);
    SignedAgreesBelow128(pre + EncText(s) + rest, |pre|);
  }

  /** A text of 128 to 255 bytes is not read back where `char` is signed: the server's
      string constructor throws, and the client asks `read_message` for more bytes than its
      65535-byte `buf` holds. */
  lemma SignedLengthNotReadBack(pre: seq<u8>, s: Text, rest: seq<u8>)
    requires 0x80 <= |s| < 0x100
    ensures DecTextSigned(pre + EncText(s) + rest, |pre|) == LengthError
    ensures SignExtend((pre + EncText(s) + rest)[|pre|]) > 65535
  {
    var b := pre + EncText(s) + rest;
    assert b[|pre|] == |s|;
  }

  lemma PositionRoundTrip(pre: seq<u8>, p: Position, rest: seq<u8>)
    ensures |EncPosition(p)| == 4
    ensures DecPosition(pre + EncPosition(p) + rest, |pre|) == Some((p, |pre| + 4))
  {
    U16RoundTrip(pre, p.x, EncU16(p.y) + rest);
    assert pre + EncPosition(p) + rest == pre + EncU16(p.x) + (EncU16(p.y) + rest);
    U16RoundTrip(pre + EncU16(p.x), p.y, rest);
    assert pre + EncPosition(p) + rest == (pre + EncU16(p.x)) + EncU16(p.y) + rest;
  }

  lemma PlayerRoundTrip(pre: seq<u8>, p: Player, rest: seq<u8>)
    requires Fits(p.name) && Fits(p.address)
    ensures |EncPlayer(p)| == 2 + |p.name| + |p.address|
    ensures DecPlayer(pre + EncPlayer(p) + rest, |pre|) == Some((p, |pre| + |EncPlayer(p)|))
  {
    var t1, t2 := EncText(p.name), EncText(p.address);
    ConcatAssoc(pre, t1, t2);
    ConcatAssoc(pre + t1, t2, rest);
    ConcatAssoc(pre, t1, t2 + rest);
    TextRoundTrip(pre, p.name, t2 + rest);
    TextRoundTrip(pre + t1, p.address, rest);
  }
}
