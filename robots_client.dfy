/** The client's command line (robots-client.cpp): a `host:port` address is split at its
    last colon past the first byte; `check_address` validates it with a stream read of the
    port, while `get_port_from_address` reads the same text with `strtoul`. Text is bytes. */
module RobotsClient {
  import opened Collections
  import opened GameTypes

  const Colon: u8 := 58

  /** `check_port`: accepts exactly the values the cast to `uint16_t` keeps. */
  function CheckPort(port: int): (ok: bool)
    ensures ok <==> port % 0x1_0000 == port
  {
    !(port < 0 || port > 0xFFFF)
  }

  // ------------------------------------------------ the colon search

  /** `size_t colon_idx = address.size() - 1`: the index the search starts from, in
      64-bit unsigned arithmetic. On the empty address it is 2^64 - 1. */
  function ScanStart(a: Text): (k: nat)
    requires |a| < 0x1_0000_0000_0000_0000
    ensures k < 0x1_0000_0000_0000_0000
    ensures k < |a| <==> |a| > 0
    ensures |a| > 0 ==> k == |a| - 1
  {
    (|a| - 1) % 0x1_0000_0000_0000_0000
  }

  /** On the empty address the search's first test `colon_idx > 0` holds and it reads
      `address[colon_idx]` far past the end of the string. */
  lemma EmptyAddressReadsPastEnd(a: Text)
    requires a == []
    ensures ScanStart(a) > 0 && ScanStart(a) >= |a|
  {
  }

  /** Where `while (colon_idx > 0 && address[colon_idx] != ':') colon_idx--;` stops when
      it starts from `k`. */
  function ColonFrom(a: Text, k: nat): (r: nat)
    requires k < |a|
    ensures r <= k
    ensures r > 0 ==> a[r] == Colon
    ensures forall t | r < t <= k :: a[t] != Colon
    decreases k
  {
    if k > 0 && a[k] != Colon then ColonFrom(a, k - 1) else k
  }

  /** The index of the last ':' past the first byte, or 0 when there is none. The empty
      address has none. */
  function LastColon(a: Text): (r: nat)
    ensures r == 0 || (r < |a| && a[r] == Colon)
    ensures forall t | r < t < |a| :: a[t] != Colon
  {
    if |a| == 0 then 0 else ColonFrom(a, |a| - 1)
  }

  /** The search shared by `check_address`, `get_host_from_address` and
      `get_port_from_address`. The empty address is given index 0. */
  method FindColon(a: Text) returns (idx: nat)
    ensures idx == LastColon(a)
  {
    if |a| == 0 {
      return 0;
    }
    idx := |a| - 1;
    while idx > 0 && a[idx] != Colon
      invariant idx < |a|
      invariant ColonFrom(a, idx) == ColonFrom(a, |a| - 1)
      decreases idx
    {
      idx := idx - 1;
    }
  }

  // ------------------------------------------------ reading numbers

  /** `isspace` in the C locale: blank, tab, newline, vertical tab, form feed, return. */
  predicate IsSpace(c: u8) {
    c == 32 || 9 <= c <= 13
  }

  predicate IsDigit(c: u8) {
    48 <= c <= 57
  }

  predicate AllDigits(d: Text) {
    forall t | 0 <= t < |d| :: IsDigit(d[t])
  }

  /** `s` without its leading white space. */
  function SkipSpace(s: Text): Text {
    if |s| > 0 && IsSpace(s[0]) then SkipSpace(s[1..]) else s
  }

  /** How many digits `s` starts with. */
  function DigitCount(s: Text): (n: nat)
    ensures n <= |s| && AllDigits(s[..n])
    ensures n < |s| ==> !IsDigit(s[n])
  {
    if |s| > 0 && IsDigit(s[0]) then
      assert s[..1 + DigitCount(s[1..])] == [s[0]] + s[1..][..DigitCount(s[1..])];
      1 + DigitCount(s[1..])
    else 0
  }

  /** The decimal value of a run of digits. */
  function DigitsValue(d: Text): nat
    requires AllDigits(d)
  {
    if d == [] then 0 else 10 * DigitsValue(d[..|d| - 1]) + (d[|d| - 1] - 48)
  }

  /** An optional leading '+' or '-': whether it was '-', and the text after it. */
  function Unsigned(t: Text): (bool, Text) {
    if |t| > 0 && (t[0] == 43 || t[0] == 45) then (t[0] == 45, t[1..]) else (false, t)
  }

  /** `std::stringstream(s) >> (int&)`: leading white space, an optional sign, then
      decimal digits. None when no digit follows, or when the value is outside `int`;
      whatever follows the digits is left unread. */
  function ParseInt(s: Text): Option<int> {
    var (neg, u) := Unsigned(SkipSpace(s));
    var n := DigitCount(u);
    if n == 0 then None
    else
      var v: int := DigitsValue(u[..n]);
      var x := if neg then -v else v;
      if -0x8000_0000 <= x < 0x8000_0000 then Some(x) else None
  }

  /** `ULONG_MAX` on a 64-bit target. */
  const ULongMax: nat := 0xFFFF_FFFF_FFFF_FFFF

  /** `strtoul(s, NULL, 10)`: the same prefix; 0 when no digit follows; `ULONG_MAX` when
      the value does not fit; a '-' negates the value modulo 2^64. */
  function StrToUl(s: Text): (r: nat)
    ensures r <= ULongMax
  {
    var (neg, u) := Unsigned(SkipSpace(s));
    var n := DigitCount(u);
    if n == 0 then 0
    else
      var v := DigitsValue(u[..n]);
      if v > ULongMax then ULongMax
      else if neg then (0x1_0000_0000_0000_0000 - v) % 0x1_0000_0000_0000_0000
      else v
  }

  /** `n` written in decimal without leading zeros. */
  function Decimal(n: nat): (d: Text)
    ensures |d| > 0 && AllDigits(d)
    ensures DigitsValue(d) == n
    decreases n
  {
    if n < 10 then [48 + n]
    else
      var d := Decimal(n / 10) + [48 + n % 10];
      assert d[..|d| - 1] == Decimal(n / 10);
      d
  }

  lemma {:induction false} DigitCountOfRun(d: Text, rest: Text)
    requires AllDigits(d) && (rest == [] || !IsDigit(rest[0]))
    ensures DigitCount(d + rest) == |d|
    decreases |d|
  {
    if d != [] {
      assert (d + rest)[1..] == d[1..] + rest;
      DigitCountOfRun(d[1..], rest);
    }
  }

  /** Both readers read back a number written in decimal, whatever non-digit follows. */
  lemma ReadsDecimal(n: nat, rest: Text)
    requires n < 0x8000_0000 && (rest == [] || !IsDigit(rest[0]))
    ensures ParseInt(Decimal(n) + rest) == Some(n)
    ensures StrToUl(Decimal(n) + rest) == n
  {
    var d := Decimal(n);
    var s := d + rest;
    assert s[0] == d[0];
    assert SkipSpace(s) == s;
    assert Unsigned(s) == (false, s);
    DigitCountOfRun(d, rest);
    assert s[..|d|] == d;
  }

  /** A port `check_address` accepted is the port `get_port_from_address` reads from the
      same text: both skip the same white space and sign and read the same digits, and a
      negative number passes `check_port` only as "-0". */
  lemma CheckedPortIsRead(s: Text)
    requires ParseInt(s).Some? && CheckPort(ParseInt(s).value)
    ensures StrToUl(s) % 0x1_0000 == ParseInt(s).value
  {
  }

  // ------------------------------------------------ addresses

  /** `get_host_from_address`'s result: the text before the colon found. */
  function HostOf(a: Text): Text {
    a[..LastColon(a)]
  }

  /** The text after the colon found. */
  function PortText(a: Text): Text
    requires |a| > 0
  {
    a[LastColon(a) + 1..]
  }

  /** `get_port_from_address`'s result: `strtoul` of the port text, narrowed to 16 bits. */
  function PortOf(a: Text): u16
    requires |a| > 0
  {
    StrToUl(PortText(a)) % 0x1_0000
  }

  /** The port text passes: it starts with an `int`, and that `int` passes `check_port`. */
  predicate PortOk(p: Text) {
    ParseInt(p).Some? && CheckPort(ParseInt(p).value)
  }

  /** What `check_address` accepts. `ipOk` stands for `boost::asio::ip::address::from_string`
      succeeding, which is asked only of a host that itself holds a colon. */
  predicate AddressOk(a: Text, ipOk: Text -> bool) {
    var k := LastColon(a);
    k > 0 && PortOk(a[k + 1..]) && (Colon in a[..k] ==> ipOk(a[..k]))
  }

  /** `check_address`: true where the source returns, false where it throws
      `validation_error`. */
  method CheckAddress(a: Text, ipOk: Text -> bool) returns (ok: bool)
    ensures ok <==> AddressOk(a, ipOk)
  {
    var colon := FindColon(a);
    if colon <= 0 {
      return false;
    }
    var host := a[..colon];
    var port := a[colon + 1..];
    ok := PortOk(port) && (Colon in host ==> ipOk(host));
  }

  /** `get_host_from_address`. */
  method GetHost(a: Text) returns (host: Text)
    ensures host == HostOf(a)
  {
    var colon := FindColon(a);
    host := a[..colon];
  }

  /** `get_port_from_address`. It needs a non-empty address: on the empty one the search
      reads past the end. */
  method GetPort(a: Text) returns (port: u16)
    requires |a| > 0
    ensures port == PortOf(a)
  {
    var colon := FindColon(a);
    var text := a[colon + 1..];
    assert text == PortText(a);
    port := StrToUl(text) % 0x1_0000;
  }

  /** An address split where a colon was found is the host, the colon and the port text;
      where none was found the host is empty. */
  lemma AddressSplits(a: Text)
    requires |a| > 0
    ensures LastColon(a) > 0 ==> HostOf(a) + [Colon] + PortText(a) == a
    ensures LastColon(a) == 0 ==> HostOf(a) == []
  {
    var k := LastColon(a);
    if k > 0 {
      assert a == a[..k] + [a[k]] + a[k + 1..];
    }
  }

  /** The empty address is rejected once the search gives it index 0. */
  lemma EmptyAddressRejected(ipOk: Text -> bool)
    ensures !AddressOk([], ipOk)
  {
  }

  /** The colon put between a host and a run of digits is the last one. */
  lemma JoinedColon(host: Text, d: Text)
    requires |host| > 0 && AllDigits(d)
    ensures var a := host + [Colon] + d;
      LastColon(a) == |host| && a[..|host|] == host && a[|host| + 1..] == d
  {
    var a := host + [Colon] + d;
    var k := |host|;
    assert a[k] == Colon;
    forall t | k < t < |a| ensures a[t] != Colon {
      assert a[t] == d[t - k - 1];
    }
    assert a[..k] == host;
    assert a[k + 1..] == d;
  }

  /** Between the two validators, a host and a port number written in decimal: the
      address is accepted, and the client uses that host and that port. */
  lemma AddressRoundTrip(host: Text, n: nat, ipOk: Text -> bool)
    requires |host| > 0 && n <= 0xFFFF
    requires Colon in host ==> ipOk(host)
    ensures var a := host + [Colon] + Decimal(n);
      AddressOk(a, ipOk) && HostOf(a) == host && PortOf(a) == n
  {
    var d := Decimal(n);
    var a := host + [Colon] + d;
    JoinedColon(host, d);
    assert d + [] == d;
    ReadsDecimal(n, []);
    assert PortText(a) == d;
    assert PortOk(d);
  }

  /** An accepted address gives the client the port `check_address` checked. */
  lemma CheckedAddressPort(a: Text, ipOk: Text -> bool)
    requires AddressOk(a, ipOk)
    ensures PortOf(a) == ParseInt(PortText(a)).value
  {
    CheckedPortIsRead(PortText(a));
  }
}
