/** The SOCKS request parser (src/request_parser.c; sections 4 and 5 of RFC 1928). */
module RequestParsers {
  import opened Bytes
  import opened Machines
  import opened Buffers

  const SOCKS_VERSION: byte := 0x05
  const CMD_CONNECT: byte := 0x01
  const ATYP_IPV4: byte := 0x01
  const ATYP_DOMAIN: byte := 0x03
  const ATYP_IPV6: byte := 0x04
  const IPV4_LEN: byte := 4
  const IPV6_LEN: byte := 16
  const MAX_FQDN_SIZE: byte := 0xFF

  datatype Phase =
    | Version | Cmd | Rsv | Atyp | DestAddr | DestAddrFqdn | DestPort
    | Done
    | Error | ErrorCmd | ErrorType | ErrorVersion

  /**
   * The parser and the request it fills in: addr are the address octets that count (for a
   * domain name, the first fqdn.size ones), port the port octets in network order.
   */
  datatype Parser = Parser(phase: Phase, remaining: byte, got: nat, cmd: byte, atyp: byte, addr: seq<byte>,
      port: seq<byte>)

  const START := Parser(Version, 0, 0, 0, 0, [], [])

  /** remaining_set. */
  function Expect(p: Parser, n: byte, phase: Phase): Parser {
    p.(remaining := n, got := 0, phase := phase)
  }

  function FeedAtyp(p: Parser, b: byte): Parser {
    var q := p.(atyp := b, addr := []);
    if b == ATYP_IPV4 then Expect(q, IPV4_LEN, DestAddr)
    else if b == ATYP_DOMAIN then q.(phase := DestAddrFqdn)
    else if b == ATYP_IPV6 then Expect(q, IPV6_LEN, DestAddr)
    else q.(phase := ErrorType)
  }

  function FeedAddr(p: Parser, b: byte): Parser {
    var q := p.(addr := if p.got < p.remaining then p.addr + [b] else p.addr, got := p.got + 1);
    if q.got >= q.remaining then Expect(q, 2, DestPort).(port := []) else q
  }

  function FeedPort(p: Parser, b: byte): Parser {
    var q := p.(port := p.port + [b], got := p.got + 1);
    if q.got >= q.remaining then q.(phase := Done) else q
  }

  /** request_parser_feed. */
  function Feed(p: Parser, b: byte): Parser {
    match p.phase
    case Version => p.(phase := if b == SOCKS_VERSION then Cmd else ErrorVersion)
    case Cmd => if b == CMD_CONNECT then p.(cmd := b, phase := Rsv) else p.(phase := ErrorCmd)
    case Rsv => p.(phase := Atyp)
    case Atyp => FeedAtyp(p, b)
    case DestAddr => FeedAddr(p, b)
    case DestAddrFqdn => if b > MAX_FQDN_SIZE - 1 then p.(phase := Error) else Expect(p, b, DestAddr)
    case DestPort => FeedPort(p, b)
    case _ => p
  }

  /** request_is_done: only request_done ends the loop, so a rejected request keeps taking octets. */
  predicate IsDone(p: Parser) {
    p.phase == Done
  }

  predicate Rejected(p: Parser) {
    p.phase == Error || p.phase == ErrorCmd || p.phase == ErrorType || p.phase == ErrorVersion
  }

  function Take(p: Parser, input: seq<byte>): (Parser, nat) {
    Consume(Feed, IsDone, p, input)
  }

  // ----- Encoding -----

  datatype Address = IPv4(octets: seq<byte>) | IPv6(octets: seq<byte>) | Domain(octets: seq<byte>)

  predicate Encodable(a: Address) {
    match a
    case IPv4(o) => |o| == 4
    case IPv6(o) => |o| == 16
    case Domain(o) => |o| <= 255
  }

  function TypeOf(a: Address): byte {
    match a
    case IPv4(_) => ATYP_IPV4
    case IPv6(_) => ATYP_IPV6
    case Domain(_) => ATYP_DOMAIN
  }

  /** DST.ADDR as section 5 of RFC 1928 lays it out. */
  function EncodeAddress(a: Address): seq<byte>
    requires Encodable(a)
  {
    match a
    case IPv4(o) => o
    case IPv6(o) => o
    case Domain(o) => [|o| as byte] + o
  }

  /** A CONNECT request; port is in network order. */
  function EncodeRequest(rsv: byte, a: Address, port: (byte, byte)): seq<byte>
    requires Encodable(a)
  {
    [SOCKS_VERSION, CMD_CONNECT, rsv, TypeOf(a)] + EncodeAddress(a) + [port.0, port.1]
  }

  function Parsed(a: Address, port: (byte, byte)): Parser {
    Parser(Done, 2, 2, CMD_CONNECT, TypeOf(a), a.octets, [port.0, port.1])
  }

  // ----- Exactness -----

  /** Taking a first part that does not end the request, then the rest. */
  lemma TakeThen(p: Parser, a: seq<byte>, q: Parser, b: seq<byte>)
    requires !IsDone(p) && Take(p, a) == (q, |a|) && !IsDone(q)
    ensures Take(p, a + b) == (Take(q, b).0, |a| + Take(q, b).1)
  {
    ConsumeSplit(Feed, IsDone, p, a, b);
  }

  lemma TakeOne(p: Parser, b: byte)
    ensures Take(p, [b]) == (Feed(p, b), 1)
  {
    ConsumeOne(Feed, IsDone, p, b);
  }

  /** The address octets, from any point inside the address: all of them lead to the port. */
  lemma {:induction false} AddressTaken(p: Parser, o: seq<byte>)
    requires p.phase == DestAddr && |o| > 0 && p.got + |o| <= p.remaining
    ensures Take(p, o) == (if p.got + |o| == p.remaining
                           then p.(phase := DestPort, remaining := 2, got := 0, addr := p.addr + o, port := [])
                           else p.(got := p.got + |o|, addr := p.addr + o), |o|)
    decreases |o|
  {
    assert o == [o[0]] + o[1..];
    assert p.addr + o == (p.addr + [o[0]]) + o[1..];
    if |o| > 1 {
      AddressTaken(Feed(p, o[0]), o[1..]);
    } else {
      TakeOne(p, o[0]);
      assert o == [o[0]];
    }
  }

  lemma PortTaken(p: Parser, port: (byte, byte), rest: seq<byte>)
    requires p.phase == DestPort && p.remaining == 2 && p.got == 0 && p.port == []
    ensures Take(p, [port.0, port.1] + rest) == (p.(phase := Done, got := 2, port := [port.0, port.1]), 2)
  {
    var q := Feed(p, port.0);
    var s := [port.0, port.1] + rest;
    assert s[0] == port.0 && s[1..] == [port.1] + rest && ([port.1] + rest)[0] == port.1;
    assert [] + [port.0] + [port.1] == [port.0, port.1];
    assert Take(q, [port.1] + rest) == (Feed(q, port.1), 1);
  }

  /** The first four octets of a well-formed request. */
  lemma HeaderTaken(rsv: byte, a: Address)
    ensures Take(START, [SOCKS_VERSION, CMD_CONNECT, rsv, TypeOf(a)])
         == (FeedAtyp(START.(phase := Atyp, cmd := CMD_CONNECT), TypeOf(a)), 4)
  {
    var p1, p2 := START.(phase := Cmd), START.(phase := Rsv, cmd := CMD_CONNECT);
    var p3 := p2.(phase := Atyp);
    TakeOne(START, SOCKS_VERSION);
    TakeOne(p1, CMD_CONNECT);
    TakeOne(p2, rsv);
    TakeOne(p3, TypeOf(a));
    TakeThen(p2, [rsv], p3, [TypeOf(a)]);
    TakeThen(p1, [CMD_CONNECT], p2, [rsv] + [TypeOf(a)]);
    TakeThen(START, [SOCKS_VERSION], p1, [CMD_CONNECT] + ([rsv] + [TypeOf(a)]));
    assert [SOCKS_VERSION] + ([CMD_CONNECT] + ([rsv] + [TypeOf(a)])) == [SOCKS_VERSION, CMD_CONNECT, rsv, TypeOf(a)];
  }

  /** Where the parser stands once it knows how many address octets to expect. */
  function Expecting(a: Address): Parser
    requires Encodable(a)
  {
    Parser(DestAddr, |a.octets| as byte, 0, CMD_CONNECT, TypeOf(a), [], [])
  }

  /** The octets in front of the address proper. */
  function Head(rsv: byte, a: Address): seq<byte>
    requires Encodable(a)
  {
    [SOCKS_VERSION, CMD_CONNECT, rsv, TypeOf(a)] + (if a.Domain? then [|a.octets| as byte] else [])
  }

  lemma RequestSplit(rsv: byte, a: Address, port: (byte, byte), rest: seq<byte>)
    requires Encodable(a)
    ensures EncodeRequest(rsv, a, port) + rest == Head(rsv, a) + (a.octets + ([port.0, port.1] + rest))
    ensures |EncodeRequest(rsv, a, port)| == |Head(rsv, a)| + |a.octets| + 2
  {
  }

  lemma LengthTaken(rsv: byte, a: Address)
    requires Encodable(a) && (a.Domain? ==> |a.octets| < MAX_FQDN_SIZE)
    ensures Take(START, Head(rsv, a)) == (Expecting(a), |Head(rsv, a)|)
  {
    HeaderTaken(rsv, a);
    var four := [SOCKS_VERSION, CMD_CONNECT, rsv, TypeOf(a)];
    var p := FeedAtyp(START.(phase := Atyp, cmd := CMD_CONNECT), TypeOf(a));
    if a.Domain? {
      TakeOne(p, |a.octets| as byte);
      TakeThen(START, four, p, [|a.octets| as byte]);
    } else {
      assert Head(rsv, a) == four;
    }
  }

  /**
   * Round trip: whatever follows it, an encoded CONNECT request is taken to its last octet and
   * no further, and yields the same address and port.
   */
  lemma RoundTrip(rsv: byte, a: Address, port: (byte, byte), rest: seq<byte>)
    requires Encodable(a) && (a.Domain? ==> 1 <= |a.octets| < MAX_FQDN_SIZE)
    ensures Take(START, EncodeRequest(rsv, a, port) + rest) == (Parsed(a, port), |EncodeRequest(rsv, a, port)|)
  {
    hide Take, Head, EncodeRequest;
    var tail := [port.0, port.1] + rest;
    var p := Expecting(a);
    var q := p.(phase := DestPort, remaining := 2, got := 0, addr := a.octets, port := []);
    RequestSplit(rsv, a, port, rest);
    LengthTaken(rsv, a);
    AddressTaken(p, a.octets);
    assert [] + a.octets == a.octets;
    PortTaken(q, port, rest);
    TakeThen(p, a.octets, q, tail);
    TakeThen(START, Head(rsv, a), p, a.octets + tail);
  }

  /** Rejection is final: the parser takes everything from then on and is never done. */
  lemma {:induction false} RejectedForever(p: Parser, input: seq<byte>)
    requires Rejected(p)
    ensures Take(p, input) == (p, |input|)
    decreases |input|
  {
    if input != [] {
      RejectedForever(p, input[1..]);
    }
  }

  /** A domain name of 255 octets, which section 5 of RFC 1928 allows, is rejected at its length octet. */
  lemma LongestDomainRejected(rsv: byte, o: seq<byte>, port: (byte, byte), rest: seq<byte>)
    requires |o| == 255
    ensures Rejected(Take(START, EncodeRequest(rsv, Domain(o), port) + rest).0)
  {
    var a := Domain(o);
    var four := [SOCKS_VERSION, CMD_CONNECT, rsv, TypeOf(a)];
    var tail := [255 as byte] + (o + ([port.0, port.1] + rest));
    var p := FeedAtyp(START.(phase := Atyp, cmd := CMD_CONNECT), TypeOf(a));
    HeaderTaken(rsv, a);
    TakeThen(START, four, p, tail);
    assert tail[0] == 255 && tail[1..] == o + ([port.0, port.1] + rest);
    RejectedForever(Feed(p, 255), tail[1..]);
    assert EncodeRequest(rsv, a, port) + rest == four + tail;
  }

  /** After an empty domain name the parser still takes an address octet, so it misses the end of the request. */
  lemma EmptyDomainOverreads(rsv: byte, port: (byte, byte))
    ensures var r := Take(START, EncodeRequest(rsv, Domain([]), port)); !IsDone(r.0)
  {
    var a := Domain([]);
    var head := Head(rsv, a);
    var p := Expecting(a);
    var q := p.(phase := DestPort, remaining := 2, got := 0);
    LengthTaken(rsv, a);
    TakeOne(p, port.0);
    TakeOne(q, port.1);
    TakeThen(p, [port.0], q, [port.1]);
    TakeThen(START, head, p, [port.0] + [port.1]);
    RequestSplit(rsv, a, port, []);
    assert EncodeRequest(rsv, a, port) + [] == EncodeRequest(rsv, a, port);
    assert [] + ([port.0, port.1] + []) == [port.0] + [port.1];
  }

  /** Exactly which requests survive: all but those for a domain name of 0 or 255 octets. */
  lemma RoundTripIff(rsv: byte, a: Address, port: (byte, byte))
    requires Encodable(a)
    ensures Take(START, EncodeRequest(rsv, a, port)) == (Parsed(a, port), |EncodeRequest(rsv, a, port)|)
       <==> (a.Domain? ==> 1 <= |a.octets| < MAX_FQDN_SIZE)
  {
    var e := EncodeRequest(rsv, a, port);
    assert e + [] == e;
    if a.Domain? && |a.octets| == 0 {
      assert a == Domain([]);
      EmptyDomainOverreads(rsv, port);
    } else if a.Domain? && |a.octets| == 255 {
      LongestDomainRejected(rsv, a.octets, port, []);
    } else {
      RoundTrip(rsv, a, port, []);
    }
  }

  // ----- Soundness -----

  function Lead(rsv: byte, atyp: byte, n: byte): seq<byte> {
    [SOCKS_VERSION, CMD_CONNECT, rsv, atyp] + (if atyp == ATYP_DOMAIN then [n] else [])
  }

  /**
   * The octets a parser that has not rejected anything has taken, given the reserved octet
   * and the stray octet that an empty domain name swallows.
   */
  function Text(p: Parser, rsv: byte, stray: seq<byte>): seq<byte>
    requires |p.addr| < 255
  {
    match p.phase
    case Cmd => [SOCKS_VERSION]
    case Rsv => [SOCKS_VERSION, CMD_CONNECT]
    case Atyp => [SOCKS_VERSION, CMD_CONNECT, rsv]
    case DestAddrFqdn => [SOCKS_VERSION, CMD_CONNECT, rsv, ATYP_DOMAIN]
    case DestAddr => Lead(rsv, p.atyp, p.remaining) + p.addr
    case DestPort => Lead(rsv, p.atyp, |p.addr|) + p.addr + stray + p.port
    case Done => Lead(rsv, p.atyp, |p.addr|) + p.addr + stray + p.port
    case _ => []
  }

  function AddressLength(atyp: byte): byte {
    if atyp == ATYP_IPV4 then IPV4_LEN else IPV6_LEN
  }

  ghost predicate WellTyped(p: Parser) {
    match p.phase
    case DestAddr =>
      p.got == |p.addr| && (p.got < p.remaining || (p.got == 0 && p.atyp == ATYP_DOMAIN)) && p.remaining < 255
      && p.atyp in {ATYP_IPV4, ATYP_DOMAIN, ATYP_IPV6}
      && (p.atyp != ATYP_DOMAIN ==> p.remaining == AddressLength(p.atyp))
    case DestPort => p.got == |p.port| < 2 == p.remaining && AddressOk(p)
    case Done => |p.port| == 2 && AddressOk(p) && p.remaining == 2 == p.got
    case DestAddrFqdn => p.atyp == ATYP_DOMAIN && p.addr == [] && p.port == []
    case _ => p.addr == [] && p.port == []
  }

  ghost predicate AddressOk(p: Parser) {
    p.atyp in {ATYP_IPV4, ATYP_DOMAIN, ATYP_IPV6} && |p.addr| < 255
    && (p.atyp != ATYP_DOMAIN ==> |p.addr| == AddressLength(p.atyp))
  }

  /** s is exactly what brought the parser here. */
  ghost predicate Spells(p: Parser, s: seq<byte>, rsv: byte, stray: seq<byte>) {
    && WellTyped(p) && |p.addr| < 255
    && (p.phase != Version && p.phase != Cmd && !Rejected(p) ==> p.cmd == CMD_CONNECT)
    && (p.phase == DestPort || p.phase == Done ==> |stray| == if p.atyp == ATYP_DOMAIN && p.addr == [] then 1 else 0)
    && (!Rejected(p) ==> s == Text(p, rsv, stray))
  }

  lemma AddrSpells(p: Parser, s: seq<byte>, rsv: byte, b: byte) returns (stray: seq<byte>)
    requires p.phase == DestAddr && Spells(p, s, rsv, [])
    ensures Spells(Feed(p, b), s + [b], rsv, stray)
  {
    stray := if p.remaining == 0 then [b] else [];
    var q := Feed(p, b);
    var lead := Lead(rsv, p.atyp, p.remaining);
    assert (lead + p.addr) + [b] == lead + (p.addr + [b]);
    if q.phase == DestPort {
      assert p.remaining > 0 ==> (lead + q.addr) + [] + [] == lead + (p.addr + [b]);
      assert p.remaining == 0 ==> lead + [] + [b] + [] == (lead + []) + [b];
    }
  }

  lemma PortSpells(p: Parser, s: seq<byte>, rsv: byte, stray: seq<byte>, b: byte)
    requires p.phase == DestPort && Spells(p, s, rsv, stray)
    ensures Spells(Feed(p, b), s + [b], rsv, stray)
  {
  }

  lemma StepSpells(p: Parser, s: seq<byte>, rsv: byte, stray: seq<byte>, b: byte)
      returns (rsv': byte, stray': seq<byte>)
    requires Spells(p, s, rsv, stray) && !IsDone(p)
    ensures Spells(Feed(p, b), s + [b], rsv', stray')
  {
    rsv', stray' := if p.phase == Rsv then b else rsv, [];
    match p.phase
    case DestAddr =>
      stray' := AddrSpells(p, s, rsv, b);
    case DestPort =>
      stray' := stray;
      PortSpells(p, s, rsv, stray, b);
    case Atyp =>
      assert Lead(rsv, b, Feed(p, b).remaining) + [] == Lead(rsv, b, Feed(p, b).remaining);
    case DestAddrFqdn =>
      assert Lead(rsv, ATYP_DOMAIN, b) + [] == s + [b];
    case _ =>
  }

  lemma {:induction false} TakeSpells(p: Parser, s: seq<byte>, rsv: byte, stray: seq<byte>, input: seq<byte>)
    returns (rsv': byte, stray': seq<byte>)
    requires Spells(p, s, rsv, stray) && !IsDone(p)
    ensures var r := Take(p, input); Spells(r.0, s + input[..r.1], rsv', stray')
    decreases |input|
  {
    hide Spells, Feed;
    if input == [] {
      rsv', stray' := rsv, stray;
      assert s + [] == s;
    } else {
      var q := Feed(p, input[0]);
      rsv', stray' := StepSpells(p, s, rsv, stray, input[0]);
      var r := Take(p, input);
      if IsDone(q) {
        assert input[..1] == [input[0]];
      } else {
        var t := s + [input[0]];
        rsv', stray' := TakeSpells(q, t, rsv', stray', input[1..]);
        assert t + input[1..][..r.1 - 1] == s + input[..r.1];
      }
    }
  }

  /**
   * Only requests are accepted: what was taken is an encoding of the result, or that of an empty
   * domain name plus one octet.
   */
  lemma AcceptedIsRequest(input: seq<byte>) returns (rsv: byte, a: Address, port: (byte, byte), stray: seq<byte>)
    requires IsDone(Take(START, input).0)
    ensures Encodable(a) && Take(START, input).0 == Parsed(a, port)
    ensures input[..Take(START, input).1] == Head(rsv, a) + a.octets + stray + [port.0, port.1]
    ensures |stray| == if a == Domain([]) then 1 else 0
  {
    rsv, stray := TakeSpells(START, [], 0, [], input);
    var p := Take(START, input).0;
    a := if p.atyp == ATYP_IPV4 then IPv4(p.addr) else if p.atyp == ATYP_DOMAIN then Domain(p.addr) else IPv6(p.addr);
    port := (p.port[0], p.port[1]);
    assert p.port == [port.0, port.1];
    assert [] + input[..Take(START, input).1] == input[..Take(START, input).1];
  }

  // ----- The parser object -----

  class RequestParser {
    var state: Phase
    var remaining: byte
    var got: byte
    var cmd: byte
    var atyp: byte
    /** The address field of each type of request, and the length of a domain name. */
    const v4: array<byte>
    const v6: array<byte>
    const host: array<byte>
    var hostSize: byte
    const port: array<byte>

    /** How many octets of the address field belong to the address so far. */
    function AddrCount(): nat
      reads this
    {
      if state == DestAddr then (if got < remaining then got else remaining)
      else if state != DestPort && state != Done then 0
      else if atyp == ATYP_DOMAIN then hostSize else Field().Length
    }

    function Field(): array<byte>
      reads this`atyp
    {
      if atyp == ATYP_IPV4 then v4 else if atyp == ATYP_DOMAIN then host else v6
    }

    ghost predicate Sized()
      reads this
    {
      && v4.Length == 4 && v6.Length == 16 && host.Length == 255 && port.Length == 2
      && v4 != v6 && v4 != host && v4 != port && v6 != host && v6 != port && host != port
      && AddrCount() <= Field().Length && (state == DestPort || state == Done ==> got <= 2)
    }

    ghost function Value(): Parser
      requires Sized()
      reads this, v4, v6, host, port
    {
      Parser(state, remaining, got, cmd, atyp, Field()[..AddrCount()],
             if state == DestPort || state == Done then port[..got] else [])
    }

    ghost predicate Valid()
      reads this, v4, v6, host, port
      ensures Valid() ==> Sized()
    {
      Sized() && WellTyped(Value()) && (state == DestAddr && atyp == ATYP_DOMAIN ==> hostSize == remaining)
    }

    /** request_parser_init. */
    constructor ()
      ensures Valid() && Value() == START && fresh(v4) && fresh(v6) && fresh(host) && fresh(port)
    {
      state, remaining, got, cmd, atyp, hostSize := Version, 0, 0, 0, 0, 0;
      v4 := new byte[4];
      v6 := new byte[16];
      host := new byte[255];
      port := new byte[2];
    }

    method SetRemaining(n: byte)
      modifies this`remaining, this`got
      ensures remaining == n && got == 0
    {
      remaining := n;
      got := 0;
    }

    /** address_type; the address is zeroed field by field. */
    method AddressType(b: byte)
      requires Valid() && state == Phase.Atyp
      modifies this, v4, v6
      ensures Valid() && Value() == FeedAtyp(old(Value()), b)
    {
      atyp := b;
      if b == ATYP_IPV4 {
        SetRemaining(IPV4_LEN);
        forall i | 0 <= i < 4 { v4[i] := 0; }
        state := DestAddr;
      } else if b == ATYP_DOMAIN {
        state := DestAddrFqdn;
      } else if b == ATYP_IPV6 {
        SetRemaining(IPV6_LEN);
        forall i | 0 <= i < 16 { v6[i] := 0; }
        state := DestAddr;
      } else {
        state := ErrorType;
      }
    }

    /** dest_address_fqdn. */
    method DomainLength(b: byte)
      requires Valid() && state == DestAddrFqdn
      modifies this, host
      ensures Valid() && Value() == Feed(old(Value()), b)
    {
      if b > MAX_FQDN_SIZE - 1 {
        state := Error;
      } else {
        SetRemaining(b);
        if remaining > 0 {
          host[remaining - 1] := 0;
        }
        hostSize := b;
        state := DestAddr;
      }
    }

    /** dest_addr. */
    method AddressByte(b: byte)
      requires Valid() && state == DestAddr
      modifies this, v4, v6, host
      ensures Valid() && Value() == FeedAddr(old(Value()), b)
    {
      ghost var before := Field()[..AddrCount()];
      Field()[got] := b;
      got := got + 1;
      assert Field()[..AddrCount()] == if old(got) < remaining then before + [b] else before;
      if got >= remaining {
        SetRemaining(2);
        state := DestPort;
      }
    }

    /** dest_port. */
    method PortByte(b: byte)
      requires Valid() && state == DestPort
      modifies this, port
      ensures Valid() && Value() == FeedPort(old(Value()), b)
    {
      port[got] := b;
      got := got + 1;
      assert port[..got] == old(port[..got]) + [b];
      if got >= remaining {
        state := Done;
      }
    }

    /** request_parser_feed. */
    method FeedByte(b: byte)
      requires Valid()
      modifies this, v4, v6, host, port
      ensures Valid()
      ensures Value() == Feed(old(Value()), b)
    {
      match state
      case Version => state := if b == SOCKS_VERSION then Cmd else ErrorVersion;
      case Cmd =>
        if b == CMD_CONNECT {
          cmd := b;
          state := Rsv;
        } else {
          state := ErrorCmd;
        }
      case Rsv => state := Atyp;
      case Atyp => AddressType(b);
      case DestAddr => AddressByte(b);
      case DestAddrFqdn => DomainLength(b);
      case DestPort => PortByte(b);
      case _ =>
    }

    /** request_consume. */
    method ConsumeFrom(b: Buffer)
      requires Valid()
      requires b.Valid() && b.data !in {v4, v6, host, port}
      modifies this, v4, v6, host, port, b, b.data
      ensures Valid() && b.Valid()
      ensures var r := Take(old(Value()), old(b.Value()).contents);
        Value() == r.0 && b.Value() == old(b.Value()).Pop(r.1)
    {
      hide Feed, RequestParser.Valid, RequestParser.Sized, RequestParser.AddrCount, RequestParser.Field;
      var finished := false;
      var more := b.CanRead();
      ghost var start, input, taken: nat := Value(), b.Value().contents, 0;
      while more && !finished
        invariant Valid() && b.Valid()
        invariant taken <= |input| && b.Value() == old(b.Value()).Pop(taken)
        invariant !finished ==> more == (b.Value().contents != [])
        invariant finished ==> Take(start, input).0 == Value() && Take(start, input).1 == taken
        invariant !finished ==> Take(start, input).0 == Take(Value(), input[taken..]).0
        invariant !finished ==> Take(start, input).1 == Take(Value(), input[taken..]).1 + taken
        decreases |input| - taken
      {
        var c := b.ReadByte();
        FeedByte(c);
        if state == Done {
          finished := true;
        }
        more := b.CanRead();
        taken := taken + 1;
      }
    }
  }
}
