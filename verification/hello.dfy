/** The method negotiation message (src/hello.c; section 3 of RFC 1928). */
module Hellos {
  import opened Bytes
  import opened Machines
  import opened Buffers

  const SOCKS_VERSION: byte := 0x05
  const MNG_VERSION: byte := 0x01
  const NO_AUTHENTICATION: byte := 0x00
  const USERNAME_PASSWORD: byte := 0x02
  const NO_ACCEPTABLE_METHODS: byte := 0xFF

  datatype Phase = Version | NMethods | Methods | Done | UnsupportedVersion

  /** The parser and the answer it is building: wanted is the server's method, chosen the one to be answered. */
  datatype Hello = Hello(phase: Phase, remaining: byte, version: byte, wanted: byte, chosen: byte)

  function Start(version: byte, wanted: byte): Hello {
    Hello(Version, 0, version, wanted, NO_ACCEPTABLE_METHODS)
  }

  /** Decrementing a uint8_t. */
  function Dec(b: byte): byte {
    (b + 255) % 256
  }

  function Feed(p: Hello, b: byte): Hello {
    match p.phase
    case Version => p.(phase := if b == p.version then NMethods else UnsupportedVersion)
    case NMethods => p.(remaining := b, phase := if b <= 0 then Done else Methods)
    case Methods =>
      p.(chosen := if p.wanted == b then b else p.chosen, remaining := Dec(p.remaining),
         phase := if Dec(p.remaining) <= 0 then Done else Methods)
    case Done => p
    case UnsupportedVersion => p
  }

  predicate IsDone(p: Hello) {
    p.phase == Done || p.phase == UnsupportedVersion
  }

  function Take(p: Hello, input: seq<byte>): (Hello, nat) {
    Consume(Feed, IsDone, p, input)
  }

  // ----- The grammar -----

  /** The length of the message that starts the input, once the input is long enough to tell. */
  function MessageLength(input: seq<byte>): nat
    requires |input| >= 2
  {
    2 + input[1] as int
  }

  predicate Complete(version: byte, input: seq<byte>) {
    |input| >= 2 && input[0] == version && |input| >= MessageLength(input)
  }

  /** The methods a complete message offers. */
  function Offered(input: seq<byte>): seq<byte>
    requires |input| >= 2 && |input| >= MessageLength(input)
  {
    input[2..MessageLength(input)]
  }

  lemma {:induction false} MethodsTaken(p: Hello, input: seq<byte>)
    requires p.phase == Methods && p.remaining > 0
    ensures var n := p.remaining as nat;
      if |input| >= n then
        Take(p, input) == (p.(phase := Done, remaining := 0,
                              chosen := if p.wanted in input[..n] then p.wanted else p.chosen), n)
      else
        Take(p, input) == (p.(remaining := n - |input|, chosen := if p.wanted in input then p.wanted else p.chosen),
            |input|)
    decreases |input|
  {
    if input != [] {
      var next := Feed(p, input[0]);
      var n := p.remaining as nat;
      assert input == [input[0]] + input[1..];
      if n <= |input| {
        assert input[..n] == [input[0]] + input[1..][..n - 1];
      }
      if n > 1 {
        MethodsTaken(next, input[1..]);
      }
    }
  }

  /**
   * Exactness. A complete message is taken to its last octet and no further, and answered
   * with the server's method exactly when it was offered; a wrong version stops the parser
   * at once; anything else is taken whole and leaves it waiting.
   */
  lemma TakeExact(version: byte, wanted: byte, input: seq<byte>)
    ensures var r := Take(Start(version, wanted), input);
      && (Complete(version, input) ==>
            r.0.phase == Done && r.1 == MessageLength(input)
            && r.0.chosen == if wanted in Offered(input) then wanted else NO_ACCEPTABLE_METHODS)
      && (input != [] && input[0] != version ==> r.0.phase == UnsupportedVersion && r.1 == 1)
      && (!Complete(version, input) && (input == [] || input[0] == version) ==> !IsDone(r.0) && r.1 == |input|)
  {
    var p := Start(version, wanted);
    if |input| > 0 && input[0] == version {
      var p1 := Feed(p, input[0]);
      assert Take(p, input).0 == Take(p1, input[1..]).0 && Take(p, input).1 == Take(p1, input[1..]).1 + 1;
      if |input| > 1 {
        var p2 := Feed(p1, input[1]);
        assert input[1..][1..] == input[2..];
        if input[1] > 0 {
          assert Take(p1, input[1..]).0 == Take(p2, input[2..]).0
              && Take(p1, input[1..]).1 == Take(p2, input[2..]).1 + 1;
          MethodsTaken(p2, input[2..]);
          if Complete(version, input) {
            assert input[2..][..input[1]] == Offered(input);
          }
        }
      }
    }
  }

  /** hello_marshal: the answer goes into the buffer whole or not at all. */
  method Marshal(b: Buffer, chosen: byte, version: byte) returns (n: int)
    requires b.Valid()
    modifies b, b.data
    ensures b.Valid() && n == if old(b.Value()).Room() < 2 then -1 else 2
    ensures b.Value() == if n == -1 then old(b.Value()) else old(b.Value()).Push([version, chosen])
  {
    var at, room := b.WritePtr();
    if room < 2 {
      return -1;
    }
    b.Append([version, chosen]);
    n := 2;
  }

  // ----- The parser object -----

  class HelloParser {
    var state: Phase
    var remaining: byte
    const version: byte
    const wanted: byte
    /** What on_authentication_method writes through the parser's data pointer. */
    var chosen: byte

    ghost function Value(): Hello
      reads this
    {
      Hello(state, remaining, version, wanted, chosen)
    }

    constructor (version: byte, wanted: byte)
      ensures Value() == Start(version, wanted)
    {
      this.version, this.wanted := version, wanted;
      state, remaining, chosen := Version, 0, NO_ACCEPTABLE_METHODS;
    }

    /** hello_parser_feed. */
    method FeedByte(b: byte) returns (st: Phase)
      modifies this
      ensures Value() == Feed(old(Value()), b) && st == state
    {
      match state {
        case Version =>
          state := if b == version then NMethods else UnsupportedVersion;
        case NMethods =>
          remaining := b;
          state := Methods;
          if remaining <= 0 {
            state := Done;
          }
        case Methods =>
          if wanted == b {
            chosen := b;
          }
          remaining := Dec(remaining);
          if remaining <= 0 {
            state := Done;
          }
        case Done =>
        case UnsupportedVersion =>
      }
      st := state;
    }

    /** hello_consume: takes octets out of the buffer up to the end of the message. */
    method ConsumeFrom(b: Buffer) returns (st: Phase, error: bool)
      requires b.Valid()
      modifies this, b, b.data
      ensures b.Valid() && st == state
      ensures var r := Take(old(Value()), old(b.Value()).contents);
        Value() == r.0 && b.Value() == old(b.Value()).Pop(r.1) && (error <==> r.1 > 0 && st == UnsupportedVersion)
    {
      st, error := state, false;
      var finished := false;
      var more := b.CanRead();
      ghost var input, taken: nat := b.Value().contents, 0;
      while more && !finished
        invariant b.Valid() && st == state && taken <= |input| && b.Value() == old(b.Value()).Pop(taken)
        invariant !finished ==> more == (b.Value().contents != [])
        invariant finished ==> Take(old(Value()), input) == (Value(), taken)
        invariant !finished ==> Take(old(Value()), input).0 == Take(Value(), input[taken..]).0
        invariant !finished ==> Take(old(Value()), input).1 == Take(Value(), input[taken..]).1 + taken
        invariant !finished ==> !error && (taken > 0 ==> !IsDone(Value()))
        invariant finished ==> (error <==> st == UnsupportedVersion) && taken > 0
        decreases |input| - taken
      {
        var c := b.ReadByte();
        st := FeedByte(c);
        if st == UnsupportedVersion {
          error := true;
        }
        if st == Done || st == UnsupportedVersion {
          finished := true;
        }
        more := b.CanRead();
        taken := taken + 1;
      }
    }
  }
}
