/**
 * What a connection's octets become: nothing the client pipelines is lost, nothing reaches it
 * but replies and the origin's octets, and no request is served to a client that did not
 * authenticate.
 */
module ConnectionLogs {
  import opened Bytes
  import opened Machines
  import opened Buffers
  import opened Selectors
  import opened Connections
  import ClientWire
  import FieldParsers
  import Hellos
  import Registries
  import Relays
  import RequestParsers

  // ----- Streams -----

  /**
   * What was read from the client is what the three parsers ate, what went to the origin and what
   * is buffered, in that order.
   */
  predicate Upstream(c: Conn) {
    c.log.received
      == c.log.eatenHello + c.log.eatenAuth + c.log.eatenRequest + c.log.forwarded + c.readBuffer.contents
  }

  /** What was sent to the client, and what is buffered for it, is the replies followed by what the origin sent. */
  predicate Downstream(c: Conn) {
    c.log.sent + c.writeBuffer.contents == c.log.replies + c.log.originReceived
  }

  /** Each part of the stream begins only when the ones before it are over. */
  predicate InTurn(c: Conn) {
    && (c.state in {HelloRead, HelloWrite} ==> c.log.eatenAuth == [])
    && (c.state in {HelloRead, HelloWrite, UserpassRead, UserpassWrite} ==> c.log.eatenRequest == [])
    && (c.state in {HelloRead, HelloWrite, UserpassRead, UserpassWrite, RequestRead, RequestResolv, RequestConnecting,
        RequestWrite}
        ==> c.log.forwarded == [] && c.log.originReceived == [])
  }

  predicate Streams(c: Conn) {
    Upstream(c) && Downstream(c) && InTurn(c)
  }

  /** All a connection's streams are made of is as it was. */
  predicate SameStreams(c: Conn, d: Conn) {
    && d.log.received == c.log.received && d.log.eatenHello == c.log.eatenHello && d.log.eatenAuth == c.log.eatenAuth
    && d.log.eatenRequest == c.log.eatenRequest && d.log.forwarded == c.log.forwarded
    && d.log.originReceived == c.log.originReceived && d.log.replies == c.log.replies && d.log.sent == c.log.sent
    && d.readBuffer.contents == c.readBuffer.contents && d.writeBuffer.contents == c.writeBuffer.contents
  }

  lemma ReceivedStreams(c: Conn, chunk: seq<byte>)
    requires Streams(c) && |chunk| <= c.readBuffer.Room()
    ensures Streams(Received(c, chunk))
  {
  }

  lemma SentStreams(c: Conn, n: nat)
    requires Streams(c) && n <= |c.writeBuffer.contents|
    ensures Streams(Sent(c, n))
  {
  }

  lemma MarshalStreams(c: Conn, reply: seq<byte>)
    requires Streams(c) && c.log.originReceived == []
    ensures Streams(Marshal(c, reply))
  {
    assert c.log.replies + [] == c.log.replies && (c.log.replies + reply) + [] == c.log.replies + reply;
    assert (c.log.sent + c.writeBuffer.contents) + reply == c.log.sent + (c.writeBuffer.contents + reply);
  }

  lemma EatHelloStreams(c: Conn)
    requires Streams(c) && c.state == HelloRead
    ensures Streams(EatHello(c))
  {
  }

  lemma EatAuthStreams(c: Conn)
    requires Streams(c) && c.state == UserpassRead
    ensures Streams(EatAuth(c))
  {
  }

  lemma EatRequestStreams(c: Conn)
    requires Streams(c) && c.state == RequestRead
    ensures Streams(EatRequest(c))
  {
  }

  lemma SameStreamsHold(c: Conn, d: Conn)
    requires Streams(c) && SameStreams(c, d) && d.state == c.state
    ensures Streams(d)
  {
  }

  lemma ErrorToClientStreams(w: World, s: byte)
    requires Streams(w.c) && w.c.log.originReceived == []
    ensures var w' := ErrorToClient(w, s);
      Streams(w'.c) && w'.c.state == w.c.state && w'.c.log.originReceived == []
  {
    MarshalStreams(w.c, Reply(s));
  }

  lemma ConnectStreams(w: World, id: nat, key: int, e: Env)
    requires Streams(w.c) && w.c.log.originReceived == []
    ensures Streams(Connect(w, id, key, e).0.c) && Connect(w, id, key, e).0.c.state == w.c.state
  {
    hide ErrorToClient, Upstream, Downstream;
    if e.connect.Failed? || w.c.originFd == -1 {
      var s := ErrnoToSocks(if w.c.originFd == -1 then Other else e.connect.errno);
      SameStreamsHold(w.c, WithStatus(w, s).c);
      ErrorToClientStreams(WithStatus(w, s), s);
    } else if e.connect.AtOnce? {
      AtOnceStreams(w, id, key);
    } else if !CanWatch(w, key) {
      SameStreamsHold(w.c, WithStatus(w, GENERAL_FAILURE).c);
      ErrorToClientStreams(WithStatus(w, GENERAL_FAILURE), GENERAL_FAILURE);
    } else {
      var w1 := Watch(w, key, OP_NOOP);
      if Register(w1.table, w.c.originFd, SOCKS5_HANDLER, OP_WRITE, id).0 == Success {
        SameStreamsHold(w.c, Connect(w, id, key, e).0.c);
      } else {
        SameStreamsHold(w.c, WithStatus(w1, GENERAL_FAILURE).c);
        ErrorToClientStreams(WithStatus(w1, GENERAL_FAILURE), GENERAL_FAILURE);
        SameStreamsHold(ErrorToClient(WithStatus(w1, GENERAL_FAILURE), GENERAL_FAILURE).c, Connect(w, id, key, e).0.c);
      }
    }
  }

  lemma AtOnceStreams(w: World, id: nat, key: int)
    requires Streams(w.c) && w.c.log.originReceived == []
    ensures Streams(ConnectedAtOnce(w, id, key).0.c) && ConnectedAtOnce(w, id, key).0.c.state == w.c.state
  {
    hide ErrorToClient, Upstream, Downstream;
    var w0 := w.(c := w.c.(references := w.c.references + 1));
    var w1 := Watch(w0, key, OP_READ);
    SameStreamsHold(w.c, w0.c);
    SameStreamsHold(w.c, WithStatus(w0, GENERAL_FAILURE).c);
    ErrorToClientStreams(WithStatus(w0, GENERAL_FAILURE), GENERAL_FAILURE);
    ErrorToClientStreams(WithStatus(w1, GENERAL_FAILURE), GENERAL_FAILURE);
  }

  lemma ConnectingInitStreams(w: World, id: nat, key: int, e: Env)
    requires Streams(w.c) && w.c.state == RequestConnecting
    ensures Streams(ConnectingInit(w, id, key, e).c)
  {
    hide ErrorToClient, Connect, Upstream, Downstream;
    var w0 := WithStatus(w, 0x00);
    if e.socket.None? {
      var w1 := w0.(c := w0.c.(originFd := -1, status := GENERAL_FAILURE));
      SameStreamsHold(w.c, w1.c);
      ErrorToClientStreams(w1, GENERAL_FAILURE);
    } else {
      var w1 := w0.(c := w0.c.(originFd := e.socket.value), open := w0.open[e.socket.value := id]);
      SameStreamsHold(w.c, w1.c);
      SameStreamsHold(w.c, WithStatus(w1, GENERAL_FAILURE).c);
      ErrorToClientStreams(WithStatus(w1, GENERAL_FAILURE), GENERAL_FAILURE);
      var r := Connect(w1, id, key, e);
      ConnectStreams(w1, id, key, e);
      SameStreamsHold(r.0.c, WithStatus(r.0, r.1).c);
    }
  }

  lemma TryNextStreams(w: World, id: nat, key: int, e: Env)
    requires Streams(w.c) && w.c.log.originReceived == [] && HasMore(w.c)
    ensures Streams(TryNext(w, id, key, e).0.c) && TryNext(w, id, key, e).0.c.state == w.c.state
  {
    hide Connect, Upstream, Downstream;
    var w1 := w.(c := w.c.(more := Some(w.c.more.value - 1)));
    SameStreamsHold(w.c, w1.c);
    ConnectStreams(w1, id, key, e);
  }

  lemma DropSame(w: World, id: nat, fd: int)
    ensures var d := Close(Drop(w, id, fd), id, fd).c;
      d == w.c.(references := d.references, log := w.c.log.(leaked := d.log.leaked, frees := d.log.frees))
  {
  }

  lemma AfterFailureStreams(w: World, id: nat, key: int, e: Env)
    requires Streams(w.c) && w.c.log.originReceived == []
    ensures Streams(AfterFailure(w, id, key, e).0.c) && AfterFailure(w, id, key, e).0.c.state == w.c.state
  {
    hide Connect, ErrorToClient, Upstream, Downstream, TryNext, Close, Drop;
    if HasMore(w.c) {
      TryNextStreams(w, id, key, e);
    } else {
      var w1 := Close(Drop(w, id, w.c.originFd), id, w.c.originFd);
      var w2 := w1.(c := w1.c.(originFd := -1));
      DropSame(w, id, w.c.originFd);
      SameStreamsHold(w.c, w2.c);
      ErrorToClientStreams(w2, w2.c.status);
    }
  }

  lemma ConnectingStreams(w: World, id: nat, key: int, e: Env)
    requires Streams(w.c) && w.c.state == RequestConnecting
    ensures var (w', p) := OnConnecting(w, id, key, e);
      Streams(w'.c) && w'.c.state == w.c.state && p in {RequestConnecting, RequestWrite, Error}
  {
    hide AfterFailure, ErrorToClient, TryNext, Upstream, Downstream, Marshal;
    if w.c.status != 0x00 {
      AfterFailureStreams(w, id, key, e);
      AfterFailureNext(w, id, key, e);
    } else if e.soError.None? {
      SameStreamsHold(w.c, WithStatus(w, GENERAL_FAILURE).c);
      ErrorToClientStreams(WithStatus(w, GENERAL_FAILURE), GENERAL_FAILURE);
    } else if e.soError.value.None? {
      SameStreamsHold(w.c, w.c.(status := 0x00));
      MarshalStreams(w.c.(status := 0x00), Reply(0x00));
      MarshalState(w.c.(status := 0x00), Reply(0x00));
    } else {
      var w1 := WithStatus(w, ErrnoToSocks(e.soError.value.value));
      SameStreamsHold(w.c, w1.c);
      ErrorToClientStreams(w1, w1.c.status);
      if HasMore(w.c) {
        TryNextStreams(w1, id, key, e);
        TryNextNext(w1, id, key, e);
      }
    }
  }

  lemma MarshalState(c: Conn, reply: seq<byte>)
    ensures Marshal(c, reply).state == c.state
  {
  }

  lemma TryNextNext(w: World, id: nat, key: int, e: Env)
    requires HasMore(w.c)
    ensures TryNext(w, id, key, e).1 == RequestConnecting
  {
  }

  lemma AfterFailureNext(w: World, id: nat, key: int, e: Env)
    ensures AfterFailure(w, id, key, e).1 in {RequestConnecting, RequestWrite}
  {
  }

  // ----- The handlers -----

  /** A handler conserves the streams, and goes on to a state whose turn it can be. */
  ghost predicate Kept(w: World, w': World, p: Phase) {
    Streams(w'.c) && w'.c.state == w.c.state && InTurn(w'.c.(state := p))
  }

  lemma HelloReadStreams(w: World, key: int, e: Env)
    requires Streams(w.c) && w.c.state == HelloRead
    requires e.received.Some? ==> |e.received.value| <= w.c.readBuffer.Room()
    ensures Kept(w, OnHelloRead(w, key, e).0, OnHelloRead(w, key, e).1)
  {
    hide Upstream, Downstream, EatHello;
    if e.received.Some? {
      var c := Received(w.c, e.received.value);
      ReceivedStreams(w.c, e.received.value);
      EatHelloStreams(c);
      EatHelloState(c);
      MarshalStreams(EatHello(c), [Hellos.SOCKS_VERSION, EatHello(c).hello.chosen]);
    }
  }

  lemma EatHelloState(c: Conn)
    ensures EatHello(c).state == c.state
  {
  }

  lemma HelloWriteStreams(w: World, key: int, e: Env)
    requires Streams(w.c) && w.c.state == HelloWrite
    requires e.sent.Some? ==> e.sent.value <= |w.c.writeBuffer.contents|
    ensures Kept(w, OnHelloWrite(w, key, e).0, OnHelloWrite(w, key, e).1)
  {
    hide Upstream, Downstream;
    if e.sent.Some? {
      SentStreams(w.c, e.sent.value);
    }
  }

  lemma UserpassReadStreams(w: World, key: int, e: Env)
    requires Streams(w.c) && w.c.state == UserpassRead
    requires e.received.Some? ==> |e.received.value| <= w.c.readBuffer.Room()
    ensures Kept(w, OnUserpassRead(w, key, e).0, OnUserpassRead(w, key, e).1)
  {
    hide Upstream, Downstream, EatAuth;
    if e.received.Some? {
      var c := Received(w.c, e.received.value);
      ReceivedStreams(w.c, e.received.value);
      EatAuthStreams(c);
      assert EatAuth(c).state == c.state by { EatAuthState(c); }
      SameStreamsHold(EatAuth(c), CheckCredentials(EatAuth(c), e.users));
    }
  }

  lemma EatAuthState(c: Conn)
    ensures EatAuth(c).state == c.state
  {
  }

  lemma UserpassWriteStreams(w: World, key: int, e: Env)
    requires Streams(w.c) && w.c.state == UserpassWrite
    requires e.sent.Some? ==> e.sent.value <= |WithAuthReply(w.c).writeBuffer.contents|
    ensures Kept(w, OnUserpassWrite(w, key, e).0, OnUserpassWrite(w, key, e).1)
  {
    hide Upstream, Downstream;
    var c := WithAuthReply(w.c);
    MarshalStreams(w.c, [ClientWire.USERPASS_VERSION, w.c.authentication]);
    if e.sent.Some? {
      SentStreams(c, e.sent.value);
    }
  }

  lemma ErrorHandlerStreams(w: World, key: int, s: byte)
    requires Streams(w.c) && w.c.log.originReceived == []
    ensures Streams(ErrorHandler(w, key, s).c) && ErrorHandler(w, key, s).c.state == w.c.state
  {
    MarshalStreams(w.c, Reply(s));
  }

  lemma RequestReadStreams(w: World, key: int, e: Env)
    requires Streams(w.c) && w.c.state == RequestRead
    requires e.received.Some? ==> |e.received.value| <= w.c.readBuffer.Room()
    ensures Kept(w, OnRequestRead(w, key, e).0, OnRequestRead(w, key, e).1)
  {
    hide Upstream, Downstream, EatRequest, ErrorHandler;
    if e.received.Some? {
      var c := Received(w.c, e.received.value);
      ReceivedStreams(w.c, e.received.value);
      EatRequestStreams(c);
      assert EatRequest(c).state == c.state by { EatRequestState(c); }
      ErrorHandlerStreams(w.(c := EatRequest(c)), key, COMMAND_NOT_SUPPORTED);
      ErrorHandlerStreams(w.(c := EatRequest(c)), key, ADDRESS_TYPE_NOT_SUPPORTED);
    }
  }

  lemma EatRequestState(c: Conn)
    ensures EatRequest(c).state == c.state
  {
  }

  lemma ResolvedStreams(w: World, key: int)
    requires Streams(w.c) && w.c.state == RequestResolv
    ensures Kept(w, OnResolved(w, key).0, OnResolved(w, key).1)
  {
    hide Upstream, Downstream, ErrorHandler;
    SameStreamsHold(w.c, w.c.(status := GENERAL_FAILURE));
    ErrorHandlerStreams(w.(c := w.c.(status := GENERAL_FAILURE)), key, GENERAL_FAILURE);
    SameStreamsHold(w.c, w.c.(more := w.c.resolution));
  }

  lemma RequestWriteStreams(w: World, key: int, e: Env)
    requires Streams(w.c) && w.c.state == RequestWrite
    requires e.sent.Some? ==> e.sent.value <= |w.c.writeBuffer.contents|
    ensures Kept(w, OnRequestWrite(w, key, e).0, OnRequestWrite(w, key, e).1)
  {
  }

  /** Settling a relay leaves its buffers alone. */
  lemma SettleKeepsBuffers(r: Relays.Relay, side: Relays.Side)
    ensures Relays.Settle(r, side).0.up == r.up && Relays.Settle(r, side).0.down == r.down
  {
  }

  lemma CopyReadStreams(w: World, key: int, e: Env)
    requires Streams(w.c) && w.c.state == Copy
    requires e.received.Some? ==> |e.received.value| <= RelayOf(w).From(SideOf(w.c, key)).Room()
    requires OnCopyRead(w, key, e).Some?
    ensures Kept(w, OnCopyRead(w, key, e).value.0, OnCopyRead(w, key, e).value.1)
  {
    hide Relays.Settle;
    var side := SideOf(w.c, key);
    SettleKeepsBuffers(Relays.AfterRecv(RelayOf(w), side, e.received), side);
    var got := if e.received.Some? then e.received.value else [];
    var up, down := w.c.readBuffer.contents, w.c.writeBuffer.contents;
    var before := w.c.log.eatenHello + w.c.log.eatenAuth + w.c.log.eatenRequest + w.c.log.forwarded;
    assert (before + up) + got == before + (up + got);
    assert (w.c.log.sent + down) + got == w.c.log.sent + (down + got);
    assert (w.c.log.replies + w.c.log.originReceived) + got == w.c.log.replies + (w.c.log.originReceived + got);
    assert w.c.log.received + [] == w.c.log.received && w.c.log.originReceived + [] == w.c.log.originReceived;
  }

  lemma CopyWriteStreams(w: World, key: int, e: Env)
    requires Streams(w.c) && w.c.state == Copy
    requires e.sent.Some? ==> e.sent.value <= |RelayOf(w).To(SideOf(w.c, key)).contents|
    requires OnCopyWrite(w, key, e).Some?
    ensures Kept(w, OnCopyWrite(w, key, e).value.0, OnCopyWrite(w, key, e).value.1)
  {
    hide Relays.Settle;
    var side := SideOf(w.c, key);
    SettleKeepsBuffers(Relays.AfterSend(RelayOf(w), side, e.sent), side);
    var up, down, n := w.c.readBuffer.contents, w.c.writeBuffer.contents, if e.sent.Some? then e.sent.value else 0;
    var before := w.c.log.eatenHello + w.c.log.eatenAuth + w.c.log.eatenRequest;
    if side == Relays.ClientSide {
      assert (w.c.log.sent + down[..n]) + down[n..] == w.c.log.sent + down;
      assert n == |down| ==> down[n..] == [];
    } else {
      assert before + (w.c.log.forwarded + up[..n]) + up[n..] == before + w.c.log.forwarded + up;
      assert n == |up| ==> up[n..] == [];
    }
    assert w.c.log.sent + [] == w.c.log.sent && w.c.log.forwarded + [] == w.c.log.forwarded;
  }

  lemma HandleStreams(w: World, id: nat, key: int, event: Event, e: Env)
    requires Streams(w.c) && CallsBounded(w.c, key, event, e) && Handle(w, id, key, event, e).Some?
    ensures var (w', p) := Handle(w, id, key, event, e).value;
      Kept(w, w', p)
  {
    hide Streams, Kept;
    match event {
      case Readable =>
        match w.c.state {
          case HelloRead => HelloReadStreams(w, key, e);
          case UserpassRead => UserpassReadStreams(w, key, e);
          case RequestRead => RequestReadStreams(w, key, e);
          case Copy => CopyReadStreams(w, key, e);
        }
      case Writable =>
        match w.c.state {
          case HelloWrite => HelloWriteStreams(w, key, e);
          case UserpassWrite => UserpassWriteStreams(w, key, e);
          case RequestConnecting => ConnectingKept(w, id, key, e);
          case RequestWrite => RequestWriteStreams(w, key, e);
          case Copy => CopyWriteStreams(w, key, e);
        }
      case Block => ResolvedStreams(w, key);
    }
  }

  lemma ConnectingKept(w: World, id: nat, key: int, e: Env)
    requires Streams(w.c) && w.c.state == RequestConnecting
    ensures Kept(w, OnConnecting(w, id, key, e).0, OnConnecting(w, id, key, e).1)
  {
    hide OnConnecting, Upstream, Downstream;
    ConnectingStreams(w, id, key, e);
  }

  lemma JumpStreams(w: World, id: nat, key: int, p: Phase, e: Env)
    requires Streams(w.c) && InTurn(w.c.(state := p)) && Jump(w, id, key, p, e).Some?
    ensures Streams(Jump(w, id, key, p, e).value.c)
  {
    hide Upstream, Downstream, InTurn, ConnectingInit, OnCopyInit, FieldParsers.State.Valid, FieldParsers.WellFormed;
    var w1 := w.(c := w.c.(state := p));
    StreamsOf(w.c, w1.c);
    if p == w.c.state {
    } else if p == RequestConnecting {
      ConnectingInitStreams(w1, id, key, e);
    } else if p == Copy {
      CopyInitStreams(w1);
    } else {
      PlainArrivalStreams(w, id, key, p, e);
    }
  }

  lemma PlainArrivalStreams(w: World, id: nat, key: int, p: Phase, e: Env)
    requires Streams(w.c) && InTurn(w.c.(state := p)) && p != w.c.state && p != RequestConnecting && p != Copy
    ensures Streams(Jump(w, id, key, p, e).value.c)
  {
    hide Upstream, Downstream, ClientWire.StartAuth, FieldParsers.State.Valid, FieldParsers.WellFormed;
    StreamsOf(w.c, w.c.(state := p));
    SameStreamsHold(w.c.(state := p), Jump(w, id, key, p, e).value.c);
  }

  lemma StreamsOf(c: Conn, d: Conn)
    requires Streams(c) && SameStreams(c, d) && InTurn(d)
    ensures Streams(d)
  {
  }

  lemma CopyInitStreams(w: World)
    requires Streams(w.c) && OnCopyInit(w).Some?
    ensures Streams(OnCopyInit(w).value.c)
  {
  }

  /** Releasing a descriptor touches references and registrations only. */
  lemma ReleaseSame(w: World, id: nat, fd: int)
    requires Release(w, id, fd).Some?
    ensures var d := Release(w, id, fd).value.c;
      d == w.c.(references := d.references, log := w.c.log.(leaked := d.log.leaked, frees := d.log.frees))
  {
  }

  lemma FinishSame(w: World, id: nat)
    requires Finish(w, id).Some?
    ensures var d := Finish(w, id).value.c;
      d == w.c.(references := d.references, log := w.c.log.(leaked := d.log.leaked, frees := d.log.frees))
  {
    hide Release;
    ReleaseSame(w, id, w.c.clientFd);
    ReleaseSame(Release(w, id, w.c.clientFd).value, id, w.c.originFd);
  }

  lemma FinishStreams(w: World, id: nat)
    requires Streams(w.c) && Finish(w, id).Some?
    ensures Streams(Finish(w, id).value.c)
  {
    hide Finish, Upstream, Downstream;
    FinishSame(w, id);
    SameStreamsHold(w.c, Finish(w, id).value.c);
  }

  /**
   * Conservation over a whole event, in every state: from the octets the parsers eat to those
   * the relay forwards, nothing the client sent is lost or reordered, and what it is sent is
   * the replies followed by the origin's octets.
   */
  lemma DispatchStreams(w: World, id: nat, key: int, event: Event, e: Env)
    requires Streams(w.c) && CallsBounded(w.c, key, event, e) && Dispatch(w, id, key, event, e).Some?
    ensures Streams(Dispatch(w, id, key, event, e).value.c)
  {
    hide Handle, Jump, Finish, Upstream, Downstream;
    var w0 := First(Idle(w), e);
    SameStreamsHold(w.c, w0.c);
    HandleStreams(w0, id, key, event, e);
    var (w1, p) := Handle(w0, id, key, event, e).value;
    JumpStreams(w1, id, key, p, e);
    if Terminal(p) {
      FinishStreams(Jump(w1, id, key, p, e).value, id);
    }
  }

  // ----- Admission -----

  /** A parser's state is where the octets eaten so far lead it. */
  predicate HelloFollows(p: Hellos.Hello, eaten: seq<byte>) {
    && Hellos.Take(Hellos.Start(Hellos.SOCKS_VERSION, p.wanted), eaten) == (p, |eaten|)
    && (p.wanted == Hellos.NO_AUTHENTICATION || p.wanted == Hellos.USERNAME_PASSWORD)
  }

  ghost predicate AuthFollows(p: FieldParsers.Parser, eaten: seq<byte>) {
    FieldParsers.Take(ClientWire.StartAuth(), eaten) == (p, |eaten|)
  }

  predicate RequestFollows(p: RequestParsers.Parser, eaten: seq<byte>) {
    RequestParsers.Take(RequestParsers.START, eaten) == (p, |eaten|)
  }

  /** The answer to whole credentials is the outcome of looking them up. */
  predicate Looked(p: FieldParsers.Parser, answer: byte, users: seq<Registries.User>) {
    answer == 0x00 <==> Registries.Check(users, Username(p), Password(p)).Some?
  }

  /** The greeting is over. */
  predicate Greeted(c: Conn) {
    c.started && HelloFollows(c.hello, c.log.eatenHello) && c.hello.phase == Hellos.Done
  }

  /** The client was told to authenticate, and its credentials have been looked up. */
  ghost predicate Examined(c: Conn) {
    && Greeted(c) && c.hello.chosen == Hellos.USERNAME_PASSWORD
    && AuthFollows(c.auth, c.log.eatenAuth) && c.auth.phase == FieldParsers.Done
    && Looked(c.auth, c.authentication, c.log.checkedOver)
  }

  /** The client may make requests. */
  ghost predicate MayRequest(c: Conn) {
    && Greeted(c)
    && (c.hello.chosen == Hellos.NO_AUTHENTICATION || (Examined(c) && c.authentication == 0x00))
  }

  predicate Requested(c: Conn) {
    RequestFollows(c.request, c.log.eatenRequest) && RequestParsers.IsDone(c.request)
  }

  /** How far each state is known to have come. */
  ghost predicate Progress(c: Conn) {
    && (c.log.admitted ==> MayRequest(c))
    && (c.log.forwarded != [] || c.log.originReceived != [] ==> c.log.admitted && Requested(c))
    && match c.state
       case HelloRead =>
         !c.log.admitted &&
         if c.started then HelloFollows(c.hello, c.log.eatenHello) && !Hellos.IsDone(c.hello)
         else c.log.eatenHello == []
       case HelloWrite => !c.log.admitted && Greeted(c)
       case UserpassRead =>
         !c.log.admitted && Greeted(c) && c.hello.chosen == Hellos.USERNAME_PASSWORD
         && AuthFollows(c.auth, c.log.eatenAuth) && !FieldParsers.IsDone(c.auth)
       case UserpassWrite => !c.log.admitted && Examined(c)
       case RequestRead => c.log.admitted && RequestFollows(c.request, c.log.eatenRequest)
           && !RequestParsers.IsDone(c.request)
       case RequestResolv => c.log.admitted && Requested(c)
       case RequestConnecting => c.log.admitted && Requested(c)
       case RequestWrite => c.log.admitted && Requested(c)
       case Copy => c.log.admitted && Requested(c)
       case Done => true
       case Error => true
  }

  /** Nothing that Progress looks at has changed, but perhaps the state. */
  ghost predicate SameParse(c: Conn, d: Conn) {
    && d.started == c.started && d.hello == c.hello && d.auth == c.auth && d.request == c.request
    && d.authentication == c.authentication && d.log.admitted == c.log.admitted
    && d.log.checkedOver == c.log.checkedOver
    && d.log.eatenHello == c.log.eatenHello && d.log.eatenAuth == c.log.eatenAuth
    && d.log.eatenRequest == c.log.eatenRequest
    && d.log.forwarded == c.log.forwarded && d.log.originReceived == c.log.originReceived
  }

  lemma SameProgress(c: Conn, d: Conn)
    requires Progress(c) && SameParse(c, d) && d.state == c.state
    ensures Progress(d)
  {
  }

  /** What a handler must leave for the machine to move to state p. */
  ghost predicate Moves(c: Conn, p: Phase) {
    if p == c.state then Progress(c)
    else
      match p
      case UserpassRead =>
        Progress(c.(state := HelloWrite)) && c.hello.chosen == Hellos.USERNAME_PASSWORD && c.log.eatenAuth == []
      case RequestRead => MayRequest(c) && c.log.eatenRequest == [] && c.log.forwarded == []
          && c.log.originReceived == []
      case _ => Progress(c.(state := p))
  }

  lemma EatHelloFollows(c: Conn)
    requires HelloFollows(c.hello, c.log.eatenHello) && !Hellos.IsDone(c.hello)
    ensures HelloFollows(EatHello(c).hello, EatHello(c).log.eatenHello)
  {
    var input := c.readBuffer.contents;
    ConsumeMore(Hellos.Feed, Hellos.IsDone, Hellos.Start(Hellos.SOCKS_VERSION, c.hello.wanted), c.hello,
        c.log.eatenHello, input);
    TakeKeepsWanted(c.hello, input);
  }

  lemma {:induction false} TakeKeepsWanted(p: Hellos.Hello, input: seq<byte>)
    ensures Hellos.Take(p, input).0.wanted == p.wanted
    decreases |input|
  {
    if input != [] && !Hellos.IsDone(Hellos.Feed(p, input[0])) {
      TakeKeepsWanted(Hellos.Feed(p, input[0]), input[1..]);
    }
  }

  lemma EatAuthFollows(c: Conn)
    requires AuthFollows(c.auth, c.log.eatenAuth) && !FieldParsers.IsDone(c.auth)
    ensures AuthFollows(EatAuth(c).auth, EatAuth(c).log.eatenAuth)
  {
    hide FieldParsers.Take, FieldParsers.Feed;
    FieldParsers.TakeMore(ClientWire.StartAuth(), c.auth, c.log.eatenAuth, c.readBuffer.contents);
  }

  lemma EatRequestFollows(c: Conn)
    requires RequestFollows(c.request, c.log.eatenRequest) && !RequestParsers.IsDone(c.request)
    ensures RequestFollows(EatRequest(c).request, EatRequest(c).log.eatenRequest)
  {
    ConsumeMore(RequestParsers.Feed, RequestParsers.IsDone, RequestParsers.START, c.request, c.log.eatenRequest,
        c.readBuffer.contents);
  }

  /** A finished greeting was answered with the required method or with a refusal. */
  lemma ChosenMethod(c: Conn)
    requires HelloFollows(c.hello, c.log.eatenHello) && c.hello.phase == Hellos.Done
    ensures Hellos.Complete(Hellos.SOCKS_VERSION, c.log.eatenHello)
        && |c.log.eatenHello| == Hellos.MessageLength(c.log.eatenHello)
    ensures c.hello.chosen
         == if c.hello.wanted in Hellos.Offered(c.log.eatenHello) then c.hello.wanted else Hellos.NO_ACCEPTABLE_METHODS
  {
    Hellos.TakeExact(Hellos.SOCKS_VERSION, c.hello.wanted, c.log.eatenHello);
  }

  /** A finished request is a CONNECT to an address of one of the three types. */
  lemma RequestIsConnect(c: Conn)
    requires RequestFollows(c.request, c.log.eatenRequest) && RequestParsers.IsDone(c.request)
    ensures c.request.cmd == RequestParsers.CMD_CONNECT
    ensures c.request.atyp in [RequestParsers.ATYP_IPV4, RequestParsers.ATYP_DOMAIN, RequestParsers.ATYP_IPV6]
  {
    var rsv, a, port, stray := RequestParsers.AcceptedIsRequest(c.log.eatenRequest);
  }

  lemma MarshalParse(c: Conn, reply: seq<byte>)
    ensures SameParse(c, Marshal(c, reply)) && Marshal(c, reply).state == c.state
  {
  }

  lemma HelloReadMoves(w: World, key: int, e: Env)
    requires Progress(w.c) && InTurn(w.c) && w.c.state == HelloRead && w.c.started
    requires e.received.Some? ==> |e.received.value| <= w.c.readBuffer.Room()
    ensures Moves(OnHelloRead(w, key, e).0.c, OnHelloRead(w, key, e).1) && OnHelloRead(w, key, e).0.c.state == HelloRead
  {
    hide AuthFollows, RequestFollows, Looked;
    if e.received.Some? {
      var c := Received(w.c, e.received.value);
      EatHelloFollows(c);
      hide HelloFollows, Hellos.Take, Marshal;
      MarshalParse(EatHello(c), [Hellos.SOCKS_VERSION, EatHello(c).hello.chosen]);
    }
  }

  lemma HelloWriteMoves(w: World, key: int, e: Env)
    requires Progress(w.c) && InTurn(w.c) && w.c.state == HelloWrite
    requires e.sent.Some? ==> e.sent.value <= |w.c.writeBuffer.contents|
    ensures Moves(OnHelloWrite(w, key, e).0.c, OnHelloWrite(w, key, e).1)
        && OnHelloWrite(w, key, e).0.c.state == HelloWrite
  {
    hide AuthFollows, RequestFollows, Looked;
    ChosenMethod(w.c);
  }

  lemma CheckedMoves(c: Conn, users: seq<Registries.User>)
    requires c.state == UserpassRead && !c.log.admitted && InTurn(c)
    requires Greeted(c) && c.hello.chosen == Hellos.USERNAME_PASSWORD
    requires AuthFollows(c.auth, c.log.eatenAuth) && c.auth.phase == FieldParsers.Done
    ensures Moves(CheckCredentials(c, users), UserpassWrite) && CheckCredentials(c, users).state == UserpassRead
  {
  }

  lemma UserpassReadMoves(w: World, key: int, e: Env)
    requires Progress(w.c) && InTurn(w.c) && w.c.state == UserpassRead
    requires e.received.Some? ==> |e.received.value| <= w.c.readBuffer.Room()
    ensures Moves(OnUserpassRead(w, key, e).0.c, OnUserpassRead(w, key, e).1)
        && OnUserpassRead(w, key, e).0.c.state == UserpassRead
  {
    hide FieldParsers.State.Valid, FieldParsers.WellFormed;
    hide HelloFollows, RequestFollows, CheckCredentials;
    if e.received.Some? {
      var c := Received(w.c, e.received.value);
      EatAuthFollows(c);
      EatAuthRest(c);
      hide EatAuth, AuthFollows;
      if EatAuth(c).auth.phase == FieldParsers.Done {
        CheckedMoves(EatAuth(c), e.users);
        hide Moves;
      }
    }
  }

  lemma EatAuthRest(c: Conn)
    ensures var d := EatAuth(c);
      d == c.(auth := d.auth, readBuffer := d.readBuffer, log := c.log.(eatenAuth := d.log.eatenAuth))
  {
  }

  lemma EatRequestRest(c: Conn)
    ensures var d := EatRequest(c);
      d == c.(request := d.request, readBuffer := d.readBuffer, log := c.log.(eatenRequest := d.log.eatenRequest))
  {
  }

  lemma UserpassWriteMoves(w: World, key: int, e: Env)
    requires Progress(w.c) && InTurn(w.c) && w.c.state == UserpassWrite
    requires e.sent.Some? ==> e.sent.value <= |WithAuthReply(w.c).writeBuffer.contents|
    ensures Moves(OnUserpassWrite(w, key, e).0.c, OnUserpassWrite(w, key, e).1)
        && OnUserpassWrite(w, key, e).0.c.state == UserpassWrite
  {
    hide HelloFollows, RequestFollows, AuthFollows, Looked, Marshal;
    MarshalParse(w.c, [ClientWire.USERPASS_VERSION, w.c.authentication]);
  }

  lemma ProcessMoves(w: World, key: int)
    requires w.c.state == RequestRead && InTurn(w.c) && w.c.log.admitted && MayRequest(w.c) && Requested(w.c)
    ensures Moves(Process(w, key).0.c, Process(w, key).1) && Process(w, key).0.c.state == RequestRead
  {
    hide HelloFollows, AuthFollows, Looked, RequestFollows, Marshal;
    MarshalParse(w.c, Reply(COMMAND_NOT_SUPPORTED));
    MarshalParse(w.c, Reply(ADDRESS_TYPE_NOT_SUPPORTED));
  }

  lemma RequestReadMoves(w: World, key: int, e: Env)
    requires Progress(w.c) && InTurn(w.c) && w.c.state == RequestRead
    requires e.received.Some? ==> |e.received.value| <= w.c.readBuffer.Room()
    ensures Moves(OnRequestRead(w, key, e).0.c, OnRequestRead(w, key, e).1)
        && OnRequestRead(w, key, e).0.c.state == RequestRead
  {
    hide HelloFollows, AuthFollows, Looked, Process;
    if e.received.Some? {
      var c := Received(w.c, e.received.value);
      EatRequestFollows(c);
      EatRequestRest(c);
      hide RequestFollows, EatRequest;
      if RequestParsers.IsDone(EatRequest(c).request) {
        ProcessMoves(w.(c := EatRequest(c)), key);
        hide Moves;
      }
    }
  }

  /** From the request on, nothing the parsers left changes. */
  lemma LaterMoves(c: Conn, d: Conn, p: Phase)
    requires Progress(c) && SameParse(c, d) && d.state == c.state
    requires c.state in {RequestResolv, RequestConnecting, RequestWrite, Copy}
    requires p in {RequestConnecting, RequestWrite, Copy, Done, Error}
    ensures Moves(d, p)
  {
    hide HelloFollows, AuthFollows, Looked, RequestFollows;
  }

  lemma ErrorToClientParse(w: World, s: byte)
    ensures var d := ErrorToClient(w, s).c; SameParse(w.c, d) && d.state == w.c.state
  {
    hide FieldParsers.State.Valid, FieldParsers.WellFormed;
  }

  lemma ConnectParse(w: World, id: nat, key: int, e: Env)
    ensures var d := Connect(w, id, key, e).0.c; SameParse(w.c, d) && d.state == w.c.state
  {
    hide FieldParsers.State.Valid, FieldParsers.WellFormed;
    hide ErrorToClient;
    if e.connect.AtOnce? {
      var w0 := w.(c := w.c.(references := w.c.references + 1));
      ErrorToClientParse(WithStatus(w0, GENERAL_FAILURE), GENERAL_FAILURE);
      ErrorToClientParse(WithStatus(Watch(w0, key, OP_READ), GENERAL_FAILURE), GENERAL_FAILURE);
    }
    if e.connect.Failed? || w.c.originFd == -1 {
      var s := ErrnoToSocks(if w.c.originFd == -1 then Other else e.connect.errno);
      ErrorToClientParse(WithStatus(w, s), s);
    }
    ErrorToClientParse(WithStatus(w, GENERAL_FAILURE), GENERAL_FAILURE);
    ErrorToClientParse(WithStatus(Watch(w, key, OP_NOOP), GENERAL_FAILURE), GENERAL_FAILURE);
  }

  lemma AfterFailureParse(w: World, id: nat, key: int, e: Env)
    ensures var d := AfterFailure(w, id, key, e).0.c; SameParse(w.c, d) && d.state == w.c.state
  {
    hide ErrorToClient, Connect;
    if HasMore(w.c) {
      ConnectParse(w.(c := w.c.(more := Some(w.c.more.value - 1))), id, key, e);
    } else {
      var w1 := Close(Drop(w, id, w.c.originFd), id, w.c.originFd);
      ErrorToClientParse(w1.(c := w1.c.(originFd := -1)), w1.c.status);
    }
  }

  lemma ConnectingParse(w: World, id: nat, key: int, e: Env)
    ensures var (w', p) := OnConnecting(w, id, key, e);
      SameParse(w.c, w'.c) && w'.c.state == w.c.state && p in {RequestConnecting, RequestWrite, Error}
  {
    hide ErrorToClient, Connect, AfterFailure, Marshal;
    if w.c.status != 0x00 {
      AfterFailureParse(w, id, key, e);
      AfterFailureNext(w, id, key, e);
    } else if e.soError.None? {
      ErrorToClientParse(WithStatus(w, GENERAL_FAILURE), GENERAL_FAILURE);
    } else if e.soError.value.None? {
      MarshalParse(w.c.(status := 0x00), Reply(0x00));
    } else {
      var w1 := WithStatus(w, ErrnoToSocks(e.soError.value.value));
      ErrorToClientParse(w1, w1.c.status);
      if HasMore(w.c) {
        ConnectParse(w1.(c := w1.c.(more := Some(w1.c.more.value - 1))), id, key, e);
      }
    }
  }

  lemma ResolvedParse(w: World, key: int)
    ensures var (w', p) := OnResolved(w, key);
      SameParse(w.c, w'.c) && w'.c.state == w.c.state && p in {RequestConnecting, RequestWrite}
  {
    hide Marshal;
    MarshalParse(w.c.(status := GENERAL_FAILURE), Reply(GENERAL_FAILURE));
  }

  lemma RequestWriteParse(w: World, key: int, e: Env)
    requires e.sent.Some? ==> e.sent.value <= |w.c.writeBuffer.contents|
    ensures var (w', p) := OnRequestWrite(w, key, e);
      SameParse(w.c, w'.c) && w'.c.state == w.c.state && p in {RequestWrite, Copy, Done, Error}
  {
  }

  lemma LateHandleMoves(w: World, id: nat, key: int, event: Event, e: Env)
    requires Progress(w.c) && CallsBounded(w.c, key, event, e) && Handle(w, id, key, event, e).Some?
    requires w.c.state in {RequestResolv, RequestConnecting, RequestWrite}
    ensures var (w', p) := Handle(w, id, key, event, e).value;
      Moves(w'.c, p) && w'.c.state == w.c.state
  {
    hide Progress, Moves, SameParse, Marshal, OnConnecting, OnResolved, OnRequestWrite;
    var (w', p) := Handle(w, id, key, event, e).value;
    if w.c.state == RequestConnecting {
      ConnectingParse(w, id, key, e);
    } else if w.c.state == RequestResolv {
      ResolvedParse(w, key);
    } else {
      RequestWriteParse(w, key, e);
    }
    LaterMoves(w.c, w'.c, p);
  }

  lemma CopyMoves(w: World, id: nat, key: int, event: Event, e: Env)
    requires Progress(w.c) && CallsBounded(w.c, key, event, e) && Handle(w, id, key, event, e).Some?
        && w.c.state == Copy
    ensures var (w', p) := Handle(w, id, key, event, e).value;
      Moves(w'.c, p) && w'.c.state == w.c.state
  {
    hide HelloFollows, AuthFollows, Looked, RequestFollows, Relays.Settle, Relays.AfterRecv, Relays.AfterSend;
  }

  lemma HandleMoves(w: World, id: nat, key: int, event: Event, e: Env)
    requires Progress(w.c) && InTurn(w.c) && w.c.started
    requires CallsBounded(w.c, key, event, e) && Handle(w, id, key, event, e).Some?
    ensures var (w', p) := Handle(w, id, key, event, e).value;
      Moves(w'.c, p) && w'.c.state == w.c.state
  {
    hide Progress, Moves, InTurn, OnHelloRead, OnHelloWrite, OnUserpassRead, OnUserpassWrite, OnRequestRead;
    hide OnResolved, OnConnecting, OnRequestWrite, OnCopyRead, OnCopyWrite;
    if w.c.state in {RequestResolv, RequestConnecting, RequestWrite} {
      LateHandleMoves(w, id, key, event, e);
    } else if w.c.state == Copy {
      CopyMoves(w, id, key, event, e);
    } else {
      match w.c.state {
        case HelloRead => HelloReadMoves(w, key, e);
        case HelloWrite => HelloWriteMoves(w, key, e);
        case UserpassRead => UserpassReadMoves(w, key, e);
        case UserpassWrite => UserpassWriteMoves(w, key, e);
        case RequestRead => RequestReadMoves(w, key, e);
      }
    }
  }

  lemma ConnectingInitParse(w: World, id: nat, key: int, e: Env)
    ensures var d := ConnectingInit(w, id, key, e).c; SameParse(w.c, d) && d.state == w.c.state
  {
    hide ErrorToClient, Connect;
    var w0 := WithStatus(w, 0x00);
    if e.socket.None? {
      ErrorToClientParse(w0.(c := w0.c.(originFd := -1, status := GENERAL_FAILURE)), GENERAL_FAILURE);
    } else {
      var w1 := w0.(c := w0.c.(originFd := e.socket.value), open := w0.open[e.socket.value := id]);
      ErrorToClientParse(WithStatus(w1, GENERAL_FAILURE), GENERAL_FAILURE);
      ConnectParse(w1, id, key, e);
    }
  }

  lemma JumpProgress(w: World, id: nat, key: int, p: Phase, e: Env)
    requires Moves(w.c, p) && !Terminal(w.c.state) && Jump(w, id, key, p, e).Some?
    ensures Progress(Jump(w, id, key, p, e).value.c)
  {
    hide HelloFollows, Looked, AuthFollows, RequestFollows, ClientWire.StartAuth, ConnectingInit, OnCopyInit;
    var w1 := w.(c := w.c.(state := p));
    if p == w.c.state {
    } else if p == RequestConnecting {
      ConnectingInitParse(w1, id, key, e);
      SameProgress(w1.c, Jump(w, id, key, p, e).value.c);
    } else if p == Copy {
      CopyInitParse(w1);
      SameProgress(w1.c, Jump(w, id, key, p, e).value.c);
    } else if p == UserpassRead {
      AuthStarts();
    } else if p == RequestRead {
      RequestStarts();
    }
  }

  lemma RequestStarts()
    ensures RequestFollows(RequestParsers.START, []) && !RequestParsers.IsDone(RequestParsers.START)
  {
  }

  lemma AuthStarts()
    ensures AuthFollows(ClientWire.StartAuth(), []) && !FieldParsers.IsDone(ClientWire.StartAuth())
  {
  }

  lemma CopyInitParse(w: World)
    ensures OnCopyInit(w).Some? ==> SameParse(w.c, OnCopyInit(w).value.c) && OnCopyInit(w).value.c.state == w.c.state
  {
  }

  lemma FirstProgress(w: World, e: Env)
    requires Progress(w.c) && InTurn(w.c) && (e.authMethod == 0x00 || e.authMethod == 0x02) && !Terminal(w.c.state)
    ensures var c := First(w, e).c;
      Progress(c) && InTurn(c) && c.started && c.state == w.c.state
  {
  }

  /** Every event takes the parsers as far as the octets eaten, and lets through only clients that may make requests. */
  lemma DispatchProgress(w: World, id: nat, key: int, event: Event, e: Env)
    requires Progress(w.c) && InTurn(w.c) && !Terminal(w.c.state) && (e.authMethod == 0x00 || e.authMethod == 0x02)
    requires CallsBounded(w.c, key, event, e) && Dispatch(w, id, key, event, e).Some?
    ensures Progress(Dispatch(w, id, key, event, e).value.c)
  {
    hide Handle, Jump, Finish, Progress, InTurn, Moves;
    var w0 := First(Idle(w), e);
    FirstProgress(Idle(w), e);
    HandleMoves(w0, id, key, event, e);
    var (w1, p) := Handle(w0, id, key, event, e).value;
    JumpProgress(w1, id, key, p, e);
    if Terminal(p) {
      var w2 := Jump(w1, id, key, p, e).value;
      FinishSame(w2, id);
      SameProgress(w2.c, Finish(w2, id).value.c);
    }
  }

  /** The state a connection is in after an event is the one its handler returned. */
  lemma DispatchState(w: World, id: nat, key: int, event: Event, e: Env)
    requires CallsBounded(w.c, key, event, e) && Dispatch(w, id, key, event, e).Some?
    ensures var w0 := First(Idle(w), e);
      Handle(w0, id, key, event, e).Some?
      && Dispatch(w, id, key, event, e).value.c.state == Handle(w0, id, key, event, e).value.1
  {
    hide Handle, Jump, Finish;
    var w0 := First(Idle(w), e);
    var (w1, p) := Handle(w0, id, key, event, e).value;
    JumpState(w1, id, key, p, e);
    if Terminal(p) {
      FinishSame(Jump(w1, id, key, p, e).value, id);
    }
  }

  lemma JumpState(w: World, id: nat, key: int, p: Phase, e: Env)
    requires Jump(w, id, key, p, e).Some?
    ensures Jump(w, id, key, p, e).value.c.state == p
  {
    hide ConnectingInit, OnCopyInit;
    var w1 := w.(c := w.c.(state := p));
    ConnectingInitParse(w1, id, key, e);
    CopyInitParse(w1);
  }

  /** A resolution, found or not, takes the connection out of the waiting state. */
  lemma ResolvedLeaves(w: World, id: nat, key: int, e: Env)
    requires w.c.state == RequestResolv && CallsBounded(w.c, key, Block, e) && Dispatch(w, id, key, Block, e).Some?
    ensures Dispatch(w, id, key, Block, e).value.c.state != RequestResolv
  {
    hide Jump, Finish, ErrorHandler;
    DispatchState(w, id, key, Block, e);
  }

  /** The answers the table invariant rests on. */
  lemma ProgressAnswers(c: Conn, e: Env)
    requires Progress(c) && c.started
    ensures c.state == HelloWrite ==> c.hello.chosen in [0x00, 0x02, 0xFF]
    ensures c.state == RequestRead && e.received.Some? && |e.received.value| <= c.readBuffer.Room() ==>
              var r := EatRequest(Received(c, e.received.value)).request;
              RequestParsers.IsDone(r) ==>
                r.cmd == RequestParsers.CMD_CONNECT
                && r.atyp in [RequestParsers.ATYP_IPV4, RequestParsers.ATYP_DOMAIN, RequestParsers.ATYP_IPV6]
  {
    if c.state == HelloWrite {
      ChosenMethod(c);
    } else if c.state == RequestRead && e.received.Some? && |e.received.value| <= c.readBuffer.Room() {
      var d := Received(c, e.received.value);
      EatRequestFollows(d);
      if RequestParsers.IsDone(EatRequest(d).request) {
        RequestIsConnect(EatRequest(d));
      }
    }
  }

  /**
   * Authentication safety, in terms of the octets the client sent. A client whose requests were
   * ever listened to was greeted with a complete method message, and either the method required
   * of it was none and it offered that, or it offered passwords and sent a credentials message
   * that matched a user registered when it was checked.
   */
  lemma AdmittedOnlyAuthenticated(c: Conn)
    requires Progress(c) && c.log.admitted
    ensures Hellos.Complete(Hellos.SOCKS_VERSION, c.log.eatenHello)
    ensures var offered := Hellos.Offered(c.log.eatenHello);
      || (c.hello.wanted == Hellos.NO_AUTHENTICATION && Hellos.NO_AUTHENTICATION in offered)
      || (c.hello.wanted == Hellos.USERNAME_PASSWORD && Hellos.USERNAME_PASSWORD in offered
          && exists user, pass :: ClientWire.CredentialsOf(c.log.eatenAuth, user, pass)
               && Registries.Check(c.log.checkedOver, CString(user), CString(pass)).Some?)
  {
    ChosenMethod(c);
    if c.hello.chosen != Hellos.NO_AUTHENTICATION {
      ClientWire.SchemasWellFormed();
      var r: FieldParsers.Parser := c.auth;
      assert r.phase == FieldParsers.Done;
      ClientWire.CredentialsSound(c.log.eatenAuth);
      assert c.log.eatenAuth[..|c.log.eatenAuth|] == c.log.eatenAuth;
      assert ClientWire.CredentialsOf(c.log.eatenAuth, r.results[2], r.results[4]);
    }
  }

  /** Octets are relayed only for a client that was admitted and whose request was whole. */
  lemma RelayedOnlyRequested(c: Conn)
      returns (rsv: byte, a: RequestParsers.Address, port: (byte, byte), stray: seq<byte>)
    requires Progress(c) && (c.state == Copy || c.log.forwarded != [] || c.log.originReceived != [])
    ensures c.log.admitted && RequestParsers.Encodable(a) && c.request == RequestParsers.Parsed(a, port)
    ensures c.log.eatenRequest == RequestParsers.Head(rsv, a) + a.octets + stray + [port.0, port.1]
    ensures |stray| == if a == RequestParsers.Domain([]) then 1 else 0
  {
    rsv, a, port, stray := RequestParsers.AcceptedIsRequest(c.log.eatenRequest);
    assert c.log.eatenRequest[..|c.log.eatenRequest|] == c.log.eatenRequest;
  }

  /** A connection starts with nothing read, nothing sent and nothing granted. */
  lemma NewConnBegins(clientFd: int)
    ensures Streams(NewConn(clientFd)) && Progress(NewConn(clientFd))
  {
  }

  // ----- Where the answers came from -----

  /**
   * A handler leaves the required method as it was, and the roster of the credential check too,
   * unless it checks them.
   */
  predicate SameSources(c: Conn, d: Conn, p: Phase, users: seq<Registries.User>) {
    && d.started == c.started && d.hello.wanted == c.hello.wanted
    && d.log.checkedOver == if c.state == UserpassRead && p == UserpassWrite then users else c.log.checkedOver
  }

  lemma HelloReadSources(w: World, key: int, e: Env)
    requires w.c.state == HelloRead && (e.received.Some? ==> |e.received.value| <= w.c.readBuffer.Room())
    ensures SameSources(w.c, OnHelloRead(w, key, e).0.c, OnHelloRead(w, key, e).1, e.users)
  {
    if e.received.Some? {
      var c := Received(w.c, e.received.value);
      TakeKeepsWanted(c.hello, c.readBuffer.contents);
      hide Hellos.Take, Marshal;
      MarshalParse(EatHello(c), [Hellos.SOCKS_VERSION, EatHello(c).hello.chosen]);
    }
  }

  lemma UserpassReadSources(w: World, key: int, e: Env)
    requires w.c.state == UserpassRead && (e.received.Some? ==> |e.received.value| <= w.c.readBuffer.Room())
    ensures SameSources(w.c, OnUserpassRead(w, key, e).0.c, OnUserpassRead(w, key, e).1, e.users)
  {
    hide EatAuth;
    if e.received.Some? {
      EatAuthRest(Received(w.c, e.received.value));
    }
  }

  lemma UserpassWriteSources(w: World, key: int, e: Env)
    requires w.c.state == UserpassWrite && (e.sent.Some? ==> e.sent.value <= |WithAuthReply(w.c).writeBuffer.contents|)
    ensures SameSources(w.c, OnUserpassWrite(w, key, e).0.c, OnUserpassWrite(w, key, e).1, e.users)
  {
  }

  lemma RequestReadSources(w: World, key: int, e: Env)
    requires w.c.state == RequestRead && (e.received.Some? ==> |e.received.value| <= w.c.readBuffer.Room())
    ensures SameSources(w.c, OnRequestRead(w, key, e).0.c, OnRequestRead(w, key, e).1, e.users)
  {
    hide EatRequest, Marshal;
    if e.received.Some? {
      var c := EatRequest(Received(w.c, e.received.value));
      EatRequestRest(Received(w.c, e.received.value));
      MarshalParse(c, Reply(COMMAND_NOT_SUPPORTED));
      MarshalParse(c, Reply(ADDRESS_TYPE_NOT_SUPPORTED));
    }
  }

  lemma HandleSources(w: World, id: nat, key: int, event: Event, e: Env)
    requires CallsBounded(w.c, key, event, e) && Handle(w, id, key, event, e).Some?
    ensures var (w', p) := Handle(w, id, key, event, e).value;
      SameSources(w.c, w'.c, p, e.users)
  {
    hide OnHelloRead, OnUserpassRead, OnUserpassWrite, OnRequestRead, OnResolved, OnConnecting, OnRequestWrite;
    match w.c.state {
      case HelloRead => HelloReadSources(w, key, e);
      case HelloWrite =>
      case UserpassRead => UserpassReadSources(w, key, e);
      case UserpassWrite => UserpassWriteSources(w, key, e);
      case RequestRead => RequestReadSources(w, key, e);
      case RequestResolv => ResolvedParse(w, key);
      case RequestConnecting => ConnectingParse(w, id, key, e);
      case RequestWrite => RequestWriteParse(w, key, e);
      case Copy =>
    }
  }

  lemma JumpSources(w: World, id: nat, key: int, p: Phase, e: Env)
    requires Jump(w, id, key, p, e).Some?
    ensures var d := Jump(w, id, key, p, e).value.c;
      d.started == w.c.started && d.hello.wanted == w.c.hello.wanted && d.log.checkedOver == w.c.log.checkedOver
  {
    hide ConnectingInit, OnCopyInit;
    var w1 := w.(c := w.c.(state := p));
    ConnectingInitParse(w1, id, key, e);
    CopyInitParse(w1);
  }

  /**
   * The method a connection is held to is the one in force at its first event; its credentials
   * are looked up among the users of the event that takes it to their answer.
   */
  lemma DispatchSources(w: World, id: nat, key: int, event: Event, e: Env)
    requires CallsBounded(w.c, key, event, e) && Dispatch(w, id, key, event, e).Some?
    ensures var d := Dispatch(w, id, key, event, e).value.c;
      && d.started && d.hello.wanted == (if w.c.started then w.c.hello.wanted else e.authMethod)
      && d.log.checkedOver
         == if w.c.state == UserpassRead && d.state == UserpassWrite then e.users else w.c.log.checkedOver
  {
    hide Handle, Jump, Finish;
    var w0 := First(Idle(w), e);
    HandleSources(w0, id, key, event, e);
    var (w1, p) := Handle(w0, id, key, event, e).value;
    JumpSources(w1, id, key, p, e);
    DispatchState(w, id, key, event, e);
    if Terminal(p) {
      FinishSame(Jump(w1, id, key, p, e).value, id);
    }
  }
}
