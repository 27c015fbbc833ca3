/**
 * What comes of every event of a connection, from the octets the client has sent and the answers
 * of the system calls: the state it leads to, what is said to the client, what stays buffered and
 * which descriptor is armed.
 */
module Outcomes {
  import opened Bytes
  import opened Buffers
  import opened Selectors
  import opened Connections
  import opened ConnectionTables
  import opened ConnectionLogs
  import opened ConnectionReplies
  import opened ConnectionInvariants
  import opened Dialing
  import ClientWire
  import FieldParsers
  import Hellos
  import Machines
  import Registries
  import Relays
  import RequestParsers

  /** The connection after the event, which an expected event always has. */
  function After(w: World, id: nat, key: int, event: Event, e: Env): Option<World> {
    if CallsBounded(w.c, key, event, e) then Dispatch(w, id, key, event, e) else None
  }

  // ----- From a handler to the whole event -----

  /** All of a connection but its state, its origin, its references and its relay. */
  predicate SameTalk(c: Conn, d: Conn) {
    && d.started == c.started && d.clientFd == c.clientFd && d.readBuffer == c.readBuffer
    && d.writeBuffer == c.writeBuffer && d.hello == c.hello && d.authentication == c.authentication
    && d.resolution == c.resolution && d.log.received == c.log.received && d.log.eatenHello == c.log.eatenHello
    && d.log.eatenAuth == c.log.eatenAuth && d.log.eatenRequest == c.log.eatenRequest
    && d.log.replies == c.log.replies && d.log.sent == c.log.sent && d.log.checkedOver == c.log.checkedOver
  }

  /** An event ends in the state its handler answers; only arrival in CONNECTING and in COPY says or arms more. */
  lemma Settled(w: World, id: nat, key: int, event: Event, e: Env)
    requires CallsBounded(w.c, key, event, e) && Dispatch(w, id, key, event, e).Some?
    ensures var w0, r := First(Idle(w), e), Dispatch(w, id, key, event, e).value;
      && Handle(w0, id, key, event, e).Some?
      && var (w1, p) := Handle(w0, id, key, event, e).value;
      && r.c.state == p
      && (p != RequestConnecting && p != Copy ==> SameTalk(w1.c, r.c))
      && (p == RequestResolv ==> r.c.request == w1.c.request)
      && (p != RequestConnecting && p != Copy && !Terminal(p) ==>
            r.table == w1.table && r.c.status == w1.c.status && r.c.originFd == w1.c.originFd)
  {
    hide Handle, ConnectingInit, OnCopyInit, Finish, FieldParsers.State.Valid, FieldParsers.WellFormed;
    var w0 := First(Idle(w), e);
    DispatchState(w, id, key, event, e);
    var (w1, p) := Handle(w0, id, key, event, e).value;
    if Terminal(p) {
      FinishSame(Jump(w1, id, key, p, e).value, id);
    }
  }

  // ----- What parsers have eaten, and all they have heard -----

  /** A parser that has eaten a first part makes of the rest what one parser makes of the whole. */
  lemma Rejoined<S>(step: (S, byte) -> S, done: S -> bool, start: S, p: S, eaten: seq<byte>, input: seq<byte>)
    requires !done(start) && !done(p) && Machines.Consume(step, done, start, eaten) == (p, |eaten|)
    ensures var r := Machines.Consume(step, done, p, input);
      Machines.Consume(step, done, start, eaten + input) == (r.0, |eaten| + r.1)
  {
    Machines.ConsumeSplit(step, done, start, eaten, input);
  }

  lemma Cut(a: seq<byte>, b: seq<byte>, n: nat)
    requires n <= |b|
    ensures a + b[..n] == (a + b)[..|a| + n] && b[n..] == (a + b)[|a| + n..]
  {
  }

  lemma Popped(f: Fifo, n: nat)
    requires n <= |f.contents|
    ensures f.Pop(n).contents == f.contents[n..]
  {
  }

  // ----- The greeting -----

  /** The method a connection is held to from its next event on. */
  function Required(c: Conn, e: Env): byte {
    if c.started then c.hello.wanted else e.authMethod
  }

  /** A greeting so far, the method required and the octets that came, and what comes of them. */
  ghost predicate GreetingHeard(heard: seq<byte>, required: byte, d: Conn) {
    if heard == [] then false
    else if Hellos.Complete(0x05, heard) then
      var n := Hellos.MessageLength(heard);
      var m := if required in Hellos.Offered(heard) then required else 0xFF;
      && d.state == HelloWrite && d.writeBuffer.contents == [0x05, m] && d.log.replies == [0x05, m] && d.log.sent == []
      && d.log.eatenHello == heard[..n] && d.readBuffer.contents == heard[n..]
    else if heard[0] == 0x05 then d.state == HelloRead && d.log.replies == [] && d.log.eatenHello == heard
    else d.state == Error
  }

  lemma GreetingParsed(c: Conn, chunk: seq<byte>)
    requires HelloFollows(c.hello, c.log.eatenHello) && !Hellos.IsDone(c.hello) && |chunk| <= c.readBuffer.Room()
    ensures var d, heard := EatHello(Received(c, chunk)), c.log.eatenHello + (c.readBuffer.contents + chunk);
      && Hellos.Take(Hellos.Start(0x05, c.hello.wanted), heard) == (d.hello, |d.log.eatenHello|)
      && |d.log.eatenHello| <= |heard|
      && d.log.eatenHello == heard[..|d.log.eatenHello|] && d.readBuffer.contents == heard[|d.log.eatenHello|..]
      && d == c.(hello := d.hello, readBuffer := d.readBuffer, log := d.log)
      && d.log == c.log.(received := c.log.received + chunk, eatenHello := d.log.eatenHello)
  {
    var eaten, input := c.log.eatenHello, c.readBuffer.contents + chunk;
    Rejoined(Hellos.Feed, Hellos.IsDone, Hellos.Start(0x05, c.hello.wanted), c.hello, eaten, input);
    var n := Hellos.Take(c.hello, input).1;
    Cut(eaten, input, n);
    Popped(c.readBuffer.Push(chunk), n);
    hide Machines.Consume;
  }

  /** All the client has sent is in the greeting until the greeting is over. */
  lemma GreetingStreams(c: Conn)
    requires Streams(c) && c.state == HelloRead
    ensures c.log.received == c.log.eatenHello + c.readBuffer.contents
  {
    assert c.log.eatenHello + [] + [] + [] == c.log.eatenHello;
  }

  /** A greeting on which nothing has been said yet, and the parser on all of it. */
  lemma GreetingFacts(c: Conn, chunk: seq<byte>)
    requires Sane(c) && Spoken(c) && c.state == HelloRead && |chunk| <= c.readBuffer.Room()
    ensures c.writeBuffer.contents == [] && c.writeBuffer.Room() == BUFFER_SIZE && c.log.replies == c.log.sent == []
    ensures var d, heard := EatHello(Received(c, chunk)), c.log.received + chunk;
      && Hellos.Take(Hellos.Start(0x05, c.hello.wanted), heard) == (d.hello, |d.log.eatenHello|)
      && |d.log.eatenHello| <= |heard|
      && d.log.eatenHello == heard[..|d.log.eatenHello|] && d.readBuffer.contents == heard[|d.log.eatenHello|..]
      && d == c.(hello := d.hello, readBuffer := d.readBuffer, log := d.log)
      && d.log == c.log.(received := heard, eatenHello := d.log.eatenHello)
  {
    AllSent(c);
    GreetingStreams(c);
    GreetingParsed(c, chunk);
    hide Streams, EatHello, Hellos.Take, FieldParsers.State.Valid, FieldParsers.WellFormed;
    assert c.log.received + chunk == c.log.eatenHello + (c.readBuffer.contents + chunk);
  }

  lemma GreetingHandled(w: World, key: int, chunk: seq<byte>, e: Env)
    requires Sane(w.c) && Spoken(w.c) && w.c.state == HelloRead && CanWatch(w, key)
    requires e.received == Some(chunk) && 0 < |chunk| <= w.c.readBuffer.Room()
    ensures var (w', p) := OnHelloRead(w, key, e);
      GreetingHeard(w.c.log.received + chunk, w.c.hello.wanted, w'.c.(state := p))
  {
    hide Sane, Spoken, EatHello, Hellos.Take, FieldParsers.State.Valid, FieldParsers.WellFormed;
    GreetingFacts(w.c, chunk);
    var heard := w.c.log.received + chunk;
    Hellos.TakeExact(0x05, w.c.hello.wanted, heard);
    assert heard[..|heard|] == heard && forall s: seq<byte> :: [] + s == s;
  }

  // ----- What a state is armed for -----

  /** A descriptor is registered, for this. */
  predicate Watched(w: World, fd: int, i: Interest) {
    fd in w.table && w.table[fd].interest == i
  }

  /** The client's interest that goes with a state. */
  predicate ClientArmed(w: World) {
    w.c.state in {HelloRead, HelloWrite, UserpassRead, UserpassWrite, RequestRead, RequestResolv, RequestWrite} ==>
      Watched(w, w.c.clientFd, if w.c.state in {HelloRead, UserpassRead, RequestRead} then OP_READ
                               else if w.c.state == RequestResolv then OP_NOOP
                               else OP_WRITE)
  }

  lemma StateArms(w: World, id: nat)
    requires ConnOk(w, id)
    ensures ClientArmed(w)
  {
    hide Streams, Progress, Spoken, Leaks, FieldParsers.State.Valid, FieldParsers.WellFormed;
  }

  /** What is known of a connection that is about to handle an event, on its first one too. */
  lemma BeforeEvent(w: World, id: nat, key: int, event: Event, e: Env)
    requires ConnOk(w, id) && Expected(w, id, key, event, e)
    ensures var w0 := First(Idle(w), e);
      && Sane(w0.c) && Spoken(w0.c) && CanWatch(w0, w0.c.clientFd) && CanWatch(w0, key)
      && w0.c.state == w.c.state && w0.c.log == w.c.log && w0.c.readBuffer == w.c.readBuffer
      && w0.c.writeBuffer == w.c.writeBuffer && w0.c.clientFd == w.c.clientFd && w0.c.originFd == w.c.originFd
      && w0.c.status == w.c.status && w0.c.more == w.c.more && w0.c.resolution == w.c.resolution
      && w0.table == w.table && w0.open == w.open && w0.c.hello.wanted == Required(w.c, e)
      && CallsBounded(w0.c, key, event, e)
      && (w.c.started ==> w0.c == w.c)
    ensures !Terminal(w.c.state) && (w.c.state != HelloRead ==> w.c.started)
  {
    LiveWhenDue(w, id, key, event);
    BeganIfBeyond(w.c);
    StreamsInTurn(w.c);
    FirstProgress(Idle(w), e);
    SameStreamsHold(w.c, First(Idle(w), e).c);
    FirstSpoken(w, e);
    Watchable(w, id, key, event);
    hide Streams, Progress, Spoken, Upheld, FieldParsers.State.Valid, FieldParsers.WellFormed;
  }

  lemma Watchable(w: World, id: nat, key: int, event: Event)
    requires ConnOk(w, id) && Own(w.table, key, id) && Due(w, key, event)
    ensures CanWatch(w, w.c.clientFd) && CanWatch(w, key) && BuffersOk(w.c)
    ensures w.c.clientFd != w.c.originFd && (key == w.c.clientFd || key == w.c.originFd)
  {
    LiveWhenDue(w, id, key, event);
    hide Streams, Progress, Spoken, FieldParsers.State.Valid, FieldParsers.WellFormed;
  }

  /**
   * Every expected event is survived and kept, and what it leaves is what its handler left, in the
   * state the handler answered, armed for that state.
   */
  lemma Leads(w: World, id: nat, key: int, event: Event, e: Env)
    requires ConnOk(w, id) && Expected(w, id, key, event, e)
    ensures var w0, r := First(Idle(w), e), Dispatch(w, id, key, event, e);
      && r.Some? && ConnOk(r.value, id) && ClientArmed(r.value) && Handle(w0, id, key, event, e).Some?
      && var (w1, p) := Handle(w0, id, key, event, e).value;
      && r.value.c.state == p && r.value.c.clientFd == w.c.clientFd
      && (r.value.spawned <==> p == RequestResolv)
      && (p != RequestConnecting && p != Copy ==> SameTalk(w1.c, r.value.c))
      && (p == RequestResolv ==> r.value.c.request == w1.c.request)
      && (p != RequestConnecting && p != Copy && !Terminal(p) ==>
            r.value.table == w1.table && r.value.c.status == w1.c.status && r.value.c.originFd == w1.c.originFd)
  {
    hide ConnOk, Dispatch, Dials, CallsBounded, Handle, SameTalk, Plausible, Due, FieldParsers.State.Valid;
    hide FieldParsers.WellFormed;
    EventKept(w, id, key, event, e);
    Settled(w, id, key, event, e);
    StateArms(Dispatch(w, id, key, event, e).value, id);
  }

  /**
   * The greeting. Whatever was required at the first event and however the octets came, the event
   * that completes a greeting of the right version is answered 05 and that method where it was
   * offered, 05 FF where it was not; before that nothing is said, and no other version is answered.
   */
  lemma GreetingOutcome(w: World, id: nat, e: Env)
    requires ConnOk(w, id) && w.c.state == HelloRead && Expected(w, id, w.c.clientFd, Readable, e)
    ensures var r := Dispatch(w, id, w.c.clientFd, Readable, e);
      && r.Some? && ConnOk(r.value, id) && ClientArmed(r.value)
      && if e.received.None? then r.value.c.state == Error
         else GreetingHeard(w.c.log.received + e.received.value, Required(w.c, e), r.value.c)
  {
    hide ConnOk, Dispatch, Sane, Spoken, Dials, Plausible, Due, CanWatch, FieldParsers.State.Valid;
    hide FieldParsers.WellFormed, EatHello;
    hide ClientArmed, First, OnHelloRead, GreetingHeard;
    var key, w0 := w.c.clientFd, First(Idle(w), e);
    BeforeEvent(w, id, key, Readable, e);
    Leads(w, id, key, Readable, e);
    var (w1, p) := OnHelloRead(w0, key, e);
    if e.received.Some? {
      var heard := w.c.log.received + e.received.value;
      GreetingHandled(w0, key, e.received.value, e);
      GreetingLead(heard, Required(w.c, e), w1.c.(state := p));
      GreetingSame(heard, Required(w.c, e), w1.c.(state := p), Dispatch(w, id, key, Readable, e).value.c);
    } else {
      NoGreeting(w0, key, e);
    }
  }

  lemma GreetingLead(heard: seq<byte>, required: byte, d: Conn)
    requires GreetingHeard(heard, required, d)
    ensures d.state in {HelloRead, HelloWrite, Error}
  {
  }

  lemma GreetingSame(heard: seq<byte>, required: byte, a: Conn, b: Conn)
    requires GreetingHeard(heard, required, a) && SameTalk(a, b) && a.state == b.state
    ensures GreetingHeard(heard, required, b)
  {
  }

  lemma NoGreeting(w: World, key: int, e: Env)
    requires e.received.None?
    ensures OnHelloRead(w, key, e).1 == Error
  {
  }

  /**
   * The answer to the greeting. Once it is out whole, a client that was refused is done with, one
   * that need not authenticate may make its request, and one that must is asked to; until then the
   * rest of the answer waits to be sent.
   */
  lemma GreetingAnswered(w: World, id: nat, e: Env)
    requires ConnOk(w, id) && w.c.state == HelloWrite && Expected(w, id, w.c.clientFd, Writable, e)
    ensures Hellos.Complete(0x05, w.c.log.eatenHello)
    ensures var r := Dispatch(w, id, w.c.clientFd, Writable, e);
      && r.Some? && ConnOk(r.value, id) && ClientArmed(r.value)
      && var d, offered := r.value.c, Hellos.Offered(w.c.log.eatenHello);
      && (if e.sent.None? then d.state == Error
          else if e.sent.value < |w.c.writeBuffer.contents| then d.state == HelloWrite
          else if w.c.hello.wanted !in offered then d.state == Done && d.log.sent == [0x05, 0xFF]
          else d.state == (if w.c.hello.wanted == 0x02 then UserpassRead else RequestRead)
               && d.log.sent == [0x05, w.c.hello.wanted] && d.log.eatenAuth == [] && d.log.eatenRequest == [])
      && d.readBuffer == w.c.readBuffer
  {
    hide ConnOk, Dispatch, Sane, Spoken, Dials, Plausible, Due, CanWatch, FieldParsers.State.Valid;
    hide FieldParsers.WellFormed;
    hide ClientArmed, First, Hellos.Complete, OnHelloWrite;
    var key := w.c.clientFd;
    BeforeEvent(w, id, key, Writable, e);
    Leads(w, id, key, Writable, e);
    AnswerHandled(First(Idle(w), e), key, e);
  }

  lemma AnswerHandled(w: World, key: int, e: Env)
    requires Sane(w.c) && Spoken(w.c) && w.c.state == HelloWrite && CanWatch(w, key)
        && CallsBounded(w.c, key, Writable, e)
    ensures Hellos.Complete(0x05, w.c.log.eatenHello)
    ensures var (w', p) := OnHelloWrite(w, key, e);
      && w'.c.readBuffer == w.c.readBuffer && w'.c.log.eatenAuth == [] && w'.c.log.eatenRequest == []
      && (if e.sent.None? then p == Error
          else if e.sent.value < |w.c.writeBuffer.contents| then p == HelloWrite
          else if w.c.hello.wanted !in Hellos.Offered(w.c.log.eatenHello) then
            p == Done && w'.c.log.sent == [0x05, 0xFF]
          else p == (if w.c.hello.wanted == 0x02 then UserpassRead else RequestRead)
               && w'.c.log.sent == [0x05, w.c.hello.wanted])
  {
    ChosenMethod(w.c);
    if e.sent.Some? {
      SentStreams(w.c, e.sent.value);
      AllSent(Sent(w.c, e.sent.value));
    }
    hide Streams, FieldParsers.State.Valid, FieldParsers.WellFormed;
  }

  // ----- The credentials -----

  /** What the client has sent since its greeting. */
  function SinceGreeting(c: Conn, chunk: seq<byte>): seq<byte>
    requires |c.log.eatenHello| <= |c.log.received|
  {
    (c.log.received + chunk)[|c.log.eatenHello|..]
  }

  /** The pair of a whole credentials message is a registered user's. */
  predicate Known(users: seq<Registries.User>, s: seq<byte>)
    requires ClientWire.WholeCredentials(s)
  {
    Registries.Check(users, CString(ClientWire.UserOf(s)), CString(ClientWire.PassOf(s))).Some?
  }

  /** Credentials so far, the users registered, and what comes of them. */
  ghost predicate CredentialsHeard(heard: seq<byte>, users: seq<Registries.User>, d: Conn) {
    if heard == [] then false
    else if heard[0] != 0x01 then d.state == Error
    else if !ClientWire.WholeCredentials(heard) then d.state == UserpassRead && d.log.eatenAuth == heard
    else
      var n := ClientWire.CredentialsSize(heard);
      && d.state == UserpassWrite && d.log.checkedOver == users
      && d.authentication == (if Known(users, heard) then 0x00 else 0x01)
      && d.log.eatenAuth == heard[..n] && d.readBuffer.contents == heard[n..]
  }

  lemma CredentialsParsed(c: Conn, chunk: seq<byte>)
    requires AuthFollows(c.auth, c.log.eatenAuth) && !FieldParsers.IsDone(c.auth) && |chunk| <= c.readBuffer.Room()
    ensures var d, heard := EatAuth(Received(c, chunk)), c.log.eatenAuth + (c.readBuffer.contents + chunk);
      && FieldParsers.Take(ClientWire.StartAuth(), heard) == (d.auth, |d.log.eatenAuth|)
      && |d.log.eatenAuth| <= |heard|
      && d.log.eatenAuth == heard[..|d.log.eatenAuth|] && d.readBuffer.contents == heard[|d.log.eatenAuth|..]
      && d == c.(auth := d.auth, readBuffer := d.readBuffer, log := d.log)
      && d.log == c.log.(received := c.log.received + chunk, eatenAuth := d.log.eatenAuth)
  {
    hide FieldParsers.State.Valid, FieldParsers.WellFormed, Machines.Consume, ClientWire.StartAuth;
    var eaten, input := c.log.eatenAuth, c.readBuffer.contents + chunk;
    AuthStarts();
    Rejoined(FieldParsers.Feed, FieldParsers.IsDone, ClientWire.StartAuth(), c.auth, eaten, input);
    var n := FieldParsers.Take(c.auth, input).1;
    Cut(eaten, input, n);
    Popped(c.readBuffer.Push(chunk), n);
  }

  /** After the greeting, all the client has sent is in the credentials until they are over. */
  lemma CredentialsStreams(c: Conn, chunk: seq<byte>)
    requires Streams(c) && c.state == UserpassRead
    ensures |c.log.eatenHello| <= |c.log.received|
    ensures SinceGreeting(c, chunk) == c.log.eatenAuth + (c.readBuffer.contents + chunk)
  {
    var a, b, r := c.log.eatenHello, c.log.eatenAuth, c.readBuffer.contents;
    assert c.log.received == a + b + r by {
      assert a + b + [] + [] == a + b;
    }
    assert (a + b + r) + chunk == a + (b + (r + chunk));
  }

  lemma CredentialsFacts(c: Conn, chunk: seq<byte>)
    requires Sane(c) && c.state == UserpassRead && 0 < |chunk| <= c.readBuffer.Room()
    ensures |c.log.eatenHello| <= |c.log.received|
    ensures var d, heard := EatAuth(Received(c, chunk)), SinceGreeting(c, chunk);
      && heard != [] && FieldParsers.Take(ClientWire.StartAuth(), heard) == (d.auth, |d.log.eatenAuth|)
      && |d.log.eatenAuth| <= |heard|
      && d.log.eatenAuth == heard[..|d.log.eatenAuth|] && d.readBuffer.contents == heard[|d.log.eatenAuth|..]
      && d == c.(auth := d.auth, readBuffer := d.readBuffer, log := d.log)
      && d.log == c.log.(received := c.log.received + chunk, eatenAuth := d.log.eatenAuth)
  {
    CredentialsStreams(c, chunk);
    CredentialsParsed(c, chunk);
    hide Streams, EatAuth, SinceGreeting, FieldParsers.Take, ClientWire.StartAuth, FieldParsers.State.Valid;
  }

  lemma CredentialsHandled(w: World, key: int, chunk: seq<byte>, e: Env)
    requires Sane(w.c) && w.c.state == UserpassRead && CanWatch(w, key)
    requires e.received == Some(chunk) && 0 < |chunk| <= w.c.readBuffer.Room()
    ensures |w.c.log.eatenHello| <= |w.c.log.received|
    ensures var (w', p) := OnUserpassRead(w, key, e);
      && CredentialsHeard(SinceGreeting(w.c, chunk), e.users, w'.c.(state := p))
      && w'.c.log.replies == w.c.log.replies && w'.c.log.sent == w.c.log.sent
      && w'.c.log.eatenHello == w.c.log.eatenHello
  {
    hide Sane, EatAuth, SinceGreeting, FieldParsers.Take, ClientWire.StartAuth, ClientWire.WholeCredentials;
    hide ClientWire.CredentialsSize, ClientWire.UserOf, ClientWire.PassOf, FieldParsers.State.Valid;
    CredentialsFacts(w.c, chunk);
    var heard := SinceGreeting(w.c, chunk);
    ClientWire.CredentialsDecided(heard);
    assert heard[..|heard|] == heard;
  }

  /**
   * The credentials. However the octets came, the event that completes a message of the right
   * version has its pair looked up among the users registered at that moment, and arms the answer;
   * another version ends the connection on its first octet; anything less is waited for.
   */
  lemma CredentialsOutcome(w: World, id: nat, e: Env)
    requires ConnOk(w, id) && w.c.state == UserpassRead && Expected(w, id, w.c.clientFd, Readable, e)
    ensures |w.c.log.eatenHello| <= |w.c.log.received|
    ensures var r := Dispatch(w, id, w.c.clientFd, Readable, e);
      && r.Some? && ConnOk(r.value, id) && ClientArmed(r.value)
      && if e.received.None? then r.value.c.state == Error
         else CredentialsHeard(SinceGreeting(w.c, e.received.value), e.users, r.value.c)
              && r.value.c.log.replies == w.c.log.replies && r.value.c.log.sent == w.c.log.sent
              && r.value.c.log.eatenHello == w.c.log.eatenHello
  {
    hide ConnOk, Dispatch, Sane, Spoken, Dials, Plausible, Due, CanWatch, FieldParsers.State.Valid;
    hide FieldParsers.WellFormed;
    hide ClientArmed, First, OnUserpassRead, SinceGreeting, CredentialsHeard;
    var key, w0 := w.c.clientFd, First(Idle(w), e);
    BeforeEvent(w, id, key, Readable, e);
    Leads(w, id, key, Readable, e);
    CredentialsBound(w.c);
    var (w1, p) := OnUserpassRead(w0, key, e);
    if e.received.Some? {
      CredentialsHandled(w0, key, e.received.value, e);
      CredentialsLead(SinceGreeting(w.c, e.received.value), e.users, w1.c.(state := p));
      CredentialsSame(SinceGreeting(w.c, e.received.value), e.users, w1.c.(state := p),
                      Dispatch(w, id, key, Readable, e).value.c);
    } else {
      NoCredentials(w0, key, e);
    }
  }

  lemma CredentialsLead(heard: seq<byte>, users: seq<Registries.User>, d: Conn)
    requires CredentialsHeard(heard, users, d)
    ensures d.state in {UserpassRead, UserpassWrite, Error}
  {
  }

  lemma CredentialsSame(heard: seq<byte>, users: seq<Registries.User>, a: Conn, b: Conn)
    requires CredentialsHeard(heard, users, a) && SameTalk(a, b) && a.state == b.state
    ensures CredentialsHeard(heard, users, b)
  {
  }

  lemma NoCredentials(w: World, key: int, e: Env)
    requires e.received.None?
    ensures OnUserpassRead(w, key, e).1 == Error
  {
  }

  lemma CredentialsBound(c: Conn)
    requires Sane(c) && c.state == UserpassRead
    ensures |c.log.eatenHello| <= |c.log.received|
  {
    CredentialsStreams(c, []);
  }

  /**
   * The answer to the credentials. Once what is buffered is out whole, a client whose pair was
   * registered when it was looked up may make its request, and any other is done with; it has been
   * sent the same answer as often as it took, 01 00 or 01 01.
   */
  lemma CredentialsAnswered(w: World, id: nat, e: Env)
    requires ConnOk(w, id) && w.c.state == UserpassWrite && Expected(w, id, w.c.clientFd, Writable, e)
    ensures var s := w.c.log.eatenAuth;
      ClientWire.WholeCredentials(s) && ClientWire.CredentialsSize(s) == |s|
    ensures var r, right := Dispatch(w, id, w.c.clientFd, Writable, e), Known(w.c.log.checkedOver, w.c.log.eatenAuth);
      && r.Some? && ConnOk(r.value, id) && ClientArmed(r.value)
      && var d := r.value.c;
      && (if e.sent.None? then d.state == Error
          else if e.sent.value < |SendBytes(w.c, w.c.clientFd)| then d.state == UserpassWrite
          else
            && d.state == (if right then RequestRead else Done)
            && d.log.sent == d.log.replies && |d.log.sent| > 2 && d.log.sent[..2] == [0x05, 0x02]
            && Repeats(d.log.sent[2..], [0x01, if right then 0x00 else 0x01]) && d.log.eatenRequest == [])
      && d.readBuffer == w.c.readBuffer
      && d.log.replies == Marshal(w.c, [0x01, if right then 0x00 else 0x01]).log.replies
  {
    hide ConnOk, Dispatch, Sane, Spoken, Dials, Plausible, Due, CanWatch, FieldParsers.State.Valid;
    hide FieldParsers.WellFormed;
    hide ClientArmed, First, OnUserpassWrite, Known, ClientWire.WholeCredentials, ClientWire.CredentialsSize, Repeats;
    var key := w.c.clientFd;
    BeforeEvent(w, id, key, Writable, e);
    Leads(w, id, key, Writable, e);
    OutcomeHandled(First(Idle(w), e), key, e);
  }

  lemma AnswerIsOutcome(c: Conn)
    requires Sane(c) && c.state == UserpassWrite
    ensures var s := c.log.eatenAuth;
      ClientWire.WholeCredentials(s) && ClientWire.CredentialsSize(s) == |s|
      && (c.authentication == 0x00 <==> Known(c.log.checkedOver, s))
  {
    var s := c.log.eatenAuth;
    assert AuthFollows(c.auth, s) && c.auth.phase == FieldParsers.Done
        && Looked(c.auth, c.authentication, c.log.checkedOver);
    hide Streams, FieldParsers.Take, FieldParsers.State.Valid, FieldParsers.WellFormed, Progress;
    ClientWire.SchemasWellFormed();
    if s == [] {
      AuthStarts();
    } else {
      ClientWire.CredentialsDecided(s);
    }
  }

  lemma OutcomeHandled(w: World, key: int, e: Env)
    requires Sane(w.c) && Spoken(w.c) && w.c.state == UserpassWrite && CanWatch(w, key)
    requires CallsBounded(w.c, key, Writable, e)
    ensures var s := w.c.log.eatenAuth;
      ClientWire.WholeCredentials(s) && ClientWire.CredentialsSize(s) == |s|
    ensures var (w', p), right := OnUserpassWrite(w, key, e), Known(w.c.log.checkedOver, w.c.log.eatenAuth);
      && w'.c.readBuffer == w.c.readBuffer
      && (if e.sent.None? then p == Error
          else if e.sent.value < |SendBytes(w.c, key)| then p == UserpassWrite
          else
            && p == (if right then RequestRead else Done)
            && w'.c.log.sent == w'.c.log.replies && |w'.c.log.sent| > 2 && w'.c.log.sent[..2] == [0x05, 0x02]
            && Repeats(w'.c.log.sent[2..], [0x01, if right then 0x00 else 0x01]) && w'.c.log.eatenRequest == [])
      && w'.c.log.replies == Marshal(w.c, [0x01, if right then 0x00 else 0x01]).log.replies
  {
    hide Sane, FieldParsers.State.Valid, FieldParsers.WellFormed, Repeats, Downstream, Known;
    hide ClientWire.WholeCredentials;
    var c := WithAuthReply(w.c);
    AnswerIsOutcome(w.c);
    AnswerDue(w.c);
    RequestNotYet(w.c);
    if e.sent.Some? {
      SentDown(c, e.sent.value);
      AllSent(Sent(c, e.sent.value));
    }
  }

  lemma RequestNotYet(c: Conn)
    requires Sane(c) && c.state == UserpassWrite
    ensures c.log.eatenRequest == []
  {
  }

  // ----- Attempts at the origin -----

  /** The reply to a request: version, status, and an IPv4 address and port that mean nothing. */
  function ReplyOctets(status: byte): seq<byte> {
    [0x05, status, 0x00, 0x01, 0x00, 0x00, 0x00, 0x00, 0x00, 0x00]
  }

  /** Section 6 of RFC 1928: a status octet tells apart the four errors that have one, and never says success. */
  predicate Tells(status: byte, e: Errno) {
    && (status == 0x03 <==> e == NetUnreach) && (status == 0x04 <==> e == HostUnreach)
    && (status == 0x05 <==> e == ConnRefused) && (status == 0x06 <==> e == TimedOut)
    && (status == 0x01 <==> e == Errno.Other) && status != 0x00
  }

  /** A reply with this status is what is said, where there is room for it, and the client is armed to be sent it. */
  predicate Told(w: World, r: World, status: byte) {
    && r.c.log.replies == w.c.log.replies + (if w.c.writeBuffer.Room() < 10 then [] else ReplyOctets(status))
    && Watched(r, w.c.clientFd, OP_WRITE)
  }

  /** The origin's new registration, and a silent client. */
  predicate UnderWay(w: World, r: World, id: nat) {
    && r.c.log.replies == w.c.log.replies && Registered(r.table, r.c.originFd, id)
    && Watched(r, r.c.originFd, OP_WRITE) && Watched(r, w.c.clientFd, OP_NOOP)
  }

  /** connect called on the origin's descriptor, which does not connect at once, and what comes of it. */
  predicate Dialled(w: World, r: World, id: nat, fd: int, connect: Attempt) {
    match connect
    case Failed(errno) => r.c.originFd == fd && Tells(r.c.status, errno) && Told(w, r, r.c.status)
    case AtOnce => false
    case InProgress =>
      if InvalidFd(fd) || fd in w.table then r.c.originFd == -1 && r.c.status == 0x01 && Told(w, r, 0x01)
      else r.c.originFd == fd && r.c.status == w.c.status && UnderWay(w, r, id)
  }

  /** Arrival in CONNECTING, and what comes of socket, of the call that makes it non-blocking and of connect. */
  predicate Attempted(w: World, r: World, id: nat, e: Env) {
    if e.socket.None? then r.c.originFd == -1 && r.c.status == 0x01 && Told(w, r, 0x01)
    else if !e.nonBlocking then r.c.originFd == e.socket.value && r.c.status == 0x01 && Told(w, r, 0x01)
    else Dialled(WithStatus(w, 0x00), r, id, e.socket.value, e.connect)
  }

  lemma FailureTold(w: World, s: byte)
    requires CanWatch(w, w.c.clientFd) && w.c.originFd != w.c.clientFd
    ensures var r := ErrorToClient(WithStatus(w, s), s);
      && Told(w, r, s) && r.c.status == s && r.c.originFd == w.c.originFd && r.c.clientFd == w.c.clientFd
      && r.c.state == w.c.state && r.c.more == w.c.more && r.open == w.open
  {
    hide FieldParsers.State.Valid, FieldParsers.WellFormed;
  }

  lemma BegunHandled(w: World, id: nat, key: int)
    requires CanWatch(w, w.c.clientFd) && CanWatch(w, key) && w.c.originFd != w.c.clientFd
    requires w.c.originFd in w.table || key == w.c.clientFd
    ensures Dialled(w, ConnectionBegun(w, id, key).0, id, w.c.originFd, InProgress)
    ensures var r := ConnectionBegun(w, id, key).0;
      r.c.clientFd == w.c.clientFd && r.c.state == w.c.state && r.c.more == w.c.more
  {
    hide ErrorToClient, FieldParsers.State.Valid, FieldParsers.WellFormed;
    FailureTold(Watch(w, key, OP_NOOP), GENERAL_FAILURE);
  }

  lemma ConnectHandled(w: World, id: nat, key: int, e: Env)
    requires CanWatch(w, w.c.clientFd) && CanWatch(w, key) && w.c.originFd != w.c.clientFd && w.c.originFd != -1
    requires (w.c.originFd in w.table || key == w.c.clientFd) && !e.connect.AtOnce?
    ensures var (r, s) := Connect(w, id, key, e);
      && Dialled(w, r, id, w.c.originFd, e.connect) && r.c.state == w.c.state && r.c.clientFd == w.c.clientFd
      && r.c.more == w.c.more && (s == 0x00 || s == r.c.status)
  {
    hide ErrorToClient, ConnectionBegun, FieldParsers.State.Valid, FieldParsers.WellFormed;
    ConnectSays(w, id, key, e);
    if e.connect.Failed? {
      FailureTold(w, ErrnoToSocks(e.connect.errno));
    } else {
      BegunHandled(w, id, key);
    }
  }

  /**
   * connect that succeeds at once: the reference comes first; a new number is then registered for
   * READ, as the caller's is, and one that cannot be is reported but not closed.
   */
  lemma AtOnceOutcome(w: World, id: nat, key: int)
    requires CanWatch(w, w.c.clientFd) && CanWatch(w, key) && w.c.originFd != w.c.clientFd
    requires w.c.originFd in w.table || key == w.c.clientFd
    ensures var (r, s) := ConnectedAtOnce(w, id, key);
      && r.c.references == w.c.references + 1 && r.c.originFd == w.c.originFd && r.open == w.open
      && if InvalidFd(w.c.originFd) || w.c.originFd in w.table then
           s == r.c.status == 0x01 && Told(w, r, 0x01)
         else
           && s == 0x00 && r.c.status == w.c.status && r.c.log.replies == w.c.log.replies
           && Registered(r.table, w.c.originFd, id) && Watched(r, w.c.originFd, OP_READ) && Watched(r, key, OP_READ)
  {
    hide ErrorToClient, FieldParsers.State.Valid, FieldParsers.WellFormed;
    var w0 := w.(c := w.c.(references := w.c.references + 1));
    FailureTold(Watch(w0, key, OP_READ), GENERAL_FAILURE);
    ErrorToClientSays(WithStatus(Watch(w0, key, OP_READ), GENERAL_FAILURE), GENERAL_FAILURE);
    MarshalSays(WithStatus(Watch(w0, key, OP_READ), GENERAL_FAILURE).c, Reply(GENERAL_FAILURE));
  }

  lemma ArrivalHandled(w: World, id: nat, e: Env)
    requires CanWatch(w, w.c.clientFd) && w.c.originFd == -1 && w.c.clientFd in w.open && Plausible(w, e)
    requires !(NewSocket(e) && e.connect.AtOnce?)
    ensures var r := ConnectingInit(w, id, w.c.clientFd, e);
      Attempted(w, r, id, e) && r.c.clientFd == w.c.clientFd
  {
    hide ErrorToClient, Connect, FieldParsers.State.Valid, FieldParsers.WellFormed;
    var w0 := WithStatus(w, 0x00);
    FailureTold(w0.(c := w0.c.(originFd := -1)), GENERAL_FAILURE);
    if e.socket.Some? {
      var w1 := w0.(c := w0.c.(originFd := e.socket.value), open := w0.open[e.socket.value := id]);
      FailureTold(w1, GENERAL_FAILURE);
      if e.nonBlocking {
        ConnectHandled(w1, id, w.c.clientFd, e);
        ConnectSays(w1, id, w.c.clientFd, e);
      }
    }
  }

  // ----- The request -----

  /** What the client has sent since its greeting and its credentials, if any. */
  function SinceCredentials(c: Conn, chunk: seq<byte>): seq<byte>
    requires |c.log.eatenHello| + |c.log.eatenAuth| <= |c.log.received|
  {
    (c.log.received + chunk)[|c.log.eatenHello| + |c.log.eatenAuth|..]
  }

  /** A request so far, and what comes of it: a name is resolved, an address is dialled. */
  ghost predicate RequestHeard(w: World, heard: seq<byte>, r: World, id: nat, e: Env) {
    var (p, n) := RequestParsers.Take(RequestParsers.START, heard);
    if n > |heard| then false
    else if !RequestParsers.IsDone(p) then
      r.c.state == RequestRead && !r.spawned && r.c.log.eatenRequest == heard && r.c.log.replies == w.c.log.replies
    else
      && r.c.request == p && r.c.log.eatenRequest == heard[..n] && r.c.readBuffer.contents == heard[n..]
      && if p.atyp == RequestParsers.ATYP_DOMAIN then
           r.c.state == RequestResolv && r.spawned && r.c.log.replies == w.c.log.replies
         else r.c.state == RequestConnecting && !r.spawned && Attempted(w, r, id, e)
  }

  lemma RequestParsed(c: Conn, chunk: seq<byte>)
    requires RequestFollows(c.request, c.log.eatenRequest) && !RequestParsers.IsDone(c.request)
    requires |chunk| <= c.readBuffer.Room()
    ensures var d, heard := EatRequest(Received(c, chunk)), c.log.eatenRequest + (c.readBuffer.contents + chunk);
      && RequestParsers.Take(RequestParsers.START, heard) == (d.request, |d.log.eatenRequest|)
      && |d.log.eatenRequest| <= |heard|
      && d.log.eatenRequest == heard[..|d.log.eatenRequest|] && d.readBuffer.contents == heard[|d.log.eatenRequest|..]
      && d == c.(request := d.request, readBuffer := d.readBuffer, log := d.log)
      && d.log == c.log.(received := c.log.received + chunk, eatenRequest := d.log.eatenRequest)
      && (!RequestParsers.IsDone(d.request) ==> d.log.eatenRequest == heard)
  {
    var eaten, input := c.log.eatenRequest, c.readBuffer.contents + chunk;
    Rejoined(RequestParsers.Feed, RequestParsers.IsDone, RequestParsers.START, c.request, eaten, input);
    Machines.ConsumeSplit(RequestParsers.Feed, RequestParsers.IsDone, RequestParsers.START, eaten + input, []);
    var n := RequestParsers.Take(c.request, input).1;
    Cut(eaten, input, n);
    Popped(c.readBuffer.Push(chunk), n);
    hide Machines.Consume;
    assert (eaten + input)[..|eaten + input|] == eaten + input;
  }

  lemma RequestStreams(c: Conn, chunk: seq<byte>)
    requires Streams(c) && c.state == RequestRead
    ensures |c.log.eatenHello| + |c.log.eatenAuth| <= |c.log.received|
    ensures SinceCredentials(c, chunk) == c.log.eatenRequest + (c.readBuffer.contents + chunk)
  {
    var a, b, q, r := c.log.eatenHello, c.log.eatenAuth, c.log.eatenRequest, c.readBuffer.contents;
    assert c.log.received == a + b + q + r by {
      assert a + b + q + [] == a + b + q;
    }
    assert (a + b + q + r) + chunk == (a + b) + (q + (r + chunk));
  }

  /** What the request handler makes of a chunk, up to the attempt. */
  lemma RequestHandled(w: World, key: int, chunk: seq<byte>, e: Env)
    requires Sane(w.c) && w.c.state == RequestRead && e.received == Some(chunk) && 0 < |chunk| <= w.c.readBuffer.Room()
    ensures |w.c.log.eatenHello| + |w.c.log.eatenAuth| <= |w.c.log.received|
    ensures var (w', p), heard := OnRequestRead(w, key, e), SinceCredentials(w.c, chunk);
      var (q, n) := RequestParsers.Take(RequestParsers.START, heard);
      && n <= |heard| && w'.c.log.eatenRequest == heard[..n] && w'.c.readBuffer.contents == heard[n..]
      && (!RequestParsers.IsDone(q) ==> p == RequestRead && n == |heard|)
      && (RequestParsers.IsDone(q) ==>
            p == if q.atyp == RequestParsers.ATYP_DOMAIN then RequestResolv else RequestConnecting)
      && w'.c == w.c.(request := q, readBuffer := w'.c.readBuffer, log := w'.c.log)
      && w'.c.log == w.c.log.(received := w'.c.log.received, eatenRequest := w'.c.log.eatenRequest)
      && (p == RequestConnecting ==> w'.table == w.table && w'.open == w.open)
  {
    RequestStreams(w.c, chunk);
    RequestParsed(w.c, chunk);
    ProgressAnswers(w.c, e);
    hide Progress, Streams, EatRequest, SinceCredentials, RequestParsers.Take, FieldParsers.State.Valid;
    hide FieldParsers.WellFormed;
  }

  lemma RequestBound(c: Conn)
    requires Sane(c) && c.state == RequestRead
    ensures |c.log.eatenHello| + |c.log.eatenAuth| <= |c.log.received|
  {
    RequestStreams(c, []);
  }

  /**
   * The request. However the octets came, the event that completes a request for a name starts
   * one resolver and silences the client, and one that completes a request for an address makes an
   * attempt at it; until then nothing is said, and what the client pipelined stays buffered.
   */
  lemma RequestOutcome(w: World, id: nat, e: Env)
    requires ConnOk(w, id) && w.c.state == RequestRead && Expected(w, id, w.c.clientFd, Readable, e)
    ensures |w.c.log.eatenHello| + |w.c.log.eatenAuth| <= |w.c.log.received|
    ensures var r := Dispatch(w, id, w.c.clientFd, Readable, e);
      && r.Some? && ConnOk(r.value, id) && ClientArmed(r.value)
      && if e.received.None? then r.value.c.state == Error
         else RequestHeard(w, SinceCredentials(w.c, e.received.value), r.value, id, e)
  {
    hide ConnOk, Dispatch, Sane, Spoken, Dials, Plausible, Due, CanWatch, FieldParsers.State.Valid;
    hide FieldParsers.WellFormed;
    hide ClientArmed, First, EatRequest, SinceCredentials, OnRequestRead, RequestParsers.Take, Attempted;
    var key := w.c.clientFd;
    BeforeEvent(w, id, key, Readable, e);
    Leads(w, id, key, Readable, e);
    RequestBound(w.c);
    var w0 := First(Idle(w), e);
    if e.received.Some? {
      RequestHandled(w0, key, e.received.value, e);
      if OnRequestRead(w0, key, e).1 == RequestConnecting {
        RequestArrives(w, id, e);
      }
    } else {
      NoRequest(w0, key, e);
    }
  }

  lemma NoRequest(w: World, key: int, e: Env)
    requires e.received.None?
    ensures OnRequestRead(w, key, e).1 == Error
  {
  }

  lemma EarlyOnes(w: World, id: nat)
    requires ConnOk(w, id) && w.c.state in {RequestRead, RequestResolv}
    ensures w.c.originFd == -1 && w.c.clientFd in w.open && Roomy(w.c) && w.c.writeBuffer.contents == []
  {
    AllSent(w.c);
    hide Streams, Progress, Leaks, FieldParsers.State.Valid, FieldParsers.WellFormed;
  }

  lemma RequestArrives(w: World, id: nat, e: Env)
    requires ConnOk(w, id) && w.c.state == RequestRead && Expected(w, id, w.c.clientFd, Readable, e) && e.received.Some?
    requires OnRequestRead(First(Idle(w), e), w.c.clientFd, e).1 == RequestConnecting
    ensures var w1, r := OnRequestRead(First(Idle(w), e), w.c.clientFd, e).0,
        Dispatch(w, id, w.c.clientFd, Readable, e);
      && r.Some? && Attempted(w, r.value, id, e) && SameParse(w1.c, r.value.c)
      && r.value.c.readBuffer == w1.c.readBuffer
      && !r.value.spawned
  {
    hide ConnOk, Handle, ConnectingInit, Sane, Spoken, Due, FieldParsers.State.Valid, FieldParsers.WellFormed;
    hide EatRequest, SinceCredentials, OnRequestRead, RequestParsers.Take, Attempted;
    var key, w0 := w.c.clientFd, First(Idle(w), e);
    BeforeEvent(w, id, key, Readable, e);
    Leads(w, id, key, Readable, e);
    EarlyOnes(w, id);
    RequestHandled(w0, key, e.received.value, e);
    RequestDials(w, e);
    var w1 := OnRequestRead(w0, key, e).0;
    HandleRequest(w0, id, key, e);
    AdvanceArrives(w0, id, key, Readable, e, w1);
    var w2 := w1.(c := w1.c.(state := RequestConnecting));
    ArrivalHandled(w2, id, e);
    ArrivalKeeps(w2, id, key, e);
    AttemptedSame(w2, w, Dispatch(w, id, key, Readable, e).value, id, e);
  }

  lemma HandleRequest(w: World, id: nat, key: int, e: Env)
    requires w.c.state == RequestRead && CallsBounded(w.c, key, Readable, e)
    ensures Handle(w, id, key, Readable, e) == Some(OnRequestRead(w, key, e))
  {
    hide OnRequestRead;
  }

  lemma RequestDials(w: World, e: Env)
    requires w.c.state == RequestRead && w.c.started && CallsBounded(w.c, w.c.clientFd, Readable, e)
    requires OnRequestRead(First(Idle(w), e), w.c.clientFd, e).1 == RequestConnecting
    ensures NewSocket(e) ==> Dials(w, Readable, e)
  {
    hide OnRequestRead, RequestsAddress;
    RequestLeads(First(Idle(w), e), w.c.clientFd, e);
    assert First(Idle(w), e).c == w.c;
  }

  lemma AttemptedSame(a: World, b: World, r: World, id: nat, e: Env)
    requires Attempted(a, r, id, e) && a.table == b.table && a.c.writeBuffer == b.c.writeBuffer
    requires a.c.log.replies == b.c.log.replies && a.c.clientFd == b.c.clientFd
    ensures Attempted(b, r, id, e)
  {
  }

  lemma TellingReads(w: World, s: byte)
    ensures ErrorToClient(w, s).c.readBuffer == w.c.readBuffer && ErrorToClient(w, s).c.more == w.c.more
  {
    hide ErrorToClient, Marshal, FieldParsers.State.Valid, FieldParsers.WellFormed;
    ErrorToClientSays(w, s);
    MarshalSays(w.c, Reply(s));
  }

  lemma ConnectReads(w: World, id: nat, key: int, e: Env)
    requires !e.connect.AtOnce?
    ensures var d := Connect(w, id, key, e).0.c;
      d.readBuffer == w.c.readBuffer && d.more == w.c.more
  {
    hide ErrorToClient, FieldParsers.State.Valid, FieldParsers.WellFormed;
    TellingReads(WithStatus(w, GENERAL_FAILURE), GENERAL_FAILURE);
    TellingReads(WithStatus(Watch(w, key, OP_NOOP), GENERAL_FAILURE), GENERAL_FAILURE);
    var s := ErrnoToSocks(if w.c.originFd == -1 || !e.connect.Failed? then Other else e.connect.errno);
    TellingReads(WithStatus(w, s), s);
  }

  lemma ArrivalKeeps(w: World, id: nat, key: int, e: Env)
    requires !(NewSocket(e) && e.connect.AtOnce?)
    ensures var d := ConnectingInit(w, id, key, e).c;
      SameParse(w.c, d) && d.readBuffer == w.c.readBuffer && d.more == w.c.more
  {
    hide SameParse, ErrorToClient, Connect, FieldParsers.State.Valid, FieldParsers.WellFormed;
    ConnectingInitParse(w, id, key, e);
    var w0 := WithStatus(w, 0x00);
    TellingReads(w0.(c := w0.c.(originFd := -1, status := GENERAL_FAILURE)), GENERAL_FAILURE);
    if e.socket.Some? {
      var w1 := w0.(c := w0.c.(originFd := e.socket.value), open := w0.open[e.socket.value := id]);
      TellingReads(WithStatus(w1, GENERAL_FAILURE), GENERAL_FAILURE);
      if e.nonBlocking {
        ConnectReads(w1, id, key, e);
      }
    }
  }

  // ----- Requests spelled out -----

  /** However it is cut, a CONNECT to a name of 1 to 254 octets gets the name's resolver, and only one. */
  lemma NameResolved(w: World, id: nat, e: Env, rsv: byte, name: seq<byte>, port: (byte, byte), tail: seq<byte>)
    requires ConnOk(w, id) && w.c.state == RequestRead && Expected(w, id, w.c.clientFd, Readable, e) && e.received.Some?
    requires 1 <= |name| <= 254 && |w.c.log.eatenHello| + |w.c.log.eatenAuth| <= |w.c.log.received|
    requires SinceCredentials(w.c, e.received.value)
          == RequestParsers.EncodeRequest(rsv, RequestParsers.Domain(name), port) + tail
    ensures var r := Dispatch(w, id, w.c.clientFd, Readable, e);
      && r.Some? && ConnOk(r.value, id) && ClientArmed(r.value)
      && r.value.c.state == RequestResolv && r.value.spawned && r.value.c.log.replies == w.c.log.replies
      && r.value.c.request == RequestParsers.Parsed(RequestParsers.Domain(name), port)
      && r.value.c.readBuffer.contents == tail && Watched(r.value, w.c.clientFd, OP_NOOP)
  {
    var message := RequestParsers.EncodeRequest(rsv, RequestParsers.Domain(name), port);
    hide ConnOk, Dispatch, Expected, SinceCredentials, RequestParsers.Take, RequestParsers.EncodeRequest, Attempted;
    hide ClientArmed, FieldParsers.State.Valid, FieldParsers.WellFormed;
    RequestOutcome(w, id, e);
    RequestParsers.RoundTrip(rsv, RequestParsers.Domain(name), port, tail);
    assert (message + tail)[|message|..] == tail;
    ClientSame(w, id, Readable, e);
    WaitsSilent(Dispatch(w, id, w.c.clientFd, Readable, e).value);
  }

  lemma WaitsSilent(w: World)
    requires ClientArmed(w) && w.c.state == RequestResolv
    ensures Watched(w, w.c.clientFd, OP_NOOP)
  {
  }

  lemma ClientSame(w: World, id: nat, event: Event, e: Env)
    requires ConnOk(w, id) && Expected(w, id, w.c.clientFd, event, e)
    ensures var r := Dispatch(w, id, w.c.clientFd, event, e);
      r.Some? ==> r.value.c.clientFd == w.c.clientFd
  {
    hide ConnOk, Dispatch, Dials, Plausible, Due;
    Leads(w, id, w.c.clientFd, event, e);
  }

  /** And a CONNECT to an IPv4 or an IPv6 address has an attempt made. */
  lemma AddressDialled(w: World, id: nat, e: Env, rsv: byte, a: RequestParsers.Address, port: (byte, byte),
                       tail: seq<byte>)
    requires ConnOk(w, id) && w.c.state == RequestRead && Expected(w, id, w.c.clientFd, Readable, e) && e.received.Some?
    requires RequestParsers.Encodable(a) && !a.Domain?
    requires |w.c.log.eatenHello| + |w.c.log.eatenAuth| <= |w.c.log.received|
    requires SinceCredentials(w.c, e.received.value) == RequestParsers.EncodeRequest(rsv, a, port) + tail
    ensures var r := Dispatch(w, id, w.c.clientFd, Readable, e);
      && r.Some? && ConnOk(r.value, id) && r.value.c.state == RequestConnecting && !r.value.spawned
      && r.value.c.request == RequestParsers.Parsed(a, port)
      && r.value.c.readBuffer.contents == tail && Attempted(w, r.value, id, e)
  {
    var message := RequestParsers.EncodeRequest(rsv, a, port);
    hide ConnOk, Dispatch, Expected, SinceCredentials, RequestParsers.Take, RequestParsers.EncodeRequest, Attempted;
    RequestOutcome(w, id, e);
    RequestParsers.RoundTrip(rsv, a, port, tail);
    assert (message + tail)[|message|..] == tail;
  }

  // ----- The resolver's answer -----

  /**
   * The resolver's answer. Where it found nothing the client is told of a general failure; where it
   * found addresses, an attempt is made at the first, and the cursor knows of the others.
   */
  lemma ResolvedOutcome(w: World, id: nat, e: Env)
    requires ConnOk(w, id) && w.c.state == RequestResolv && Expected(w, id, w.c.clientFd, Block, e)
    ensures var r := Dispatch(w, id, w.c.clientFd, Block, e);
      && r.Some? && ConnOk(r.value, id) && ClientArmed(r.value) && r.value.c.readBuffer == w.c.readBuffer
      && if w.c.resolution.None? then
           && r.value.c.state == RequestWrite && r.value.c.status == 0x01
           && r.value.c.log.replies == w.c.log.replies + ReplyOctets(0x01)
         else
           && r.value.c.state == RequestConnecting && r.value.c.more == w.c.resolution
           && Attempted(w, r.value, id, e)
  {
    hide ConnOk, Dispatch, Sane, Spoken, Plausible, Due, FieldParsers.State.Valid, FieldParsers.WellFormed;
    hide ClientArmed, Attempted, ConnectingInit, SameTalk;
    var key, w0 := w.c.clientFd, First(Idle(w), e);
    BeforeEvent(w, id, key, Block, e);
    Leads(w, id, key, Block, e);
    EarlyOnes(w, id);
    if w.c.resolution.Some? {
      var w1 := w0.(c := w0.c.(more := w0.c.resolution));
      ResolvedArrives(w, id, e, w1);
    } else {
      ResolvedNothing(w0, key, Dispatch(w, id, key, Block, e).value);
    }
  }

  lemma ResolvedNothing(w: World, key: int, r: World)
    requires w.c.resolution.None? && Roomy(w.c) && w.c.writeBuffer.contents == []
    requires SameTalk(OnResolved(w, key).0.c, r.c) && r.c.status == OnResolved(w, key).0.c.status
    ensures OnResolved(w, key).1 == RequestWrite && r.c.status == 0x01 && r.c.readBuffer == w.c.readBuffer
    ensures r.c.log.replies == w.c.log.replies + ReplyOctets(0x01)
  {
    hide FieldParsers.State.Valid, FieldParsers.WellFormed;
  }

  lemma ResolvedArrives(w: World, id: nat, e: Env, w1: World)
    requires ConnOk(w, id) && w.c.state == RequestResolv && Expected(w, id, w.c.clientFd, Block, e)
    requires w.c.resolution.Some? && w1 == First(Idle(w), e).(c := First(Idle(w), e).c.(more := w.c.resolution))
    ensures var r := Dispatch(w, id, w.c.clientFd, Block, e);
      && r.Some? && r.value.c.more == w.c.resolution && Attempted(w, r.value, id, e)
      && r.value.c.readBuffer == w.c.readBuffer && r.value.c.state == RequestConnecting
  {
    hide ConnOk, Handle, ConnectingInit, Sane, Spoken, Due, FieldParsers.State.Valid, FieldParsers.WellFormed;
    hide Attempted;
    var key, w0 := w.c.clientFd, First(Idle(w), e);
    BeforeEvent(w, id, key, Block, e);
    Leads(w, id, key, Block, e);
    EarlyOnes(w, id);
    HandleResolved(w0, id, key, e);
    AdvanceArrives(w0, id, key, Block, e, w1);
    var w2 := w1.(c := w1.c.(state := RequestConnecting));
    ArrivalHandled(w2, id, e);
    ArrivalKeeps(w2, id, key, e);
    AttemptedSame(w2, w, Dispatch(w, id, key, Block, e).value, id, e);
  }

  lemma HandleResolved(w: World, id: nat, key: int, e: Env)
    requires w.c.state == RequestResolv && w.c.resolution.Some?
    ensures Handle(w, id, key, Block, e) == Some((w.(c := w.c.(more := w.c.resolution)), RequestConnecting))
  {
  }

  // ----- Connecting -----

  /** The next address tried, with the status of the last failure, which connection leaves where it is. */
  predicate Retried(w: World, r: World, id: nat, status: byte, connect: Attempt) {
    && r.c.state == RequestConnecting && HasMore(w.c) && r.c.more == Some(w.c.more.value - 1)
    && if w.c.originFd == -1 then r.c.originFd == -1 && r.c.status == 0x01 && Told(w, r, 0x01)
       else Dialled(WithStatus(w, status), r, id, w.c.originFd, connect)
  }

  /** What comes of an origin's descriptor that is ready, or of a client that is to be told of a failure. */
  ghost predicate ConnectingAnswered(w: World, r: World, id: nat, e: Env) {
    if w.c.status != 0x00 then
      if HasMore(w.c) then Retried(w, r, id, w.c.status, e.connect)
      else
        && r.c.state == RequestWrite && r.c.status == w.c.status && Told(w, r, w.c.status)
        && r.c.originFd == -1 && (w.c.originFd != -1 ==> w.c.originFd !in r.open && !Own(r.table, w.c.originFd, id))
    else
      match e.soError
      case None => r.c.state == RequestWrite && r.c.status == 0x01 && Told(w, r, 0x01)
      case Some(None) =>
        && r.c.state == RequestWrite && r.c.status == 0x00 && Told(w, r, 0x00) && r.c.originFd == w.c.originFd
        && Watched(r, w.c.originFd, OP_NOOP)
      case Some(Some(errno)) =>
        if HasMore(w.c) then exists s :: Tells(s, errno) && Retried(w, r, id, s, e.connect)
        else r.c.state == RequestWrite && Tells(r.c.status, errno) && Told(w, r, r.c.status)
  }

  lemma RetryHandled(w: World, id: nat, key: int, e: Env)
    requires CanWatch(w, w.c.clientFd) && CanWatch(w, key) && w.c.originFd != w.c.clientFd && HasMore(w.c)
    requires w.c.originFd == -1 || !e.connect.AtOnce?
    requires key == w.c.originFd || key == w.c.clientFd
    requires w.c.state == RequestConnecting
    ensures var (r, p) := TryNext(w, id, key, e);
      p == RequestConnecting && Retried(w, r, id, w.c.status, e.connect) && r.c.clientFd == w.c.clientFd
      && r.c.readBuffer == w.c.readBuffer
  {
    hide Connect, Dialled, Told, FieldParsers.State.Valid, FieldParsers.WellFormed;
    var w1 := w.(c := w.c.(more := Some(w.c.more.value - 1)));
    if w.c.originFd == -1 {
      NoDescriptor(w1, id, key, e);
      ToldSame(w1, w, Connect(w1, id, key, e).0, 0x01);
    } else {
      ConnectHandled(w1, id, key, e);
      ConnectReads(w1, id, key, e);
      DialledSame(w1, w, Connect(w1, id, key, e).0, id, e.connect);
    }
  }

  lemma NoDescriptor(w: World, id: nat, key: int, e: Env)
    requires CanWatch(w, w.c.clientFd) && w.c.originFd == -1
    ensures var r := Connect(w, id, key, e).0;
      && Told(w, r, 0x01) && r.c.status == 0x01 && r.c.originFd == -1 && r.c.state == w.c.state && r.c.more == w.c.more
      && r.c.clientFd == w.c.clientFd && r.c.readBuffer == w.c.readBuffer
  {
    hide ErrorToClient, FieldParsers.State.Valid, FieldParsers.WellFormed;
    FailureTold(w, 0x01);
    TellingReads(WithStatus(w, 0x01), 0x01);
  }

  lemma ToldSame(a: World, b: World, r: World, s: byte)
    requires Told(a, r, s) && a.c.writeBuffer == b.c.writeBuffer && a.c.log.replies == b.c.log.replies
    requires a.c.clientFd == b.c.clientFd
    ensures Told(b, r, s)
  {
  }

  lemma DialledSame(a: World, b: World, r: World, id: nat, connect: Attempt)
    requires Dialled(a, r, id, a.c.originFd, connect) && a.table == b.table && a.c.writeBuffer == b.c.writeBuffer
    requires a.c.log.replies == b.c.log.replies && a.c.clientFd == b.c.clientFd && a.c.status == b.c.status
    requires a.c.originFd == b.c.originFd
    ensures Dialled(WithStatus(b, b.c.status), r, id, b.c.originFd, connect)
  {
  }

  /** The origin unregistered and closed. */
  lemma OriginReleased(w: World, id: nat)
    requires CanWatch(w, w.c.clientFd) && w.c.originFd != w.c.clientFd && -1 !in w.table && -1 !in w.open
    requires Own(w.table, w.c.originFd, id) ==> !InvalidFd(w.c.originFd)
    ensures var r := Close(Drop(w, id, w.c.originFd), id, w.c.originFd);
      && r.c == w.c.(references := r.c.references, log := w.c.log.(leaked := r.c.log.leaked, frees := r.c.log.frees))
      && CanWatch(r, w.c.clientFd) && w.c.originFd !in r.open && !Own(r.table, w.c.originFd, id)
  {
    DropSame(w, id, w.c.originFd);
  }

  lemma GivenUp(w: World, id: nat, key: int, e: Env)
    requires CanWatch(w, w.c.clientFd) && w.c.originFd != w.c.clientFd && !HasMore(w.c) && -1 !in w.table
        && -1 !in w.open
    requires Own(w.table, w.c.originFd, id) ==> !InvalidFd(w.c.originFd)
    ensures var (r, p) := AfterFailure(w, id, key, e);
      && p == RequestWrite && r.c.status == w.c.status && Told(w, r, w.c.status) && r.c.originFd == -1
      && (w.c.originFd != -1 ==> w.c.originFd !in r.open && !Own(r.table, w.c.originFd, id))
      && r.c.readBuffer == w.c.readBuffer
  {
    hide ErrorToClient, Drop, Close, Told, FieldParsers.State.Valid, FieldParsers.WellFormed;
    var w1 := Close(Drop(w, id, w.c.originFd), id, w.c.originFd);
    OriginReleased(w, id);
    var w2 := w1.(c := w1.c.(originFd := -1));
    FailureTold(w2, w.c.status);
    TellingReads(w2, w.c.status);
    SameStatus(w2);
    ToldSame(w2, w, ErrorToClient(w2, w.c.status), w.c.status);
    NotAdded(w2, w.c.status, w.c.originFd, id);
  }

  lemma SameStatus(w: World)
    ensures WithStatus(w, w.c.status) == w
  {
  }

  lemma NotAdded(w: World, s: byte, fd: int, id: nat)
    requires !Own(w.table, fd, id)
    ensures !Own(ErrorToClient(w, s).table, fd, id)
  {
    hide FieldParsers.State.Valid, FieldParsers.WellFormed;
  }

  lemma ConnectedHandled(w: World, key: int)
    requires CanWatch(w, w.c.clientFd) && CanWatch(w, key) && key == w.c.originFd != w.c.clientFd && w.c.status == 0x00
    requires w.c.writeBuffer.Room() >= 10
    ensures var (r, p) := Connected(w, key);
      && p == RequestWrite && r.c.status == 0x00 && Told(w, r, 0x00) && r.c.originFd == w.c.originFd
      && Watched(r, w.c.originFd, OP_NOOP) && r.c.readBuffer == w.c.readBuffer && r.c.log.sent == w.c.log.sent
  {
    hide FieldParsers.State.Valid, FieldParsers.WellFormed;
  }

  /** What connecting_write is called on. */
  lemma ConnectingFacts(w: World, id: nat, key: int, e: Env)
    requires ConnOk(w, id) && w.c.state == RequestConnecting && Expected(w, id, key, Writable, e)
    ensures key == w.c.originFd || key == w.c.clientFd
    ensures CanWatch(w, w.c.clientFd) && CanWatch(w, key) && w.c.originFd != w.c.clientFd && -1 !in w.table
        && -1 !in w.open
    ensures w.c.status == 0x00 ==> key == w.c.originFd && w.c.writeBuffer.contents == [] && Roomy(w.c)
    ensures HasMore(w.c) && w.c.originFd != -1 && (w.c.status != 0x00 || (e.soError.Some? && e.soError.value.Some?)) ==>
              !e.connect.AtOnce?
    ensures Own(w.table, w.c.originFd, id) ==> !InvalidFd(w.c.originFd)
    ensures w.c.originFd == -1 ==> w.c.status != 0x00
  {
    AllSent(w.c);
    hide Streams, Progress, Leaks, FieldParsers.State.Valid, FieldParsers.WellFormed;
  }

  lemma ConnectingHandled(w: World, id: nat, key: int, e: Env)
    requires ConnOk(w, id) && w.c.state == RequestConnecting && Expected(w, id, key, Writable, e)
    ensures var (r, p) := OnConnecting(w, id, key, e);
      ConnectingAnswered(w, r.(c := r.c.(state := p)), id, e) && r.c.readBuffer == w.c.readBuffer
  {
    hide ConnOk, Expected, Dispatch, Told, Dialled, AfterFailure, TryNext, Connected, ErrorToClient, Tells, Retried;
    hide FieldParsers.State.Valid, FieldParsers.WellFormed;
    ConnectingFacts(w, id, key, e);
    if w.c.status != 0x00 {
      if HasMore(w.c) {
        RetryHandled(w, id, key, e);
        AfterFailureRetries(w, id, key, e);
        RetriedAs(w, TryNext(w, id, key, e).0, id, w.c.status, e.connect);
      } else {
        GivenUp(w, id, key, e);
        ToldAs(w, AfterFailure(w, id, key, e).0, RequestWrite, w.c.status);
      }
    } else if e.soError.None? {
      FailureTold(w, GENERAL_FAILURE);
      TellingReads(WithStatus(w, GENERAL_FAILURE), GENERAL_FAILURE);
      ToldAs(w, ErrorToClient(WithStatus(w, GENERAL_FAILURE), GENERAL_FAILURE), RequestWrite, GENERAL_FAILURE);
    } else if e.soError.value.None? {
      ConnectedHandled(w, key);
      ToldAs(w, Connected(w, key).0, RequestWrite, 0x00);
    } else {
      var s := ErrnoToSocks(e.soError.value.value);
      ErrnoTells(e.soError.value.value);
      if HasMore(w.c) {
        var w1 := WithStatus(w, s);
        RetryHandled(w1, id, key, e);
        RetriedFrom(w1, w, TryNext(w1, id, key, e).0, id, s, e.connect);
        RetriedAs(w, TryNext(w1, id, key, e).0, id, s, e.connect);
      } else {
        FailureTold(w, s);
        TellingReads(WithStatus(w, s), s);
        ToldAs(w, ErrorToClient(WithStatus(w, s), s), RequestWrite, s);
      }
    }
  }

  lemma AfterFailureRetries(w: World, id: nat, key: int, e: Env)
    requires HasMore(w.c)
    ensures AfterFailure(w, id, key, e) == TryNext(w, id, key, e)
  {
  }

  lemma ErrnoTells(e: Errno)
    ensures Tells(ErrnoToSocks(e), e)
  {
  }

  lemma ToldAs(w: World, r: World, p: Phase, s: byte)
    requires Told(w, r, s)
    ensures Told(w, r.(c := r.c.(state := p)), s)
  {
  }

  lemma RetriedAs(w: World, r: World, id: nat, s: byte, connect: Attempt)
    requires Retried(w, r, id, s, connect)
    ensures Retried(w, r.(c := r.c.(state := RequestConnecting)), id, s, connect)
  {
    assert r.(c := r.c.(state := RequestConnecting)) == r;
  }

  lemma RetriedFrom(a: World, b: World, r: World, id: nat, s: byte, connect: Attempt)
    requires Retried(a, r, id, s, connect) && a == WithStatus(b, s)
    ensures Retried(b, r, id, s, connect)
  {
  }

  lemma IdleOk(w: World, id: nat, key: int, e: Env)
    requires ConnOk(w, id) && Expected(w, id, key, Writable, e)
    ensures ConnOk(Idle(w), id) && Expected(Idle(w), id, key, Writable, e)
  {
    hide Streams, Progress, Spoken, FieldParsers.State.Valid, FieldParsers.WellFormed;
  }

  /** A handler that stays in its state, or leads to one that is entered without ado, is the whole event. */
  lemma ConnectingSettles(w: World, id: nat, key: int, e: Env)
    requires w.c.started && w.c.state == RequestConnecting && CallsBounded(w.c, key, Writable, e)
    ensures OnConnecting(Idle(w), id, key, e).1 in {RequestConnecting, RequestWrite} ==>
      var (r, p) := OnConnecting(Idle(w), id, key, e);
      Dispatch(w, id, key, Writable, e) == Some(r.(c := r.c.(state := p)))
  {
    hide OnConnecting;
    ConnectingParse(Idle(w), id, key, e);
  }

  lemma AnsweredLeads(w: World, r: World, id: nat, e: Env)
    requires ConnectingAnswered(w, r, id, e)
    ensures r.c.state in {RequestConnecting, RequestWrite}
  {
    hide Told, Dialled, Tells;
  }

  lemma AnsweredIdle(w: World, r: World, id: nat, e: Env)
    requires ConnectingAnswered(Idle(w), r, id, e)
    ensures ConnectingAnswered(w, r, id, e)
  {
  }

  /**
   * Connecting. A descriptor that has connected is answered with success and waits for that to be
   * sent; one that has not, with the failure its error number stands for, unless another address is
   * left, which is then tried; after the last the client is told and the origin closed.
   */
  lemma ConnectingOutcome(w: World, id: nat, key: int, e: Env)
    requires ConnOk(w, id) && w.c.state == RequestConnecting && Expected(w, id, key, Writable, e)
    ensures var r := Dispatch(w, id, key, Writable, e);
      && r.Some? && ConnOk(r.value, id) && ClientArmed(r.value) && r.value.c.readBuffer == w.c.readBuffer
      && ConnectingAnswered(w, r.value, id, e)
  {
    hide ConnOk, Dispatch, Dials, Plausible, Due, Own, ClientArmed, OnConnecting, ConnectingAnswered;
    hide FieldParsers.State.Valid, FieldParsers.WellFormed;
    Leads(w, id, key, Writable, e);
    BeforeEvent(w, id, key, Writable, e);
    IdleOk(w, id, key, e);
    ConnectingHandled(Idle(w), id, key, e);
    var (r, p) := OnConnecting(Idle(w), id, key, e);
    AnsweredLeads(Idle(w), r.(c := r.c.(state := p)), id, e);
    AnsweredIdle(w, r.(c := r.c.(state := p)), id, e);
    ConnectingSettles(w, id, key, e);
  }

  // ----- The reply to the request -----

  /**
   * The reply is out: after a success the relay starts, both ways open, on what was pipelined;
   * after a failure, the end.
   */
  ghost predicate ReplyOut(w: World, r: World) {
    if w.c.status == 0x00 then
      && r.c.state == Copy && r.c.log.sent == r.c.log.replies == w.c.log.replies
      && r.c.readBuffer == w.c.readBuffer && r.c.writeBuffer.contents == [] && r.c.originFd == w.c.originFd
      && RelayOf(r).Open(Relays.ClientSide) && RelayOf(r).Open(Relays.OriginSide)
    else r.c.state == Done
  }

  /** The reply to the request goes out whole before anything else happens. */
  lemma ReplyOutcome(w: World, id: nat, e: Env)
    requires ConnOk(w, id) && w.c.state == RequestWrite && Expected(w, id, w.c.clientFd, Writable, e)
    ensures var r := Dispatch(w, id, w.c.clientFd, Writable, e);
      && r.Some? && ConnOk(r.value, id) && ClientArmed(r.value)
      && if e.sent.None? then r.value.c.state == Error
         else if e.sent.value < |w.c.writeBuffer.contents| then
           && r.value.c.state == RequestWrite && r.value.c.log.replies == w.c.log.replies
           && r.value.c.writeBuffer.contents == w.c.writeBuffer.contents[e.sent.value..]
         else ReplyOut(w, r.value)
  {
    hide ConnOk, Advance, Dials, Plausible, Due, Own, ClientArmed, OnRequestWrite, Spoken, Sane, ReplyOut;
    hide FieldParsers.State.Valid, FieldParsers.WellFormed;
    var key, w0 := w.c.clientFd, First(Idle(w), e);
    BeforeEvent(w, id, key, Writable, e);
    Leads(w, id, key, Writable, e);
    ReplyHandled(w0, key, e);
    if e.sent.Some? && e.sent.value == |w.c.writeBuffer.contents| {
      var r := Dispatch(w, id, key, Writable, e).value;
      if w.c.status == 0x00 {
        RelayStarts(w0, id, key, e);
        SameReply(w0, w, r);
      } else {
        OverThen(w, r);
      }
    }
  }

  lemma OverThen(w: World, r: World)
    requires w.c.status != 0x00 && r.c.state == Done
    ensures ReplyOut(w, r)
  {
  }

  lemma SameReply(a: World, b: World, r: World)
    requires ReplyOut(a, r) && a.c == b.c
    ensures ReplyOut(b, r)
  {
  }

  lemma ReplyHandled(w: World, key: int, e: Env)
    requires Sane(w.c) && w.c.state == RequestWrite && CallsBounded(w.c, key, Writable, e)
    ensures var (r, p) := OnRequestWrite(w, key, e);
      && (e.sent.None? ==> p == Error)
      && (e.sent.Some? ==>
            && p == (if e.sent.value < |w.c.writeBuffer.contents| then RequestWrite
                     else if w.c.status == 0x00 then Copy else Done)
            && r.c.log.replies == w.c.log.replies
            && r.c.writeBuffer.contents == w.c.writeBuffer.contents[e.sent.value..]
            && r.c.readBuffer == w.c.readBuffer && r.c.originFd == w.c.originFd
            && (e.sent.value == |w.c.writeBuffer.contents| ==> r.c.log.sent == w.c.log.replies))
  {
    if e.sent.Some? {
      ReplyStreams(w.c);
      SentDown(w.c, e.sent.value);
      AllSent(Sent(w.c, e.sent.value));
    }
    hide Sane, FieldParsers.State.Valid, FieldParsers.WellFormed;
  }

  lemma ReplyStreams(c: Conn)
    requires Sane(c) && c.state == RequestWrite
    ensures Downstream(c) && c.log.originReceived == []
  {
  }

  lemma RelayStarts(w: World, id: nat, key: int, e: Env)
    requires Sane(w.c) && w.c.state == RequestWrite && w.c.status == 0x00 && CallsBounded(w.c, key, Writable, e)
    requires e.sent == Some(|w.c.writeBuffer.contents|) && Advance(w, id, key, Writable, e).Some?
    ensures ReplyOut(w, Advance(w, id, key, Writable, e).value)
  {
    ReplyHandled(w, key, e);
    var w1 := OnRequestWrite(w, key, e).0;
    hide Sane, OnRequestWrite, OnCopyInit, FieldParsers.State.Valid, FieldParsers.WellFormed;
    CopyOpens(w1.(c := w1.c.(state := Copy)));
  }

  /** copy_init opens both directions, and leaves the buffers alone. */
  lemma CopyOpens(w: World)
    ensures var r := OnCopyInit(w);
      r.Some? ==>
        && RelayOf(r.value).Open(Relays.ClientSide) && RelayOf(r.value).Open(Relays.OriginSide)
        && r.value.c == w.c.(clientWants := r.value.c.clientWants, originWants := r.value.c.originWants)
  {
  }

  // ----- The relay -----

  /** The relay's event. */
  function RelayEvent(c: Conn, key: int, event: Event, e: Env): Relays.Event
    requires event != Block
  {
    if event == Readable then Relays.Readable(SideOf(c, key), e.received) else Relays.Writable(SideOf(c, key), e.sent)
  }

  /** What an event takes from and gives to the two sides is noted of them, and of nothing else. */
  predicate Relayed(w: World, ev: Relays.Event, r: World)
    requires Relays.Enabled(RelayOf(w), ev)
  {
    var relay := RelayOf(w);
    && r.c.log.received == w.c.log.received + Relays.Taken(ev, Relays.ClientSide)
    && r.c.log.originReceived == w.c.log.originReceived + Relays.Taken(ev, Relays.OriginSide)
    && r.c.log.sent == w.c.log.sent + Relays.Given(relay, ev, Relays.ClientSide)
    && r.c.log.forwarded == w.c.log.forwarded + Relays.Given(relay, ev, Relays.OriginSide)
  }

  /**
   * Relaying. An event in COPY is the relay's own event on the connection's two descriptors, and the
   * connection stays in COPY exactly while a direction is open: the one that this event does not
   * close.
   */
  lemma CopyOutcome(w: World, id: nat, key: int, event: Event, e: Env)
    requires ConnOk(w, id) && w.c.state == Copy && Expected(w, id, key, event, e)
    ensures event != Block && Relays.Good(RelayOf(w)) && Relays.Enabled(RelayOf(w), RelayEvent(w.c, key, event, e))
    ensures var r, ev := Dispatch(w, id, key, event, e), RelayEvent(w.c, key, event, e);
      && r.Some? && ConnOk(r.value, id) && Relayed(w, ev, r.value)
      && (r.value.c.state == Copy ==> RelayOf(r.value) == Relays.Step(RelayOf(w), ev).0)
      && r.value.c.state
         == if (RelayOf(w).Open(Relays.ClientSide) && !Relays.Closes(ev, Relays.ClientSide))
               || (RelayOf(w).Open(Relays.OriginSide) && !Relays.Closes(ev, Relays.OriginSide)) then Copy
            else Done
  {
    hide ConnOk, Dispatch, Dials, Plausible, ClientArmed, Sane, Spoken, Handle, Relays.Good, Relays.Step, Relayed;
    hide FieldParsers.State.Valid, FieldParsers.WellFormed;
    CopyFacts(w, id, key, event, e);
    EventKept(w, id, key, event, e);
    CopyDispatched(w, id, key, event, e);
    var relay, ev := RelayOf(w), RelayEvent(w.c, key, event, e);
    Relays.StepGood(relay, ev, Relays.ClientSide);
    Relays.OpenStep(relay, ev, Relays.ClientSide);
    Relays.OpenStep(relay, ev, Relays.OriginSide);
  }

  lemma CopyFacts(w: World, id: nat, key: int, event: Event, e: Env)
    requires ConnOk(w, id) && w.c.state == Copy && Expected(w, id, key, event, e)
    ensures event != Block && w.c.started && w.c.clientFd != w.c.originFd
    ensures Relays.Good(RelayOf(w)) && Relays.Enabled(RelayOf(w), RelayEvent(w.c, key, event, e))
  {
    Watchable(w, id, key, event);
    BeganIfBeyond(w.c);
    hide Streams, Progress, Spoken, Leaks, FieldParsers.State.Valid, FieldParsers.WellFormed;
  }

  lemma CopyDispatched(w: World, id: nat, key: int, event: Event, e: Env)
    requires w.c.started && w.c.state == Copy && event != Block && CallsBounded(w.c, key, event, e)
    requires Relays.Enabled(RelayOf(w), RelayEvent(w.c, key, event, e)) && Dispatch(w, id, key, event, e).Some?
    ensures var r, (s, v) := Dispatch(w, id, key, event, e).value,
        Relays.Step(RelayOf(w), RelayEvent(w.c, key, event, e));
      && Relayed(w, RelayEvent(w.c, key, event, e), r) && r.c.state == (if v == Relays.Finish then Done else Copy)
      && (v != Relays.Finish ==> RelayOf(r) == s)
  {
    hide Finish, Relays.Settle, FieldParsers.State.Valid, FieldParsers.WellFormed;
    var (w1, p) := Handle(Idle(w), id, key, event, e).value;
    CopyHandled(Idle(w), key, event, e);
    if Terminal(p) {
      FinishSame(w1.(c := w1.c.(state := p)), id);
    }
  }

  lemma CopyHandled(w: World, key: int, event: Event, e: Env)
    requires w.c.state == Copy && event != Block && CallsBounded(w.c, key, event, e)
    requires Relays.Enabled(RelayOf(w), RelayEvent(w.c, key, event, e))
    ensures var h, (s, v) := if event == Readable then OnCopyRead(w, key, e) else OnCopyWrite(w, key, e),
                             Relays.Step(RelayOf(w), RelayEvent(w.c, key, event, e));
      h.Some? ==>
        && Relayed(w, RelayEvent(w.c, key, event, e), h.value.0)
        && h.value.1 == (if v == Relays.Finish then Done else Copy)
        && RelayOf(h.value.0) == s
  {
    hide Relays.Settle, Relays.AfterRecv, Relays.AfterSend, FieldParsers.State.Valid, FieldParsers.WellFormed;
    assert forall s: seq<byte> :: s + [] == s;
    StepEnds(RelayOf(w), RelayEvent(w.c, key, event, e));
  }

  lemma StepEnds(r: Relays.Relay, ev: Relays.Event)
    requires Relays.Enabled(r, ev)
    ensures Relays.Step(r, ev).0.client.fd == r.client.fd && Relays.Step(r, ev).0.origin.fd == r.origin.fd
  {
  }
}
