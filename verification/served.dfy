/**
 * Clients that follow the protocol are served, from accept to the first octets relayed: without
 * authentication, with a password, to an address and to a name. Whatever is not right is told so.
 */
module ServedClients {
  import opened Bytes
  import opened Buffers
  import opened Selectors
  import opened Connections
  import opened ConnectionTables
  import opened ConnectionLogs
  import opened ConnectionReplies
  import opened ConnectionInvariants
  import opened Dialing
  import opened Outcomes
  import ClientWire
  import FieldParsers
  import Hellos
  import Registries
  import Relays
  import RequestParsers

  /** An environment in which nothing is read or sent, to be told what the call at hand answers. */
  function Quiet(authMethod: byte, users: seq<Registries.User>): Env {
    Env(None, None, None, true, InProgress, None, authMethod, users)
  }

  /** What comes before a client's next octets: nothing pipelined, nothing left to be sent. */
  ghost predicate Between(w: World, id: nat, p: Phase) {
    && ConnOk(w, id) && w.c.state == p && w.c.started && w.c.readBuffer.contents == []
    && w.c.log.replies == w.c.log.sent
  }

  /** A connection just accepted. */
  ghost predicate Fresh(w: World, id: nat) {
    ConnOk(w, id) && w.c == NewConn(w.c.clientFd)
  }

  /** The client's descriptor is its connection's, and due for what its state waits for. */
  lemma ClientDue(w: World, id: nat, event: Event)
    requires ConnOk(w, id) && event != Block
    requires if event == Readable then w.c.state in {HelloRead, UserpassRead, RequestRead}
             else w.c.state in {HelloWrite, UserpassWrite, RequestWrite}
    ensures Own(w.table, w.c.clientFd, id) && Due(w, w.c.clientFd, event) && BuffersOk(w.c)
  {
    StateArms(w, id);
    hide Streams, Progress, Spoken, FieldParsers.State.Valid, FieldParsers.WellFormed;
  }

  /** recv answers these octets. */
  lemma Arrive(w: World, id: nat, e: Env, chunk: seq<byte>)
    requires ConnOk(w, id) && w.c.state in {HelloRead, UserpassRead, RequestRead} && w.c.readBuffer.contents == []
    requires e.received == Some(chunk) && 0 < |chunk| <= BUFFER_SIZE && Plausible(w, e) && e.connect.InProgress?
    ensures Expected(w, id, w.c.clientFd, Readable, e)
  {
    hide ConnOk, Plausible, Dials;
    ClientDue(w, id, Readable);
  }

  /** send takes everything. */
  lemma Depart(w: World, id: nat, e: Env)
    requires ConnOk(w, id) && w.c.state in {HelloWrite, UserpassWrite, RequestWrite}
    requires e.sent == Some(|SendBytes(w.c, w.c.clientFd)|) && Plausible(w, e) && e.connect.InProgress?
    ensures Expected(w, id, w.c.clientFd, Writable, e)
  {
    hide ConnOk, Plausible, Dials, SendBytes;
    ClientDue(w, id, Writable);
  }

  // ----- The greeting -----

  /** A client's whole greeting. */
  predicate Greeting(g: seq<byte>) {
    Hellos.Complete(0x05, g) && |g| == Hellos.MessageLength(g)
  }

  /** A whole greeting arrives, on the first event of the connection. */
  lemma Greeted(w: World, id: nat, g: seq<byte>, required: byte, users: seq<Registries.User>) returns (r: World)
    requires Fresh(w, id) && Greeting(g) && (required == 0x00 || required == 0x02)
    ensures After(w, id, w.c.clientFd, Readable, Quiet(required, users).(received := Some(g))) == Some(r)
    ensures var m := if required in Hellos.Offered(g) then required else 0xFF;
      && ConnOk(r, id) && r.c.state == HelloWrite && r.c.clientFd == w.c.clientFd && r.c.readBuffer.contents == []
      && r.c.writeBuffer.contents == [0x05, m] && r.c.log.eatenHello == g && r.c.hello.wanted == required
      && r.c.started
  {
    hide ConnOk, Dispatch, Progress, FieldParsers.State.Valid, FieldParsers.WellFormed;
    var e := Quiet(required, users).(received := Some(g));
    Arrive(w, id, e, g);
    GreetingOutcome(w, id, e);
    Leads(w, id, w.c.clientFd, Readable, e);
    DispatchSources(w, id, w.c.clientFd, Readable, e);
    assert [] + g == g && g[..|g|] == g && g[|g|..] == [];
    r := Dispatch(w, id, w.c.clientFd, Readable, e).value;
  }

  /** The answer to the greeting goes out whole. */
  lemma Answered(w: World, id: nat, required: byte, users: seq<Registries.User>) returns (r: World)
    requires ConnOk(w, id) && w.c.state == HelloWrite && w.c.readBuffer.contents == []
        && |w.c.writeBuffer.contents| == 2
    requires w.c.started && (required == 0x00 || required == 0x02)
    requires Hellos.Complete(0x05, w.c.log.eatenHello) && w.c.hello.wanted in Hellos.Offered(w.c.log.eatenHello)
    ensures After(w, id, w.c.clientFd, Writable, Quiet(required, users).(sent := Some(2))) == Some(r)
    ensures Between(r, id, if w.c.hello.wanted == 0x02 then UserpassRead else RequestRead)
    ensures r.c.clientFd == w.c.clientFd && r.c.log.sent == [0x05, w.c.hello.wanted]
    ensures r.c.log.eatenAuth == [] && r.c.log.eatenRequest == []
  {
    hide ConnOk, Dispatch, Spoken, Progress, FieldParsers.State.Valid, FieldParsers.WellFormed;
    var e := Quiet(required, users).(sent := Some(2));
    Depart(w, id, e);
    GreetingAnswered(w, id, e);
    Leads(w, id, w.c.clientFd, Writable, e);
    DispatchSources(w, id, w.c.clientFd, Writable, e);
    r := Dispatch(w, id, w.c.clientFd, Writable, e).value;
    SaidIsSent(r, id);
  }

  /** Where a state waits for the client, everything said has been sent. */
  lemma SaidIsSent(w: World, id: nat)
    requires ConnOk(w, id) && w.c.state in {UserpassRead, RequestRead}
    ensures w.c.log.replies == w.c.log.sent && w.c.writeBuffer.contents == []
  {
    AllSent(w.c);
    hide Progress, Upheld, FieldParsers.State.Valid, FieldParsers.WellFormed;
  }

  // ----- With a password -----

  /** Whole credentials arrive. */
  lemma CredentialsSent(w: World, id: nat, user: seq<byte>, pass: seq<byte>, users: seq<Registries.User>)
      returns (r: World)
    requires Between(w, id, UserpassRead) && w.c.log.eatenAuth == [] && |user| <= 255 && |pass| <= 255
    ensures var e := Quiet(0x02, users).(received := Some(ClientWire.Credentials(user, pass)));
      After(w, id, w.c.clientFd, Readable, e) == Some(r)
    ensures ConnOk(r, id) && r.c.state == UserpassWrite && r.c.clientFd == w.c.clientFd && r.c.started
    ensures r.c.readBuffer.contents == [] && r.c.log.replies == r.c.log.sent == w.c.log.sent
    ensures r.c.log.eatenAuth == ClientWire.Credentials(user, pass) && r.c.log.checkedOver == users
  {
    hide ConnOk, Dispatch, Spoken, Progress, ClientWire.WholeCredentials, ClientWire.CredentialsSize, ClientWire.UserOf;
    hide ClientWire.PassOf, FieldParsers.State.Valid, FieldParsers.WellFormed, SinceGreeting;
    var message := ClientWire.Credentials(user, pass);
    var e := Quiet(0x02, users).(received := Some(message));
    Arrive(w, id, e, message);
    CredentialsOutcome(w, id, e);
    Leads(w, id, w.c.clientFd, Readable, e);
    DispatchSources(w, id, w.c.clientFd, Readable, e);
    CredentialsHeardWhole(w, id, message);
    ClientWire.SpelledWhole(user, pass, []);
    assert message + [] == message && message[..|message|] == message && message[|message|..] == [];
    r := Dispatch(w, id, w.c.clientFd, Readable, e).value;
  }

  lemma CredentialsHeardWhole(w: World, id: nat, message: seq<byte>)
    requires ConnOk(w, id) && w.c.state == UserpassRead && w.c.log.eatenAuth == [] && w.c.readBuffer.contents == []
    ensures |w.c.log.eatenHello| <= |w.c.log.received| && SinceGreeting(w.c, message) == message
  {
    CredentialsStreams(w.c, message);
    hide Streams, Progress, Spoken, Upheld, SinceGreeting;
    assert [] + ([] + message) == message;
  }

  /** Their answer goes out whole. */
  lemma CredentialsTold(w: World, id: nat, user: seq<byte>, pass: seq<byte>, users: seq<Registries.User>)
      returns (r: World)
    requires ConnOk(w, id) && w.c.state == UserpassWrite && w.c.readBuffer.contents == [] && w.c.started
    requires |user| <= 255 && |pass| <= 255 && w.c.log.eatenAuth == ClientWire.Credentials(user, pass)
    requires w.c.log.checkedOver == users && w.c.log.replies == w.c.log.sent == [0x05, 0x02]
    ensures After(w, id, w.c.clientFd, Writable, Quiet(0x02, users).(sent := Some(2))) == Some(r)
    ensures var right := Registries.Check(users, CString(user), CString(pass)).Some?;
      && ConnOk(r, id) && r.c.state == (if right then RequestRead else Done) && r.c.started
      && r.c.clientFd == w.c.clientFd && r.c.readBuffer.contents == [] && r.c.log.eatenRequest == []
      && r.c.log.replies == r.c.log.sent == [0x05, 0x02, 0x01, if right then 0x00 else 0x01]
  {
    hide ConnOk, Dispatch, Spoken, Progress, ClientWire.WholeCredentials, ClientWire.CredentialsSize, ClientWire.UserOf;
    hide ClientWire.PassOf, FieldParsers.State.Valid, FieldParsers.WellFormed, Repeats;
    var e := Quiet(0x02, users).(sent := Some(2));
    OneAnswer(w, id);
    Depart(w, id, e);
    CredentialsAnswered(w, id, e);
    Leads(w, id, w.c.clientFd, Writable, e);
    DispatchSources(w, id, w.c.clientFd, Writable, e);
    ClientWire.SpelledWhole(user, pass, []);
    assert ClientWire.Credentials(user, pass) + [] == ClientWire.Credentials(user, pass);
    r := Dispatch(w, id, w.c.clientFd, Writable, e).value;
  }

  lemma OneAnswer(w: World, id: nat)
    requires ConnOk(w, id) && w.c.state == UserpassWrite && w.c.log.replies == w.c.log.sent
    ensures |SendBytes(w.c, w.c.clientFd)| == 2 && w.c.writeBuffer.Room() >= 2
  {
    AllSent(w.c);
    hide Progress, FieldParsers.State.Valid, FieldParsers.WellFormed;
  }

  /**
   * A password client is served. Where passwords are required, a client that offers them and
   * sends a name and a password is sent 05 02, then 01 00 and heard for its request if that pair is
   * registered when it arrives, and 01 01 and nothing more if it is not.
   */
  lemma PasswordClientServed(w: World, id: nat, g: seq<byte>, user: seq<byte>, pass: seq<byte>,
                             users: seq<Registries.User>) returns (r: World)
    requires Fresh(w, id) && Greeting(g) && 0x02 in Hellos.Offered(g) && |user| <= 255 && |pass| <= 255
    ensures var client, quiet := w.c.clientFd, Quiet(0x02, users);
      var w1 := After(w, id, client, Readable, quiet.(received := Some(g)));
      && w1.Some? && var w2 := After(w1.value, id, client, Writable, quiet.(sent := Some(2)));
      && w2.Some? && var w3 := After(w2.value, id, client, Readable,
           quiet.(received := Some(ClientWire.Credentials(user, pass))));
      && w3.Some? && After(w3.value, id, client, Writable, quiet.(sent := Some(2))) == Some(r)
    ensures if Registries.Check(users, CString(user), CString(pass)).Some? then
              Between(r, id, RequestRead) && r.c.log.sent == [0x05, 0x02, 0x01, 0x00] && r.c.log.eatenRequest == []
            else r.c.state == Done && Ended(r, id) && r.c.log.sent == [0x05, 0x02, 0x01, 0x01]
  {
    hide ConnOk, After, Ended;
    var w1 := Greeted(w, id, g, 0x02, users);
    var w2 := Answered(w1, id, 0x02, users);
    var w3 := CredentialsSent(w2, id, user, pass, users);
    r := CredentialsTold(w3, id, user, pass, users);
    if r.c.state == Done {
      OverEnded(r, id);
    }
  }

  lemma OverEnded(w: World, id: nat)
    requires ConnOk(w, id) && Terminal(w.c.state)
    ensures Ended(w, id)
  {
    hide Streams, Progress, Spoken, Ended;
  }

  // ----- A request for an address -----

  /** A request arrives whole, with a tail behind it, and an attempt at the address is under way. */
  lemma RequestMade(w: World, id: nat, rsv: byte, a: RequestParsers.Address, port: (byte, byte), tail: seq<byte>,
                    fd: int, e: Env) returns (r: World)
    requires Between(w, id, RequestRead) && w.c.log.eatenRequest == []
    requires RequestParsers.Encodable(a) && !a.Domain?
    requires |RequestParsers.EncodeRequest(rsv, a, port) + tail| <= BUFFER_SIZE
    requires !InvalidFd(fd) && fd !in w.table && fd !in w.open && Plausible(w, e)
    requires e.received == Some(RequestParsers.EncodeRequest(rsv, a, port) + tail) && e.socket == Some(fd)
    requires e.nonBlocking && e.connect.InProgress?
    ensures After(w, id, w.c.clientFd, Readable, e) == Some(r)
    ensures ConnOk(r, id) && r.c.state == RequestConnecting && r.c.status == 0x00 && r.c.originFd == fd
    ensures r.c.clientFd == w.c.clientFd && r.c.readBuffer.contents == tail && r.c.log.replies == w.c.log.replies
    ensures r.c.request == RequestParsers.Parsed(a, port) && Own(r.table, fd, id) && Watched(r, fd, OP_WRITE)
  {
    hide ConnOk, Dispatch, Spoken, Progress, FieldParsers.State.Valid, FieldParsers.WellFormed, SinceCredentials;
    hide RequestParsers.EncodeRequest, Plausible;
    var message := RequestParsers.EncodeRequest(rsv, a, port);
    RequestNotEmpty(rsv, a, port);
    Arrive(w, id, e, message + tail);
    RequestHeardWhole(w, id, message + tail);
    AddressDialled(w, id, e, rsv, a, port, tail);
    Leads(w, id, w.c.clientFd, Readable, e);
    r := Dispatch(w, id, w.c.clientFd, Readable, e).value;
  }

  lemma RequestNotEmpty(rsv: byte, a: RequestParsers.Address, port: (byte, byte))
    requires RequestParsers.Encodable(a)
    ensures RequestParsers.EncodeRequest(rsv, a, port) != []
  {
  }

  lemma RequestHeardWhole(w: World, id: nat, message: seq<byte>)
    requires ConnOk(w, id) && w.c.state == RequestRead && w.c.log.eatenRequest == [] && w.c.readBuffer.contents == []
    ensures |w.c.log.eatenHello| + |w.c.log.eatenAuth| <= |w.c.log.received|
        && SinceCredentials(w.c, message) == message
  {
    RequestStreams(w.c, message);
    hide Streams, Progress, Spoken, Upheld, SinceCredentials;
    assert [] + ([] + message) == message;
  }

  /** The origin's descriptor becomes writable without an error. */
  lemma OriginReached(w: World, id: nat, e: Env) returns (r: World)
    requires ConnOk(w, id) && w.c.state == RequestConnecting && w.c.status == 0x00 && w.c.log.replies == w.c.log.sent
    requires Own(w.table, w.c.originFd, id) && Watched(w, w.c.originFd, OP_WRITE)
    requires e.soError == Some(None) && e.sent.None? && Plausible(w, e) && e.connect.InProgress?
    ensures After(w, id, w.c.originFd, Writable, e) == Some(r)
    ensures ConnOk(r, id) && r.c.state == RequestWrite && r.c.status == 0x00 && r.c.originFd == w.c.originFd
    ensures r.c.clientFd == w.c.clientFd && r.c.readBuffer == w.c.readBuffer && r.c.log.sent == w.c.log.sent
    ensures r.c.log.replies == w.c.log.replies + ReplyOctets(0x00)
  {
    hide ConnOk, Dispatch, Spoken, Progress, FieldParsers.State.Valid, FieldParsers.WellFormed, Plausible;
    var key := w.c.originFd;
    assert Expected(w, id, key, Writable, e);
    ConnectingFacts(w, id, key, e);
    ConnectingOutcome(w, id, key, e);
    Leads(w, id, key, Writable, e);
    Began(w, id);
    NotSentYet(w, id, e);
    r := Dispatch(w, id, key, Writable, e).value;
  }

  /** Reporting success sends nothing yet. */
  lemma NotSentYet(w: World, id: nat, e: Env)
    requires w.c.state == RequestConnecting && w.c.started && w.c.status == 0x00 && e.soError == Some(None)
    requires CallsBounded(w.c, w.c.originFd, Writable, e)
    ensures var r := Dispatch(w, id, w.c.originFd, Writable, e);
      r.Some? && r.value.c.state == RequestWrite ==> r.value.c.log.sent == w.c.log.sent
  {
    hide Connected, Dispatch, FieldParsers.State.Valid, FieldParsers.WellFormed;
    if Dispatch(w, id, w.c.originFd, Writable, e).Some? {
      DispatchState(w, id, w.c.originFd, Writable, e);
    }
    ConnectingSettles(w, id, w.c.originFd, e);
    ConnectedSends(Idle(w), w.c.originFd);
  }

  lemma ConnectedSends(w: World, key: int)
    ensures Connected(w, key).0.c.log.sent == w.c.log.sent
  {
    hide FieldParsers.State.Valid, FieldParsers.WellFormed;
  }

  lemma Began(w: World, id: nat)
    requires ConnOk(w, id) && !Terminal(w.c.state) && w.c.state != HelloRead
    ensures w.c.started
  {
    BeganIfBeyond(w.c);
  }

  /** The reply goes out whole, and relaying starts with the tail already on its way. */
  lemma RelayStarted(w: World, id: nat, e: Env) returns (r: World)
    requires ConnOk(w, id) && w.c.state == RequestWrite && w.c.status == 0x00
    requires e.sent == Some(|w.c.writeBuffer.contents|) && Plausible(w, e) && e.connect.InProgress?
    ensures After(w, id, w.c.clientFd, Writable, e) == Some(r)
    ensures ConnOk(r, id) && r.c.state == Copy && r.c.log.sent == w.c.log.replies && r.c.readBuffer == w.c.readBuffer
    ensures RelayOf(r).Open(Relays.ClientSide) && RelayOf(r).Open(Relays.OriginSide) && r.c.originFd == w.c.originFd
    ensures Watched(r, r.c.originFd, Interest(true, r.c.readBuffer.contents != []))
  {
    hide ConnOk, Dispatch, Spoken, Progress, FieldParsers.State.Valid, FieldParsers.WellFormed, Plausible;
    Depart(w, id, e);
    ReplyOutcome(w, id, e);
    r := Dispatch(w, id, w.c.clientFd, Writable, e).value;
    RelayArmed(r, id);
  }

  lemma RelayArmed(w: World, id: nat)
    requires ConnOk(w, id) && w.c.state == Copy && w.c.writeBuffer.contents == []
    requires RelayOf(w).Open(Relays.ClientSide) && RelayOf(w).Open(Relays.OriginSide)
    ensures Watched(w, w.c.originFd, Interest(true, w.c.readBuffer.contents != []))
  {
    hide Streams, Progress, Spoken, Leaks, FieldParsers.State.Valid, FieldParsers.WellFormed;
    Relays.InterestsAgree(RelayOf(w), Relays.OriginSide);
  }

  /**
   * An admitted client is served, however it was admitted. Whatever IPv4 or IPv6 address it asks
   * for, and whatever it pipelines behind its request, three cooperative events take the connection
   * to the relay: the client has been sent one more reply, a success, and the tail waits in the
   * buffer of an origin that is armed to be written it.
   */
  lemma AdmittedClientServed(w: World, id: nat, rsv: byte, a: RequestParsers.Address, port: (byte, byte),
                             tail: seq<byte>, fd: int, quiet: Env) returns (r: World)
    requires Between(w, id, RequestRead) && w.c.log.eatenRequest == [] && RequestParsers.Encodable(a) && !a.Domain?
    requires |RequestParsers.EncodeRequest(rsv, a, port) + tail| <= BUFFER_SIZE
    requires !InvalidFd(fd) && fd !in w.table && fd !in w.open
    requires quiet == Quiet(quiet.authMethod, quiet.users) && (quiet.authMethod == 0x00 || quiet.authMethod == 0x02)
    ensures var client := w.c.clientFd;
      var w1 := After(w, id, client, Readable,
           quiet.(received := Some(RequestParsers.EncodeRequest(rsv, a, port) + tail), socket := Some(fd)));
      && w1.Some? && var w2 := After(w1.value, id, fd, Writable, quiet.(soError := Some(None)));
      && w2.Some? && After(w2.value, id, client, Writable, quiet.(sent := Some(10))) == Some(r)
    ensures ConnOk(r, id) && r.c.state == Copy && r.c.log.sent == w.c.log.sent + ReplyOctets(0x00)
    ensures r.c.readBuffer.contents == tail && r.c.originFd == fd && Watched(r, fd, Interest(true, tail != []))
    ensures RelayOf(r).Open(Relays.ClientSide) && RelayOf(r).Open(Relays.OriginSide)
  {
    hide ConnOk, After, RequestParsers.EncodeRequest;
    var message := RequestParsers.EncodeRequest(rsv, a, port) + tail;
    var w1 := RequestMade(w, id, rsv, a, port, tail, fd, quiet.(received := Some(message), socket := Some(fd)));
    NothingSaidSince(w1, id);
    var w2 := OriginReached(w1, id, quiet.(soError := Some(None)));
    OneReply(w2, id);
    r := RelayStarted(w2, id, quiet.(sent := Some(10)));
  }

  lemma NothingSaidSince(w: World, id: nat)
    requires ConnOk(w, id) && w.c.state == RequestConnecting && w.c.status == 0x00
    ensures w.c.log.sent == w.c.log.replies
  {
    hide Streams, Progress, Upheld;
  }

  lemma OneReply(w: World, id: nat)
    requires ConnOk(w, id) && w.c.state == RequestWrite && w.c.log.replies == w.c.log.sent + ReplyOctets(0x00)
    ensures |w.c.writeBuffer.contents| == 10
  {
    AllSent(w.c);
    hide Progress, Upheld;
  }

  /**
   * A client that need not authenticate is served: from accept, its whole greeting and its request
   * take it to the relay, and it has been sent 05 00 and a success.
   */
  lemma ConformingClientServed(w: World, id: nat, g: seq<byte>, rsv: byte, a: RequestParsers.Address,
                               port: (byte, byte), tail: seq<byte>, fd: int, users: seq<Registries.User>)
      returns (m: World, r: World)
    requires Fresh(w, id) && Greeting(g) && 0x00 in Hellos.Offered(g) && RequestParsers.Encodable(a) && !a.Domain?
    requires |RequestParsers.EncodeRequest(rsv, a, port) + tail| <= BUFFER_SIZE
    requires !InvalidFd(fd) && fd !in w.table && fd !in w.open
    ensures var client, quiet := w.c.clientFd, Quiet(0x00, users);
      var w1 := After(w, id, client, Readable, quiet.(received := Some(g)));
      && w1.Some? && After(w1.value, id, client, Writable, quiet.(sent := Some(2))) == Some(m)
      && var w3 := After(m, id, client, Readable,
           quiet.(received := Some(RequestParsers.EncodeRequest(rsv, a, port) + tail), socket := Some(fd)));
      && w3.Some? && var w4 := After(w3.value, id, fd, Writable, quiet.(soError := Some(None)));
      && w4.Some? && After(w4.value, id, client, Writable, quiet.(sent := Some(10))) == Some(r)
    ensures ConnOk(r, id) && r.c.state == Copy && r.c.log.sent == [0x05, 0x00] + ReplyOctets(0x00)
    ensures r.c.readBuffer.contents == tail && r.c.originFd == fd && Watched(r, fd, Interest(true, tail != []))
  {
    hide ConnOk, After, RequestParsers.EncodeRequest;
    var w1 := Greeted(w, id, g, 0x00, users);
    m := Answered(w1, id, 0x00, users);
    NotTaken(w, id, w1, m, g, users, fd);
    r := AdmittedClientServed(m, id, rsv, a, port, tail, fd, Quiet(0x00, users));
  }

  /** Greeting a client takes no descriptor. */
  lemma NotTaken(w: World, id: nat, w1: World, m: World, g: seq<byte>, users: seq<Registries.User>, fd: int)
    requires Fresh(w, id) && Greeting(g) && fd !in w.table && fd !in w.open
    requires After(w, id, w.c.clientFd, Readable, Quiet(0x00, users).(received := Some(g))) == Some(w1)
    requires ConnOk(w1, id) && w1.c.state == HelloWrite && w1.c.clientFd == w.c.clientFd
        && |w1.c.writeBuffer.contents| == 2
    requires After(w1, id, w.c.clientFd, Writable, Quiet(0x00, users).(sent := Some(2))) == Some(m)
    requires ConnOk(m, id) && m.c.state == RequestRead && m.c.clientFd == w.c.clientFd
    ensures fd !in m.table && fd !in m.open
  {
    hide ConnOk, Dispatch, Frame, FieldParsers.State.Valid, FieldParsers.WellFormed;
    var e1, e2 := Quiet(0x00, users).(received := Some(g)), Quiet(0x00, users).(sent := Some(2));
    Arrive(w, id, e1, g);
    EventKept(w, id, w.c.clientFd, Readable, e1);
    Depart(w1, id, e2);
    EventKept(w1, id, w.c.clientFd, Writable, e2);
    NoneTaken(w, w1, id, fd);
    NoneTaken(w1, m, id, fd);
  }

  lemma NoneTaken(w: World, w': World, id: nat, fd: int)
    requires ConnOk(w, id) && ConnOk(w', id) && Frame(Idle(w), w', id) && w'.c.clientFd == w.c.clientFd
    requires w.c.state in {HelloRead, HelloWrite, RequestRead} && w'.c.state in {HelloRead, HelloWrite, RequestRead}
    requires fd !in w.table && fd !in w.open
    ensures fd !in w'.table && fd !in w'.open
  {
    OnlyClient(w, id);
    OnlyClient(w', id);
    hide ConnOk;
    assert fd in w'.table && !Own(w'.table, fd, id) ==> fd in w.table;
  }

  /** Before its request a connection has its client's descriptor and no other. */
  lemma OnlyClient(w: World, id: nat)
    requires ConnOk(w, id) && w.c.state in {HelloRead, HelloWrite, RequestRead}
    ensures forall fd :: Own(w.table, fd, id) ==> fd == w.c.clientFd
    ensures forall fd :: fd in w.open && w.open[fd] == id ==> fd == w.c.clientFd
    ensures w.c.clientFd in w.table && w.c.clientFd in w.open
  {
    hide Streams, Progress, Spoken, FieldParsers.State.Valid, FieldParsers.WellFormed;
  }
}
