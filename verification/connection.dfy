/**
 * One SOCKS connection, from its first octet to its end: the states of src/socks5nio.c and
 * what the handlers of src/hello.c, src/authentication.c, src/request.c, src/resolv.c,
 * src/connecting.c and src/copy.c do to the connection, the selector's table and the
 * descriptors the process has open.
 */
module Connections {
  import opened Bytes
  import opened Buffers
  import opened Selectors
  import Hellos
  import FieldParsers
  import RequestParsers
  import ClientWire
  import Registries
  import Relays

  datatype Phase =
    | HelloRead | HelloWrite | UserpassRead | UserpassWrite
    | RequestRead | RequestResolv | RequestConnecting | RequestWrite
    | Copy | Done | Error

  predicate Terminal(p: Phase) {
    p == Done || p == Error
  }

  /** What has gone through a connection so far; checkedOver is the roster its credentials were looked up in. */
  datatype Log = Log(
    received: seq<byte>,       // from the client, by recv
    eatenHello: seq<byte>,     // by each of the three parsers
    eatenAuth: seq<byte>,
    eatenRequest: seq<byte>,
    forwarded: seq<byte>,      // to the origin, by send
    replies: seq<byte>,        // marshalled for the client
    originReceived: seq<byte>, // from the origin, by recv
    sent: seq<byte>,           // to the client, by send
    checkedOver: seq<Registries.User>,
    admitted: bool,            // has been in RequestRead
    leaked: set<int>,          // closed while still registered
    frees: nat)

  const NOTHING := Log([], [], [], [], [], [], [], [], [], false, {}, 0)

  /** struct socks5. more is the resolution cursor: how many addresses follow the current one, if there is one. */
  datatype Conn = Conn(
    state: Phase,
    started: bool,
    clientFd: int,
    originFd: int,
    references: int,
    status: byte,
    resolution: Option<nat>,
    more: Option<nat>,
    readBuffer: Fifo,
    writeBuffer: Fifo,
    hello: Hellos.Hello,
    auth: FieldParsers.Parser,
    request: RequestParsers.Parser,
    authentication: byte,
    clientWants: Interest,
    originWants: Interest,
    log: Log)

  const BUFFER_SIZE := 2048
  const SOCKS5_HANDLER := 1

  /** socks5_new: memset, then the fields that are not zero. */
  function NewConn(clientFd: int): Conn {
    Conn(HelloRead, false, clientFd, -1, 1, 0, None, None, EmptyFifo(BUFFER_SIZE), EmptyFifo(BUFFER_SIZE),
         Hellos.Start(Hellos.SOCKS_VERSION, 0), FieldParsers.EMPTY, RequestParsers.START, 0, OP_NOOP, OP_NOOP, NOTHING)
  }

  /**
   * A connection among the things its handlers touch: open says which connection each open
   * descriptor is for, and released is the registration of another connection that was dropped.
   */
  datatype World = World(c: Conn, table: Table, open: map<int, nat>, spawned: bool, released: Option<int>)

  /** The error numbers errno_to_socks tells apart. */
  datatype Errno = ConnRefused | HostUnreach | NetUnreach | TimedOut | Other

  /** What connect answers on a non-blocking socket. */
  datatype Attempt = InProgress | AtOnce | Failed(errno: Errno)

  /** errno_to_socks, on errors. */
  function ErrnoToSocks(e: Errno): (s: byte)
    ensures s != 0
  {
    match e
    case ConnRefused => 0x05
    case HostUnreach => 0x04
    case NetUnreach => 0x03
    case TimedOut => 0x06
    case Other => 0x01
  }

  const GENERAL_FAILURE: byte := 0x01
  const COMMAND_NOT_SUPPORTED: byte := 0x07
  const ADDRESS_TYPE_NOT_SUPPORTED: byte := 0x08

  /** What the system calls of one handler invocation answer, and the globals it reads. */
  datatype Env = Env(
    received: Option<seq<byte>>,  // recv: None at end of file or on error
    sent: Option<nat>,            // send: None when it fails
    socket: Option<int>,          // socket: None when it fails
    nonBlocking: bool,            // selector_fd_set_nio succeeds
    connect: Attempt,
    soError: Option<Option<Errno>>, // getsockopt(SO_ERROR): None when it fails
    authMethod: byte,
    users: seq<Registries.User>)

  // ----- Buffers and interests -----

  function Reply(status: byte): seq<byte> {
    [0x05, status, 0x00, 0x01, 0, 0, 0, 0, 0, 0]
  }

  /** A marshaller at work: the whole reply when there is room, nothing otherwise. */
  function Marshal(c: Conn, reply: seq<byte>): Conn {
    if c.writeBuffer.Room() < |reply| then c
    else c.(writeBuffer := c.writeBuffer.Push(reply), log := c.log.(replies := c.log.replies + reply))
  }

  function Watch(w: World, fd: int, i: Interest): World {
    w.(table := SetInterest(w.table, fd, i).1)
  }

  predicate CanWatch(w: World, fd: int) {
    !InvalidFd(fd) && fd in w.table
  }

  /**
   * The item of a descriptor is the connection's own; a leaked item outlives the descriptor, whose
   * number may come back to another.
   */
  predicate Own(t: Table, fd: int, id: nat) {
    fd in t && t[fd].data == id
  }

  /** request_marshall's replies and the interests that get them sent: error_handler. */
  function ErrorHandler(w: World, key: int, status: byte): World {
    Watch(w.(c := Marshal(w.c, Reply(status))), key, OP_WRITE)
  }

  /** error_handler_to_client. */
  function ErrorToClient(w: World, status: byte): World {
    var w1 := Watch(w.(c := Marshal(w.c, Reply(status))), w.c.clientFd, OP_WRITE);
    if w.c.originFd != -1 then Watch(w1, w.c.originFd, OP_NOOP) else w1
  }

  /** recv into the read buffer. */
  function Received(c: Conn, chunk: seq<byte>): Conn
    requires |chunk| <= c.readBuffer.Room()
  {
    c.(readBuffer := c.readBuffer.Push(chunk), log := c.log.(received := c.log.received + chunk))
  }

  /** send from the write buffer. */
  function Sent(c: Conn, n: nat): Conn
    requires n <= |c.writeBuffer.contents|
  {
    c.(writeBuffer := c.writeBuffer.Pop(n), log := c.log.(sent := c.log.sent + c.writeBuffer.contents[..n]))
  }

  predicate Drained(c: Conn) {
    c.writeBuffer.contents == []
  }

  // ----- Greeting -----

  function EatHello(c: Conn): Conn {
    var input := c.readBuffer.contents;
    var r := Hellos.Take(c.hello, input);
    c.(hello := r.0, readBuffer := c.readBuffer.Pop(r.1), log := c.log.(eatenHello := c.log.eatenHello + input[..r.1]))
  }

  /** hello_read. */
  function OnHelloRead(w: World, key: int, e: Env): (World, Phase)
    requires e.received.Some? ==> |e.received.value| <= w.c.readBuffer.Room()
  {
    if e.received.None? then (w, Error)
    else
      var c := EatHello(Received(w.c, e.received.value));
      var w1 := w.(c := c);
      if !Hellos.IsDone(c.hello) then (w1, HelloRead)
      else if !CanWatch(w1, key) then (w1, Error)
      else
        var w2 := Watch(w1, key, OP_WRITE);
        var reply := [Hellos.SOCKS_VERSION, c.hello.chosen];
        (w2.(c := Marshal(c, reply)),
         if c.writeBuffer.Room() < |reply| || c.hello.phase == Hellos.UnsupportedVersion then Error else HelloWrite)
  }

  /** hello_write. */
  function OnHelloWrite(w: World, key: int, e: Env): (World, Phase)
    requires e.sent.Some? ==> e.sent.value <= |w.c.writeBuffer.contents|
  {
    if e.sent.None? then (w, Error)
    else
      var w1 := w.(c := Sent(w.c, e.sent.value));
      if !Drained(w1.c) then (w1, HelloWrite)
      else if w.c.hello.chosen == Hellos.NO_ACCEPTABLE_METHODS then (w1, Done)
      else if !CanWatch(w1, key) then (w1, Error)
      else (Watch(w1, key, OP_READ),
            if w.c.hello.chosen == Hellos.USERNAME_PASSWORD then UserpassRead
            else if w.c.hello.chosen == Hellos.NO_AUTHENTICATION then RequestRead
            else HelloWrite)
  }

  // ----- Authentication -----

  function EatAuth(c: Conn): Conn {
    var input := c.readBuffer.contents;
    var r := FieldParsers.Take(c.auth, input);
    c.(auth := r.0, readBuffer := c.readBuffer.Pop(r.1), log := c.log.(eatenAuth := c.log.eatenAuth + input[..r.1]))
  }

  /** What a finished credentials parser holds. */
  function Username(p: FieldParsers.Parser): Registries.Text {
    if |p.results| > 2 then CString(p.results[2]) else []
  }

  function Password(p: FieldParsers.Parser): Registries.Text {
    if |p.results| > 4 then CString(p.results[4]) else []
  }

  /** auth_process. */
  function CheckCredentials(c: Conn, users: seq<Registries.User>): Conn {
    c.(authentication := if Registries.Check(users, Username(c.auth), Password(c.auth)).Some? then 0x00 else 0x01,
       log := c.log.(checkedOver := users))
  }

  /** auth_read. */
  function OnUserpassRead(w: World, key: int, e: Env): (World, Phase)
    requires e.received.Some? ==> |e.received.value| <= w.c.readBuffer.Room()
  {
    if e.received.None? then (w, Error)
    else
      var c := EatAuth(Received(w.c, e.received.value));
      var w1 := w.(c := c);
      if !FieldParsers.IsDone(c.auth) then (w1, UserpassRead)
      else if !CanWatch(w1, key) then (w1, Error)
      else
        var w2 := Watch(w1, key, OP_WRITE);
        if c.auth.phase == FieldParsers.Phase.Error then (w2, Error)
        else (w2.(c := CheckCredentials(c, e.users)), UserpassWrite)
  }

  /** auth_reply, on every call of auth_write. */
  function WithAuthReply(c: Conn): Conn {
    Marshal(c, [ClientWire.USERPASS_VERSION, c.authentication])
  }

  /** auth_write. */
  function OnUserpassWrite(w: World, key: int, e: Env): (World, Phase)
    requires e.sent.Some? ==> e.sent.value <= |WithAuthReply(w.c).writeBuffer.contents|
  {
    var c := WithAuthReply(w.c);
    if e.sent.None? then (w.(c := c), Error)
    else
      var w1 := w.(c := Sent(c, e.sent.value));
      if !Drained(w1.c) then (w1, UserpassWrite)
      else if c.authentication != 0x00 then (w1, Done)
      else if !CanWatch(w1, key) then (w1, Error)
      else (Watch(w1, key, OP_READ), RequestRead)
  }

  // ----- Request -----

  function EatRequest(c: Conn): Conn {
    var input := c.readBuffer.contents;
    var r := RequestParsers.Take(c.request, input);
    c.(request := r.0, readBuffer := c.readBuffer.Pop(r.1),
        log := c.log.(eatenRequest := c.log.eatenRequest + input[..r.1]))
  }

  /** request_process; a name is handed to a resolver thread. */
  function Process(w: World, key: int): (World, Phase) {
    if w.c.request.cmd != RequestParsers.CMD_CONNECT then
      (ErrorHandler(w, key, COMMAND_NOT_SUPPORTED), RequestWrite)
    else if w.c.request.atyp == RequestParsers.ATYP_IPV4 || w.c.request.atyp == RequestParsers.ATYP_IPV6 then
      (w, RequestConnecting)
    else if w.c.request.atyp == RequestParsers.ATYP_DOMAIN then
      (Watch(w, key, OP_NOOP).(spawned := true), RequestResolv)
    else
      (ErrorHandler(w, key, ADDRESS_TYPE_NOT_SUPPORTED), RequestWrite)
  }

  /** request_read. */
  function OnRequestRead(w: World, key: int, e: Env): (World, Phase)
    requires e.received.Some? ==> |e.received.value| <= w.c.readBuffer.Room()
  {
    if e.received.None? then (w, Error)
    else
      var c := EatRequest(Received(w.c, e.received.value));
      if RequestParsers.IsDone(c.request) then Process(w.(c := c), key)
      else (w.(c := c), RequestRead)
  }

  /** request_resolv_done. */
  function OnResolved(w: World, key: int): (World, Phase) {
    if w.c.resolution.None? then
      (ErrorHandler(w.(c := w.c.(status := GENERAL_FAILURE)), key, GENERAL_FAILURE), RequestWrite)
    else (w.(c := w.c.(more := w.c.resolution)), RequestConnecting)
  }

  /** request_write. */
  function OnRequestWrite(w: World, key: int, e: Env): (World, Phase)
    requires e.sent.Some? ==> e.sent.value <= |w.c.writeBuffer.contents|
  {
    if e.sent.None? then (w, Error)
    else
      var w1 := w.(c := Sent(w.c, e.sent.value));
      if !Drained(w1.c) then (w1, RequestWrite)
      else if w.c.status == 0x00 then
        (Watch(Watch(w1, w.c.clientFd, OP_READ), w.c.originFd, OP_READ), Copy)
      else (Watch(w1, w.c.clientFd, OP_NOOP), Done)
  }

  // ----- Connecting -----

  /** socks5_destroy: the last reference gives the structure back, any other is dropped. */
  function Destroy(c: Conn): Conn {
    if c.references == 1 then c.(log := c.log.(frees := c.log.frees + 1)) else c.(references := c.references - 1)
  }

  /** selector_unregister_fd, whose close handler drops a reference of the item's own attachment. */
  function Drop(w: World, id: nat, fd: int): World {
    if !CanWatch(w, fd) then w
    else
      var w1 := w.(table := Unregister(w.table, fd).1);
      if Own(w.table, fd, id) then w1.(c := Destroy(w.c)) else w1.(released := Some(fd))
  }

  /**
   * close: the descriptor is the kernel's again; when it is still registered for the connection,
   * that registration is leaked.
   */
  function Close(w: World, id: nat, fd: int): World {
    w.(open := w.open - {fd},
       c := if Own(w.table, fd, id) then w.c.(log := w.c.log.(leaked := w.c.log.leaked + {fd})) else w.c)
  }

  function WithStatus(w: World, s: byte): World {
    w.(c := w.c.(status := s))
  }

  /** The branch of connection for a connect that succeeds at once: a reference first, then READ on both descriptors. */
  function ConnectedAtOnce(w: World, id: nat, key: int): (World, byte) {
    var w0 := w.(c := w.c.(references := w.c.references + 1));
    if !CanWatch(w0, key) then
      (ErrorToClient(WithStatus(w0, GENERAL_FAILURE), GENERAL_FAILURE), GENERAL_FAILURE)
    else
      var w1 := Watch(w0, key, OP_READ);
      var reg := Register(w1.table, w.c.originFd, SOCKS5_HANDLER, OP_READ, id);
      if reg.0 == Success then (w1.(table := reg.1), 0x00)
      else (ErrorToClient(WithStatus(w1, GENERAL_FAILURE), GENERAL_FAILURE), GENERAL_FAILURE)
  }

  /** A registration of the origin refused: reported, and the descriptor closed and forgotten. */
  function Refused(w: World, id: nat): World {
    var w1 := Close(ErrorToClient(WithStatus(w, GENERAL_FAILURE), GENERAL_FAILURE), id, w.c.originFd);
    w1.(c := w1.c.(originFd := -1))
  }

  /** The branch of connection for a connect in progress: silence the caller's descriptor and wait for the origin's. */
  function ConnectionBegun(w: World, id: nat, key: int): (World, byte) {
    if !CanWatch(w, key) then
      (ErrorToClient(WithStatus(w, GENERAL_FAILURE), GENERAL_FAILURE), GENERAL_FAILURE)
    else
      var w1 := Watch(w, key, OP_NOOP);
      var reg := Register(w1.table, w.c.originFd, SOCKS5_HANDLER, OP_WRITE, id);
      if reg.0 == Success then
        (w1.(table := reg.1, c := w1.c.(references := w1.c.references + 1)), 0x00)
      else (Refused(w1, id), GENERAL_FAILURE)
  }

  /** connection, and what it returns. On no descriptor at all, connect fails. */
  function Connect(w: World, id: nat, key: int, e: Env): (World, byte) {
    if e.connect.Failed? || w.c.originFd == -1 then
      var s := ErrnoToSocks(if w.c.originFd == -1 then Other else e.connect.errno);
      (ErrorToClient(WithStatus(w, s), s), s)
    else if e.connect.AtOnce? then ConnectedAtOnce(w, id, key)
    else ConnectionBegun(w, id, key)
  }

  /** connecting_init. */
  function ConnectingInit(w: World, id: nat, key: int, e: Env): World {
    var w0 := WithStatus(w, 0x00);
    if e.socket.None? then
      ErrorToClient(w0.(c := w0.c.(originFd := -1, status := GENERAL_FAILURE)), GENERAL_FAILURE)
    else
      var fd := e.socket.value;
      var w1 := w0.(c := w0.c.(originFd := fd), open := w0.open[fd := id]);
      if !e.nonBlocking then ErrorToClient(WithStatus(w1, GENERAL_FAILURE), GENERAL_FAILURE)
      else
        var r := Connect(w1, id, key, e);
        WithStatus(r.0, r.1)
  }

  predicate HasMore(c: Conn) {
    c.more.Some? && c.more.value > 0
  }

  /** The next resolved address; what connection returns here is not looked at. */
  function TryNext(w: World, id: nat, key: int, e: Env): (World, Phase)
    requires HasMore(w.c)
  {
    (Connect(w.(c := w.c.(more := Some(w.c.more.value - 1))), id, key, e).0, RequestConnecting)
  }

  /** connecting_write once an attempt is known to have failed. */
  function AfterFailure(w: World, id: nat, key: int, e: Env): (World, Phase) {
    if HasMore(w.c) then TryNext(w, id, key, e)
    else
      var w1 := Close(Drop(w, id, w.c.originFd), id, w.c.originFd);
      (ErrorToClient(w1.(c := w1.c.(originFd := -1)), w1.c.status), RequestWrite)
  }

  /** connecting_write on a connected descriptor. */
  function Connected(w: World, key: int): (World, Phase) {
    if w.c.writeBuffer.Room() < |Reply(0x00)| then (WithStatus(w, 0x00), Error)
    else
      var w1 := w.(c := Marshal(w.c.(status := 0x00), Reply(0x00)));
      (Watch(Watch(w1, w.c.clientFd, OP_WRITE), key, OP_NOOP),
       if CanWatch(w1, w.c.clientFd) && CanWatch(w1, key) then RequestWrite else Error)
  }

  /** connecting_write. */
  function OnConnecting(w: World, id: nat, key: int, e: Env): (World, Phase) {
    if w.c.status != 0x00 then AfterFailure(w, id, key, e)
    else if e.soError.None? then
      (ErrorToClient(WithStatus(w, GENERAL_FAILURE), GENERAL_FAILURE), RequestWrite)
    else if e.soError.value.None? then Connected(w, key)
    else
      var s := ErrnoToSocks(e.soError.value.value);
      if HasMore(w.c) then TryNext(WithStatus(w, s), id, key, e)
      else (ErrorToClient(WithStatus(w, s), s), RequestWrite)
  }

  // ----- Relaying -----

  function RelayOf(w: World): Relays.Relay {
    Relays.Relay(Relays.End(w.c.clientFd, w.c.clientWants), Relays.End(w.c.originFd, w.c.originWants),
                 w.c.readBuffer, w.c.writeBuffer, w.table)
  }

  function WithRelay(w: World, r: Relays.Relay): World {
    w.(table := r.table,
       c := w.c.(clientWants := r.client.wants, originWants := r.origin.wants, readBuffer := r.up,
           writeBuffer := r.down))
  }

  /** copy_ptr: the end a descriptor belongs to. */
  function SideOf(c: Conn, key: int): Relays.Side {
    if key == c.originFd then Relays.OriginSide else Relays.ClientSide
  }

  function PhaseOf(v: Relays.Verdict): Phase {
    if v == Relays.Finish then Done else Copy
  }

  /** What the relay has read and sent is noted of the side it was read from or sent to. */
  function ReadLog(log: Log, side: Relays.Side, received: Option<seq<byte>>): Log {
    var got := if received.Some? then received.value else [];
    if side == Relays.ClientSide then log.(received := log.received + got)
    else log.(originReceived := log.originReceived + got)
  }

  function WriteLog(log: Log, side: Relays.Side, given: seq<byte>): Log {
    if side == Relays.ClientSide then log.(sent := log.sent + given) else log.(forwarded := log.forwarded + given)
  }

  /** copy_read, or None where it aborts. */
  function OnCopyRead(w: World, key: int, e: Env): Option<(World, Phase)>
    requires e.received.Some? ==> |e.received.value| <= RelayOf(w).From(SideOf(w.c, key)).Room()
  {
    var side := SideOf(w.c, key);
    var r := Relays.CopyRead(RelayOf(w), side, e.received);
    if r.1 == Relays.Abort then None
    else Some((WithRelay(w.(c := w.c.(log := ReadLog(w.c.log, side, e.received))), r.0), PhaseOf(r.1)))
  }

  /** copy_write, or None where it aborts. */
  function OnCopyWrite(w: World, key: int, e: Env): Option<(World, Phase)>
    requires e.sent.Some? ==> e.sent.value <= |RelayOf(w).To(SideOf(w.c, key)).contents|
  {
    var side := SideOf(w.c, key);
    var r := Relays.CopyWrite(RelayOf(w), side, e.sent);
    var given := if e.sent.Some? then RelayOf(w).To(side).contents[..e.sent.value] else [];
    if r.1 == Relays.Abort then None
    else Some((WithRelay(w.(c := w.c.(log := WriteLog(w.c.log, side, given))), r.0), PhaseOf(r.1)))
  }

  /** copy_init. */
  function OnCopyInit(w: World): Option<World> {
    var r := Relays.CopyInit(w.c.clientFd, w.c.originFd, w.c.readBuffer, w.c.writeBuffer, w.table);
    if r.1 == Relays.Abort then None else Some(WithRelay(w, r.0))
  }

  // ----- The state machine -----

  datatype Event = Readable | Writable | Block

  /** handle_first: the machine enters its initial state on the first event, and captures the method required then. */
  function First(w: World, e: Env): World {
    if w.c.started then w
    else w.(c := w.c.(started := true, hello := Hellos.Start(Hellos.SOCKS_VERSION, e.authMethod)))
  }

  /** The handler of the current state for an event: None where the state has none, or where the handler aborts. */
  function Handle(w: World, id: nat, key: int, event: Event, e: Env): Option<(World, Phase)>
    requires CallsBounded(w.c, key, event, e)
  {
    match event
    case Readable =>
      (match w.c.state
       case HelloRead => Some(OnHelloRead(w, key, e))
       case UserpassRead => Some(OnUserpassRead(w, key, e))
       case RequestRead => Some(OnRequestRead(w, key, e))
       case Copy => OnCopyRead(w, key, e)
       case _ => None)
    case Writable =>
      (match w.c.state
       case HelloWrite => Some(OnHelloWrite(w, key, e))
       case UserpassWrite => Some(OnUserpassWrite(w, key, e))
       case RequestConnecting => Some(OnConnecting(w, id, key, e))
       case RequestWrite => Some(OnRequestWrite(w, key, e))
       case Copy => OnCopyWrite(w, key, e)
       case _ => None)
    case Block =>
      if w.c.state == RequestResolv then Some(OnResolved(w, key)) else None
  }

  /** The buffer recv fills, and the one send empties, as the handler finds it. */
  function RecvRoom(c: Conn, key: int): int {
    if c.state == Copy && SideOf(c, key) == Relays.OriginSide then c.writeBuffer.Room() else c.readBuffer.Room()
  }

  function SendBytes(c: Conn, key: int): seq<byte> {
    if c.state == Copy && SideOf(c, key) == Relays.OriginSide then c.readBuffer.contents
    else if c.state == UserpassWrite then WithAuthReply(c).writeBuffer.contents
    else c.writeBuffer.contents
  }

  /** recv and send answer within the length they are given; a recv that answers something answers an octet at least. */
  predicate CallsBounded(c: Conn, key: int, event: Event, e: Env) {
    && (event == Readable && e.received.Some? ==> 0 < |e.received.value| <= RecvRoom(c, key))
    && (event == Writable && e.sent.Some? ==> e.sent.value <= |SendBytes(c, key)|)
  }

  /** jump: arrival in another state. */
  function Jump(w: World, id: nat, key: int, next: Phase, e: Env): Option<World> {
    if next == w.c.state then Some(w)
    else
      var w1 := w.(c := w.c.(state := next));
      match next
      case UserpassRead => Some(w1.(c := w1.c.(auth := ClientWire.StartAuth())))
      case RequestRead =>
        Some(w1.(c := w1.c.(request := RequestParsers.START, log := w1.c.log.(admitted := true))))
      case RequestConnecting => Some(ConnectingInit(w1, id, key, e))
      case Copy => OnCopyInit(w1)
      case _ => Some(w1)
  }

  /** One turn of the loop in socksv5_done; a descriptor that cannot be unregistered aborts the process. */
  function Release(w: World, id: nat, fd: int): Option<World> {
    if fd == -1 then Some(w)
    else if !CanWatch(w, fd) then None
    else Some(Close(Drop(w, id, fd), id, fd))
  }

  /** socksv5_done, on the descriptors as they were when it was called. */
  function Finish(w: World, id: nat): Option<World> {
    var w1 := Release(w, id, w.c.clientFd);
    if w1.None? then None else Release(w1.value, id, w.c.originFd)
  }

  /** stm_handler_read, stm_handler_write or stm_handler_block, and socksv5_done when they end the connection. */
  function Advance(w: World, id: nat, key: int, event: Event, e: Env): Option<World>
    requires CallsBounded(w.c, key, event, e)
  {
    var r := Handle(w, id, key, event, e);
    if r.None? then None
    else
      var w2 := Jump(r.value.0, id, key, r.value.1, e);
      if w2.None? then None
      else if Terminal(r.value.1) then Finish(w2.value, id)
      else w2
  }

  /** socksv5_read, socksv5_write and socksv5_block. None stands for the end of the process by abort(). */
  function Dispatch(w: World, id: nat, key: int, event: Event, e: Env): Option<World>
    requires CallsBounded(w.c, key, event, e)
  {
    Advance(First(Idle(w), e), id, key, event, e)
  }

  /** Between two events: nobody spawned, nothing of anybody else's released. */
  function Idle(w: World): World {
    w.(spawned := false, released := None)
  }
}
