/**
 * What a connection keeps in the selector's table: in every state its registrations, their
 * interests and its reference count fit each other, so no handler is missing and nothing aborts.
 */
module ConnectionTables {
  import opened Bytes
  import opened Buffers
  import opened Selectors
  import opened Connections
  import FieldParsers
  import Hellos
  import Registries
  import Relays
  import RequestParsers

  predicate Registered(t: Table, fd: int, id: nat) {
    !InvalidFd(fd) && fd in t && t[fd].handler == SOCKS5_HANDLER && t[fd].data == id
  }

  predicate BuffersOk(c: Conn) {
    && c.readBuffer.Valid() && c.readBuffer.limit == BUFFER_SIZE
    && c.writeBuffer.Valid() && c.writeBuffer.limit == BUFFER_SIZE
  }

  /** References held by the origin's registration. */
  function OriginRefs(w: World, id: nat): nat {
    if Own(w.table, w.c.originFd, id) then 1 else 0
  }

  /**
   * Which descriptors a live connection has open and registered, and what its references count.
   * An origin's descriptor whose number was leaked is found registered, for somebody else and
   * for nothing.
   */
  ghost predicate Shape(w: World, id: nat)
    ensures Shape(w, id) ==> CanWatch(w, w.c.clientFd) && w.c.clientFd != w.c.originFd && BuffersOk(w.c)
    ensures Shape(w, id) ==> -1 !in w.table && -1 !in w.open
  {
    && w.c.log.frees == 0 && BuffersOk(w.c)
    && Registered(w.table, w.c.clientFd, id) && w.c.clientFd in w.open && w.open[w.c.clientFd] == id
    && (w.c.originFd != -1 ==>
          && w.c.originFd >= 0 && w.c.originFd != w.c.clientFd
          && w.c.originFd in w.open && w.open[w.c.originFd] == id)
    && -1 !in w.table && -1 !in w.open && OriginItem(w, id) && Leaks(w, id)
    && w.c.references == 1 + OriginRefs(w, id) + |w.c.log.leaked|
    && (forall fd :: fd in w.table && w.table[fd].data == id ==>
          fd == w.c.clientFd || fd == w.c.originFd || fd in w.c.log.leaked)
    && (forall fd :: fd in w.open && w.open[fd] == id ==> fd == w.c.clientFd || fd == w.c.originFd)
  }

  /** The item of the origin's descriptor, if there is one, is the connection's or asks for nothing. */
  predicate OriginItem(w: World, id: nat) {
    w.c.originFd in w.table ==>
      if w.table[w.c.originFd].data == id then Registered(w.table, w.c.originFd, id)
      else w.table[w.c.originFd].interest == OP_NOOP
  }

  /** A leaked registration is of a descriptor the connection has closed, and asks for nothing. */
  ghost predicate Leaks(w: World, id: nat) {
    forall fd :: fd in w.c.log.leaked ==>
      Registered(w.table, fd, id) && w.table[fd].interest == OP_NOOP && (fd in w.open ==> w.open[fd] != id)
  }

  /** No origin yet. */
  predicate Early(c: Conn) {
    c.originFd == -1 && c.log.leaked == {}
  }

  /**
   * The registered interests in each state: never an event the state has no handler for, and
   * always one it waits for.
   */
  ghost predicate Armed(w: World, id: nat, p: Phase)
    requires Shape(w, id)
  {
    var client := w.table[w.c.clientFd].interest;
    match p
    case HelloRead => client == OP_READ && Early(w.c)
    case HelloWrite => client == OP_WRITE && Early(w.c)
    case UserpassRead => client == OP_READ && Early(w.c)
    case UserpassWrite => client == OP_WRITE && Early(w.c)
    case RequestRead => client == OP_READ && Early(w.c)
    case RequestResolv => client == OP_NOOP && Early(w.c)
    case RequestConnecting =>
      if w.c.status == 0 then
        && client == OP_NOOP && Own(w.table, w.c.originFd, id) && w.table[w.c.originFd].interest == OP_WRITE
        && w.c.log.leaked == {}
      else
        && (client == OP_WRITE || (client == OP_NOOP && Own(w.table, w.c.originFd, id)))
        && (Own(w.table, w.c.originFd, id) ==>
              w.table[w.c.originFd].interest == if client == OP_WRITE then OP_NOOP else OP_WRITE)
        && (w.c.log.leaked != {} ==> w.c.originFd == -1)
    case RequestWrite =>
      && client == OP_WRITE && (w.c.originFd != -1 || w.c.status == 0 ==> Own(w.table, w.c.originFd, id))
      && (Own(w.table, w.c.originFd, id) ==> w.table[w.c.originFd].interest == OP_NOOP)
    case Copy =>
      && Relays.Good(RelayOf(w)) && Own(w.table, w.c.originFd, id)
      && (RelayOf(w).Open(Relays.ClientSide) || RelayOf(w).Open(Relays.OriginSide))
    case Done => false
    case Error => false
  }

  /** A connection between two events. */
  ghost predicate Sound(w: World, id: nat) {
    Shape(w, id) && Armed(w, id, w.c.state)
  }

  /** What a handler must leave for the machine to move to state p. */
  ghost predicate Ready(w: World, id: nat, p: Phase) {
    && Shape(w, id)
    && (if Terminal(p) || (p == Copy && w.c.state != Copy) then
          w.c.originFd != -1 || p == Copy ==> Own(w.table, w.c.originFd, id)
        else if p == RequestConnecting && w.c.state != RequestConnecting then Early(w.c)
        else Armed(w, id, p))
  }

  /** A connection that is over: it holds nothing but leaked registrations, and is freed when there are none. */
  ghost predicate Ended(w: World, id: nat) {
    && Terminal(w.c.state) && Leaks(w, id)
    && (forall fd :: fd in w.table && w.table[fd].data == id ==> fd in w.c.log.leaked)
    && (forall fd :: fd in w.open ==> w.open[fd] != id)
    && (if w.c.log.leaked == {} then w.c.log.frees == 1 else w.c.log.frees == 0 && w.c.references == |w.c.log.leaked|)
  }

  /** Nothing of any other connection is touched, but the one registration that is released. */
  ghost predicate Frame(w: World, w': World, id: nat) {
    Apart(w.table, w.open, w.released, w'.table, w'.open, w'.released, id)
  }

  ghost predicate Apart(t: Table, o: map<int, nat>, r: Option<int>, t': Table, o': map<int, nat>, r': Option<int>,
      id: nat) {
    && (forall fd :: fd in t && t[fd].data != id ==> (fd in t' && t'[fd] == t[fd]) || r' == Some(fd))
    && (forall fd :: fd in t' && t'[fd].data != id ==> fd in t && t[fd] == t'[fd])
    && (forall fd :: fd in o && o[fd] != id ==> fd in o' && o'[fd] == o[fd])
    && (forall fd :: fd in o' && o'[fd] != id ==> fd in o && o[fd] == o'[fd])
    && (-1 !in t ==> -1 !in t') && (-1 !in o ==> -1 !in o')
    && (r.Some? ==> r' == r)
    && (r.None? && r'.Some? ==> Given(t, o, t', r'.value, id))
  }

  /** The registration released was another's, of a descriptor open for the connection; it is gone. */
  ghost predicate Given(t: Table, o: map<int, nat>, t': Table, fd: int, id: nat) {
    && fd in t && t[fd].data != id && (fd in t' ==> t'[fd].data == id)
    && (fd in o ==> o[fd] == id)
  }

  /**
   * What may be said of the environment: a new descriptor is not an open one, though its number
   * may still be registered, for nothing; the server requires one of two methods.
   */
  ghost predicate Plausible(w: World, e: Env) {
    && (e.socket.Some? ==>
          && e.socket.value >= 0 && e.socket.value !in w.open
          && (e.socket.value in w.table ==> w.table[e.socket.value].interest == OP_NOOP))
    && (e.authMethod == 0x00 || e.authMethod == 0x02)
  }

  /**
   * The selector dispatches read and write events only where they are registered, and block events
   * where a resolver ran.
   */
  ghost predicate Due(w: World, key: int, event: Event) {
    match event
    case Readable => key in w.table && w.table[key].interest.read
    case Writable => key in w.table && w.table[key].interest.write
    case Block => key == w.c.clientFd && w.c.state == RequestResolv
  }

  // ----- The pieces -----

  lemma WatchShape(w: World, id: nat, fd: int, i: Interest)
    requires Shape(w, id) && (fd == w.c.clientFd || (fd == w.c.originFd && (Own(w.table, fd, id) || i == OP_NOOP)))
    ensures Shape(Watch(w, fd, i), id) && Frame(w, Watch(w, fd, i), id) && Watch(w, fd, i).c == w.c
    ensures forall k :: k in w.table <==> k in Watch(w, fd, i).table
    ensures forall k :: Own(w.table, k, id) <==> Own(Watch(w, fd, i).table, k, id)
    ensures forall k :: k in w.table && k != fd ==> Watch(w, fd, i).table[k] == w.table[k]
    ensures fd in w.table ==> Watch(w, fd, i).table[fd].interest == i
  {
  }

  lemma ErrorToClientShape(w: World, id: nat, status: byte)
    requires Shape(w, id)
    ensures var w' := ErrorToClient(w, status);
      && Shape(w', id) && Frame(w, w', id)
      && w'.c == Marshal(w.c, Reply(status))
      && w'.table[w.c.clientFd].interest == OP_WRITE
      && (forall fd :: Own(w.table, fd, id) <==> Own(w'.table, fd, id))
      && (Own(w.table, w.c.originFd, id) ==> w'.table[w.c.originFd].interest == OP_NOOP)
      && (w.c.originFd in w'.table ==> w'.table[w.c.originFd].interest == OP_NOOP)
  {
    var w1 := w.(c := Marshal(w.c, Reply(status)));
    var w2 := Watch(w1, w.c.clientFd, OP_WRITE);
    WatchShape(w1, id, w.c.clientFd, OP_WRITE);
    if w.c.originFd != -1 {
      WatchShape(w2, id, w.c.originFd, OP_NOOP);
    }
  }

  ghost predicate OpensNone(w: World, w': World) {
    forall fd :: fd in w'.open ==> fd in w.open
  }

  lemma FrameTrans(a: World, b: World, c: World, id: nat)
    requires Frame(a, b, id) && Frame(b, c, id)
    ensures Frame(a, c, id)
  {
  }

  lemma StatusShape(w: World, id: nat, s: byte)
    requires Shape(w, id)
    ensures Shape(WithStatus(w, s), id)
  {
  }

  /** The origin's registration, and the reference that goes with it. */
  lemma RegisterShape(w: World, id: nat)
    requires Shape(w, id) && w.c.originFd != -1 && w.c.originFd !in w.table && !InvalidFd(w.c.originFd)
    ensures var reg := Register(w.table, w.c.originFd, SOCKS5_HANDLER, OP_WRITE, id);
      var w' := w.(table := reg.1, c := w.c.(references := w.c.references + 1));
      reg.0 == Success && Shape(w', id) && Frame(w, w', id)
  {
  }

  /** Closing the origin's descriptor and forgetting it; a registration it still has is leaked. */
  lemma ForgetShape(w: World, id: nat)
    requires Shape(w, id) && w.c.originFd != -1
    requires Own(w.table, w.c.originFd, id) ==> w.table[w.c.originFd].interest == OP_NOOP
    ensures var w' := Close(w, id, w.c.originFd);
      Shape(w'.(c := w'.c.(originFd := -1)), id) && Frame(w, w', id)
  {
  }

  /**
   * What connection leaves behind: an armed origin and a silent client, or an armed client and a
   * silent origin, if any.
   */
  ghost predicate Tried(w: World, w': World, id: nat, s: byte) {
    && Shape(w', id) && Frame(w, w', id) && OpensNone(w, w') && (w'.c.log.leaked != {} ==> w'.c.originFd == -1)
    && var client := w'.table[w'.c.clientFd].interest;
    if s == 0 then
      && client == OP_NOOP && Own(w'.table, w'.c.originFd, id) && w'.table[w'.c.originFd].interest == OP_WRITE
      && w'.c.status == w.c.status && w'.c.log.leaked == {}
    else
      && client == OP_WRITE && w'.c.status == s
      && (Own(w'.table, w'.c.originFd, id) ==> w'.table[w'.c.originFd].interest == OP_NOOP)
  }

  lemma GaveUp(w: World, id: nat, s: byte)
    requires Shape(w, id) && s != 0 && (w.c.log.leaked != {} ==> w.c.originFd == -1)
    ensures Tried(w, ErrorToClient(WithStatus(w, s), s), id, s)
  {
    hide Shape, Leaks, Apart;
    StatusShape(w, id, s);
    ErrorToClientShape(WithStatus(w, s), id, s);
  }

  /** connection, from any point where it is called. */
  lemma ConnectTried(w: World, id: nat, key: int, e: Env)
    requires !e.connect.AtOnce?
    requires Shape(w, id) && (key == w.c.clientFd || (key == w.c.originFd && Own(w.table, key, id)))
    requires w.c.log.leaked != {} ==> w.c.originFd == -1
    ensures Tried(w, Connect(w, id, key, e).0, id, Connect(w, id, key, e).1)
  {
    assert CanWatch(w, key);
    hide Shape, Leaks, Apart, ErrorToClient, Refused;
    if e.connect.Failed? || w.c.originFd == -1 {
      GaveUp(w, id, ErrnoToSocks(if w.c.originFd == -1 then Other else e.connect.errno));
    } else {
      var w1, w' := Watch(w, key, OP_NOOP), Connect(w, id, key, e).0;
      WatchShape(w, id, key, OP_NOOP);
      var reg := Register(w1.table, w.c.originFd, SOCKS5_HANDLER, OP_WRITE, id);
      if reg.0 == Success {
        RegisterShape(w1, id);
        FrameTrans(w, w1, w', id);
      } else {
        RegisterRefused(w1, id);
        FrameTrans(w, w1, w', id);
      }
    }
  }

  /** A second registration of the descriptor is refused: it is closed and forgotten. */
  lemma RegisterRefused(w: World, id: nat)
    requires Shape(w, id) && w.c.originFd != -1 && w.c.log.leaked == {}
    ensures Tried(w, Refused(w, id), id, GENERAL_FAILURE)
  {
    hide Shape, Leaks, Apart, ErrorToClient;
    var w1 := ErrorToClient(WithStatus(w, GENERAL_FAILURE), GENERAL_FAILURE);
    GaveUp(w, id, GENERAL_FAILURE);
    ErrorToClientSame(WithStatus(w, GENERAL_FAILURE), GENERAL_FAILURE);
    ForgetShape(w1, id);
    FrameTrans(w, w1, Close(w1, id, w.c.originFd), id);
  }

  lemma ErrorToClientSame(w: World, s: byte)
    ensures var w' := ErrorToClient(w, s);
      w'.c.clientFd == w.c.clientFd && w'.c.originFd == w.c.originFd && w'.open == w.open
          && w'.c.log.leaked == w.c.log.leaked
    ensures var w' := ErrorToClient(w, s);
      w'.c.state == w.c.state && w'.c.status == w.c.status && w'.spawned == w.spawned && w'.released == w.released
  {
  }

  /** Only the data of a connection has changed. */
  predicate SameFds(w: World, w': World) {
    && w'.table == w.table && w'.open == w.open && w'.released == w.released
    && w'.c.clientFd == w.c.clientFd && w'.c.originFd == w.c.originFd && w'.c.references == w.c.references
    && w'.c.log.leaked == w.c.log.leaked && w'.c.log.frees == w.c.log.frees
  }

  lemma SameShape(w: World, w': World, id: nat)
    requires Shape(w, id) && SameFds(w, w') && BuffersOk(w'.c)
    ensures Shape(w', id) && Frame(w, w', id)
  {
  }

  // ----- The handlers -----

  /**
   * A handler leaves the connection ready for the state it returns; changing state is not its
   * business, and it opens nothing.
   */
  ghost predicate Handled(w: World, w': World, id: nat, p: Phase) {
    && Ready(w', id, p) && Frame(w, w', id) && OpensNone(w, w')
    && w'.c.state == w.c.state && w'.c.clientFd == w.c.clientFd
    && (w.c.state == Copy ==> p == Copy || p == Done)
    && (!w.spawned ==> (w'.spawned <==> p == RequestResolv))
  }

  lemma HelloReadReady(w: World, id: nat, key: int, e: Env)
    requires Sound(w, id) && w.c.state == HelloRead && key == w.c.clientFd
    requires e.received.Some? ==> |e.received.value| <= w.c.readBuffer.Room()
    ensures var (w', p) := OnHelloRead(w, key, e);
      Handled(w, w', id, p)
  {
    hide FieldParsers.State.Valid, FieldParsers.WellFormed;
    hide Shape, Apart;
    if e.received.None? {
      SameShape(w, w, id);
    } else {
      var c := EatHello(Received(w.c, e.received.value));
      var w1 := w.(c := c);
      SameShape(w, w1, id);
      if Hellos.IsDone(c.hello) {
        var w2, w3 := Watch(w1, key, OP_WRITE), OnHelloRead(w, key, e).0;
        WatchShape(w1, id, key, OP_WRITE);
        SameShape(w2, w3, id);
        FrameTrans(w, w1, w2, id);
      }
    }
  }

  lemma HelloWriteReady(w: World, id: nat, key: int, e: Env)
    requires Sound(w, id) && w.c.state == HelloWrite && key == w.c.clientFd
    requires e.sent.Some? ==> e.sent.value <= |w.c.writeBuffer.contents|
    requires w.c.hello.chosen in [0x00, 0x02, 0xFF]
    ensures var (w', p) := OnHelloWrite(w, key, e);
      Handled(w, w', id, p)
  {
    hide Shape, Apart;
    if e.sent.None? {
      SameShape(w, w, id);
    } else {
      var w1 := w.(c := Sent(w.c, e.sent.value));
      SameShape(w, w1, id);
      WatchShape(w1, id, key, OP_READ);
      FrameTrans(w, w1, Watch(w1, key, OP_READ), id);
    }
  }

  lemma EatAuthBuffers(c: Conn)
    requires BuffersOk(c)
    ensures var d := EatAuth(c);
      BuffersOk(d) && d == c.(auth := d.auth, readBuffer := d.readBuffer, log := c.log.(eatenAuth := d.log.eatenAuth))
  {
  }

  lemma UserpassReadReady(w: World, id: nat, key: int, e: Env)
    requires Sound(w, id) && w.c.state == UserpassRead && key == w.c.clientFd
    requires e.received.Some? ==> |e.received.value| <= w.c.readBuffer.Room()
    ensures var (w', p) := OnUserpassRead(w, key, e);
      Handled(w, w', id, p)
  {
    hide Shape, Apart, EatAuth, CheckCredentials;
    if e.received.None? {
      SameShape(w, w, id);
    } else {
      var c := EatAuth(Received(w.c, e.received.value));
      var w1 := w.(c := c);
      EatAuthBuffers(Received(w.c, e.received.value));
      SameShape(w, w1, id);
      if FieldParsers.IsDone(c.auth) {
        var w2 := Watch(w1, key, OP_WRITE);
        WatchShape(w1, id, key, OP_WRITE);
        CheckSame(c, e.users);
        SameShape(w2, w2.(c := CheckCredentials(c, e.users)), id);
        FrameTrans(w, w1, w2, id);
      }
    }
  }

  lemma CheckSame(c: Conn, users: seq<Registries.User>)
    ensures var d := CheckCredentials(c, users);
      d == c.(authentication := d.authentication, log := c.log.(checkedOver := d.log.checkedOver))
  {
  }

  lemma UserpassWriteReady(w: World, id: nat, key: int, e: Env)
    requires Sound(w, id) && w.c.state == UserpassWrite && key == w.c.clientFd
    requires e.sent.Some? ==> e.sent.value <= |WithAuthReply(w.c).writeBuffer.contents|
    ensures var (w', p) := OnUserpassWrite(w, key, e);
      Handled(w, w', id, p)
  {
    hide Shape, Apart;
    var c := WithAuthReply(w.c);
    var w1 := if e.sent.None? then w.(c := c) else w.(c := Sent(c, e.sent.value));
    SameShape(w, w1, id);
    WatchShape(w1, id, key, OP_READ);
    FrameTrans(w, w1, Watch(w1, key, OP_READ), id);
  }

  lemma RequestReadReady(w: World, id: nat, key: int, e: Env)
    requires Sound(w, id) && w.c.state == RequestRead && key == w.c.clientFd
    requires e.received.Some? ==> |e.received.value| <= w.c.readBuffer.Room()
    requires w.c.status != 0 || EatRequestIsConnect(w.c, e)
    ensures var (w', p) := OnRequestRead(w, key, e);
      Handled(w, w', id, p)
  {
    hide Shape, Apart;
    if e.received.None? {
      SameShape(w, w, id);
    } else {
      var c := EatRequest(Received(w.c, e.received.value));
      var w1 := w.(c := c);
      SameShape(w, w1, id);
      if RequestParsers.IsDone(c.request) {
        ProcessReady(w1, id, key);
        FrameTrans(w, w1, Process(w1, key).0, id);
      }
    }
  }

  /** A request that ends is one the server has a branch for. */
  predicate EatRequestIsConnect(c: Conn, e: Env) {
    e.received.Some? && |e.received.value| <= c.readBuffer.Room() ==>
      var r := EatRequest(Received(c, e.received.value)).request;
      RequestParsers.IsDone(r) ==> Connectable(r)
  }

  predicate Connectable(r: RequestParsers.Parser) {
    r.cmd == RequestParsers.CMD_CONNECT &&
    r.atyp in [RequestParsers.ATYP_IPV4, RequestParsers.ATYP_DOMAIN, RequestParsers.ATYP_IPV6]
  }

  lemma ProcessReady(w: World, id: nat, key: int)
    requires Shape(w, id) && Early(w.c) && w.c.state == RequestRead && key == w.c.clientFd
    requires w.c.status != 0 || Connectable(w.c.request)
    ensures var (w', p) := Process(w, key);
      Handled(w, w', id, p)
  {
    hide Shape, Apart, ErrorHandler;
    if w.c.request.cmd != RequestParsers.CMD_CONNECT {
      ErrorHandlerShape(w, id, key, COMMAND_NOT_SUPPORTED);
    } else if w.c.request.atyp == RequestParsers.ATYP_IPV4 || w.c.request.atyp == RequestParsers.ATYP_IPV6 {
      SameShape(w, w, id);
    } else if w.c.request.atyp == RequestParsers.ATYP_DOMAIN {
      WatchShape(w, id, key, OP_NOOP);
      SameShape(Watch(w, key, OP_NOOP), Watch(w, key, OP_NOOP).(spawned := true), id);
    } else {
      ErrorHandlerShape(w, id, key, ADDRESS_TYPE_NOT_SUPPORTED);
    }
  }

  lemma ErrorHandlerShape(w: World, id: nat, key: int, s: byte)
    requires Shape(w, id) && key == w.c.clientFd
    ensures var w' := ErrorHandler(w, key, s);
      && Shape(w', id) && Frame(w, w', id) && w'.c == Marshal(w.c, Reply(s)) && w'.open == w.open
      && w'.spawned == w.spawned
      && w'.table[w.c.clientFd].interest == OP_WRITE && OriginRefs(w', id) == OriginRefs(w, id)
  {
    hide Shape, Apart;
    var w1 := w.(c := Marshal(w.c, Reply(s)));
    SameShape(w, w1, id);
    WatchShape(w1, id, key, OP_WRITE);
  }

  lemma ResolvedReady(w: World, id: nat, key: int)
    requires Sound(w, id) && w.c.state == RequestResolv && key == w.c.clientFd
    ensures var (w', p) := OnResolved(w, key);
      Handled(w, w', id, p)
  {
    hide Shape, Apart;
    var w1 := WithStatus(w, GENERAL_FAILURE);
    StatusShape(w, id, GENERAL_FAILURE);
    ErrorHandlerShape(w1, id, key, GENERAL_FAILURE);
    SameShape(w, w.(c := w.c.(more := w.c.resolution)), id);
  }

  lemma TriedReady(w: World, w': World, id: nat, s: byte)
    requires Tried(w, w', id, s) && w'.c.state == RequestConnecting && w'.c.status != 0
    ensures Ready(w', id, RequestConnecting)
  {
  }

  /** unregister, close and forget the origin. */
  lemma DropOriginShape(w: World, id: nat)
    requires Shape(w, id) && (w.c.log.leaked != {} ==> w.c.originFd == -1) && w.released.None?
    ensures var w1 := Close(Drop(w, id, w.c.originFd), id, w.c.originFd);
      var w2 := w1.(c := w1.c.(originFd := -1));
      && Shape(w2, id) && Frame(w, w2, id) && OpensNone(w, w2)
      && w2.c.status == w.c.status && w2.c.clientFd == w.c.clientFd && w2.c.state == w.c.state
      && w2.spawned == w.spawned
  {
    hide FieldParsers.State.Valid, FieldParsers.WellFormed;
    var fd := w.c.originFd;
    if Own(w.table, fd, id) {
      assert Close(Drop(w, id, fd), id, fd) == w.(table := w.table - {fd}, open := w.open - {fd}, c := Destroy(w.c));
    } else if CanWatch(w, fd) {
      assert Close(Drop(w, id, fd), id, fd) == w.(table := w.table - {fd}, open := w.open - {fd}, released := Some(fd));
    } else {
      assert Close(Drop(w, id, fd), id, fd) == w.(open := w.open - {fd});
    }
  }

  lemma AfterFailureReady(w: World, id: nat, key: int, e: Env)
    requires !e.connect.AtOnce? && w.released.None?
    requires Shape(w, id) && w.c.state == RequestConnecting && w.c.status != 0
    requires w.c.log.leaked != {} ==> w.c.originFd == -1
    requires key == w.c.clientFd || (key == w.c.originFd && Own(w.table, key, id))
    ensures var (w', p) := AfterFailure(w, id, key, e);
      Handled(w, w', id, p)
  {
    hide Shape, Apart, Connect, Drop, Close, ErrorToClient;
    if HasMore(w.c) {
      TryNextReady(w, id, key, e);
    } else {
      var w1 := Close(Drop(w, id, w.c.originFd), id, w.c.originFd);
      var w2 := w1.(c := w1.c.(originFd := -1));
      var w3 := ErrorToClient(w2, w2.c.status);
      DropOriginShape(w, id);
      ErrorToClientShape(w2, id, w2.c.status);
      ErrorToClientSame(w2, w2.c.status);
      FrameTrans(w, w2, w3, id);
    }
  }

  lemma TryNextReady(w: World, id: nat, key: int, e: Env)
    requires !e.connect.AtOnce?
    requires Shape(w, id) && w.c.state == RequestConnecting && w.c.status != 0 && HasMore(w.c)
    requires w.c.log.leaked != {} ==> w.c.originFd == -1
    requires key == w.c.clientFd || (key == w.c.originFd && Own(w.table, key, id))
    ensures var (w', p) := TryNext(w, id, key, e);
      Handled(w, w', id, p)
  {
    hide Shape, Apart, ErrorToClient;
    var w1 := w.(c := w.c.(more := Some(w.c.more.value - 1)));
    var (w', s) := Connect(w1, id, key, e);
    SameShape(w, w1, id);
    ConnectTried(w1, id, key, e);
    ConnectKeepsState(w1, id, key, e);
    TriedReady(w1, w', id, s);
  }

  lemma ConnectKeepsState(w: World, id: nat, key: int, e: Env)
    requires !e.connect.AtOnce?
    ensures var w' := Connect(w, id, key, e).0;
      w'.c.state == w.c.state && w'.c.clientFd == w.c.clientFd && OpensNone(w, w') && w'.spawned == w.spawned
  {
    hide FieldParsers.State.Valid, FieldParsers.WellFormed, ErrorToClient;
    if e.connect.Failed? || w.c.originFd == -1 {
      var s := ErrnoToSocks(if w.c.originFd == -1 then Other else e.connect.errno);
      ErrorToClientSame(WithStatus(w, s), s);
    }
    ErrorToClientSame(WithStatus(w, GENERAL_FAILURE), GENERAL_FAILURE);
    ErrorToClientSame(WithStatus(Watch(w, key, OP_NOOP), GENERAL_FAILURE), GENERAL_FAILURE);
  }

  lemma ConnectingReady(w: World, id: nat, key: int, e: Env)
    requires !e.connect.AtOnce? && w.released.None?
    requires Sound(w, id) && w.c.state == RequestConnecting && Due(w, key, Writable) && Own(w.table, key, id)
    requires key == w.c.clientFd || key == w.c.originFd
    ensures var (w', p) := OnConnecting(w, id, key, e);
      Handled(w, w', id, p)
  {
    hide Shape, Apart, AfterFailure, TryNext, Connected, ErrorToClient;
    if w.c.status != 0 {
      AfterFailureReady(w, id, key, e);
    } else {
      if e.soError.None? {
        ReportReady(w, id, GENERAL_FAILURE);
      } else if e.soError.value.None? {
        ConnectedReady(w, id, key);
      } else {
        var s := ErrnoToSocks(e.soError.value.value);
        if HasMore(w.c) {
          StatusShape(w, id, s);
          TryNextReady(WithStatus(w, s), id, key, e);
        } else {
          ReportReady(w, id, s);
        }
      }
    }
  }

  /** A failure on a registered origin, reported to the client. */
  lemma ReportReady(w: World, id: nat, s: byte)
    requires Shape(w, id) && w.c.state == RequestConnecting && Own(w.table, w.c.originFd, id) && s != 0
    ensures Handled(w, ErrorToClient(WithStatus(w, s), s), id, RequestWrite)
  {
    hide Shape, Apart, ErrorToClient;
    StatusShape(w, id, s);
    ErrorToClientShape(WithStatus(w, s), id, s);
    ErrorToClientSame(WithStatus(w, s), s);
  }

  lemma ConnectedReady(w: World, id: nat, key: int)
    requires Shape(w, id) && w.c.state == RequestConnecting && key == w.c.originFd && Own(w.table, key, id)
    ensures var (w', p) := Connected(w, key);
      Handled(w, w', id, p)
  {
    hide Shape, Apart;
    StatusShape(w, id, 0);
    var w1 := w.(c := Marshal(w.c.(status := 0x00), Reply(0x00)));
    var w2 := Watch(w1, w.c.clientFd, OP_WRITE);
    SameShape(w, w1, id);
    WatchShape(w1, id, w.c.clientFd, OP_WRITE);
    WatchShape(w2, id, key, OP_NOOP);
    FrameTrans(w1, w2, Watch(w2, key, OP_NOOP), id);
  }

  lemma RequestWriteReady(w: World, id: nat, key: int, e: Env)
    requires Sound(w, id) && w.c.state == RequestWrite && key == w.c.clientFd
    requires e.sent.Some? ==> e.sent.value <= |w.c.writeBuffer.contents|
    ensures var (w', p) := OnRequestWrite(w, key, e);
      Handled(w, w', id, p)
  {
    hide Shape, Apart;
    if e.sent.None? {
      SameShape(w, w, id);
    } else {
      var w1 := w.(c := Sent(w.c, e.sent.value));
      SameShape(w, w1, id);
      var w2 := Watch(w1, w.c.clientFd, OP_READ);
      WatchShape(w1, id, w.c.clientFd, OP_READ);
      WatchShape(w1, id, w.c.clientFd, OP_NOOP);
      if w.c.status == 0 {
        WatchShape(w2, id, w.c.originFd, OP_READ);
        FrameTrans(w1, w2, Watch(w2, w.c.originFd, OP_READ), id);
      }
    }
  }

  // ----- Relaying -----

  /** Settling a relay touches the interests of its two ends, and nothing else in the table. */
  lemma SettleApart(r: Relays.Relay, side: Relays.Side, id: nat, o: map<int, nat>, rel: Option<int>)
    requires Relays.Shape(r) && Registered(r.table, r.client.fd, id) && Registered(r.table, r.origin.fd, id)
    ensures var t := Relays.Settle(r, side).0.table;
      && Apart(r.table, o, rel, t, o, rel, id)
      && Registered(t, r.client.fd, id) && Registered(t, r.origin.fd, id)
      && (forall fd :: fd in t <==> fd in r.table)
      && (forall fd :: fd in t && fd != r.client.fd && fd != r.origin.fd ==> t[fd] == r.table[fd])
  {
  }

  lemma RelayShape(w: World, id: nat, r: Relays.Relay, side: Relays.Side, c: Conn)
    requires Shape(w, id) && Own(w.table, w.c.originFd, id)
    requires Relays.Shape(r) && r.table == w.table && r.client.fd == w.c.clientFd && r.origin.fd == w.c.originFd
    requires r.up.limit == r.down.limit == BUFFER_SIZE
    requires SameFds(w, w.(c := c))
    ensures var (s, v) := Relays.Settle(r, side);
      var w' := WithRelay(w.(c := c), s);
      && v != Relays.Abort && Shape(w', id) && Frame(w, w', id) && RelayOf(w') == s && Relays.Good(s)
      && Own(w'.table, w.c.originFd, id)
  {
    hide Relays.Shape, Apart;
    var s := Relays.Settle(r, side).0;
    Relays.SettleGood(r, side);
    SettleApart(r, side, id, w.open, w.released);
    SettleBuffers(r, side);
  }

  lemma SettleBuffers(r: Relays.Relay, side: Relays.Side)
    requires Relays.Shape(r)
    ensures var s := Relays.Settle(r, side).0;
      && s.up == r.up && s.down == r.down && s.up.Valid() && s.down.Valid() && s.client.fd == r.client.fd
      && s.origin.fd == r.origin.fd
  {
  }

  lemma CopyReadReady(w: World, id: nat, key: int, e: Env)
    requires Sound(w, id) && w.c.state == Copy && Due(w, key, Readable) && (key == w.c.clientFd || key == w.c.originFd)
    requires e.received.Some? ==> 0 < |e.received.value| <= RelayOf(w).From(SideOf(w.c, key)).Room()
    ensures var r := OnCopyRead(w, key, e);
      r.Some? && var (w', p) := r.value; Handled(w, w', id, p)
  {
    hide FieldParsers.State.Valid, FieldParsers.WellFormed;
    hide Shape, Apart, Relays.Settle;
    var side, r := SideOf(w.c, key), RelayOf(w);
    var r1 := Relays.AfterRecv(r, side, e.received);
    Relays.RecvStep(r, side, e.received, side);
    Relays.StepGood(r, Relays.Readable(side, e.received), side);
    AfterRecvSame(r, side, e.received);
    var got := if e.received.Some? then e.received.value else [];
    var log := if side == Relays.ClientSide then w.c.log.(received := w.c.log.received + got)
               else w.c.log.(originReceived := w.c.log.originReceived + got);
    RelayShape(w, id, r1, side, w.c.(log := log));
  }

  lemma AfterRecvSame(r: Relays.Relay, side: Relays.Side, received: Option<seq<byte>>)
    requires received.Some? ==> |received.value| <= r.From(side).Room()
    ensures var r1 := Relays.AfterRecv(r, side, received);
      && r1.table == r.table && r1.client.fd == r.client.fd && r1.origin.fd == r.origin.fd
      && r1.up.limit == r.up.limit && r1.down.limit == r.down.limit
  {
  }

  lemma CopyWriteReady(w: World, id: nat, key: int, e: Env)
    requires Sound(w, id) && w.c.state == Copy && Due(w, key, Writable) && (key == w.c.clientFd || key == w.c.originFd)
    requires e.sent.Some? ==> e.sent.value <= |RelayOf(w).To(SideOf(w.c, key)).contents|
    ensures var r := OnCopyWrite(w, key, e);
      r.Some? && var (w', p) := r.value; Handled(w, w', id, p)
  {
    hide FieldParsers.State.Valid, FieldParsers.WellFormed;
    hide Shape, Apart, Relays.Settle;
    var side, r := SideOf(w.c, key), RelayOf(w);
    var r1 := Relays.AfterSend(r, side, e.sent);
    Relays.SendStep(r, side, e.sent, side);
    Relays.StepGood(r, Relays.Writable(side, e.sent), side);
    AfterSendSame(r, side, e.sent);
    var given := if e.sent.Some? then RelayOf(w).To(side).contents[..e.sent.value] else [];
    var log := if side == Relays.ClientSide then w.c.log.(sent := w.c.log.sent + given)
               else w.c.log.(forwarded := w.c.log.forwarded + given);
    RelayShape(w, id, r1, side, w.c.(log := log));
  }

  lemma AfterSendSame(r: Relays.Relay, side: Relays.Side, sent: Option<nat>)
    requires sent.Some? ==> sent.value <= |r.To(side).contents|
    ensures var r1 := Relays.AfterSend(r, side, sent);
      && r1.table == r.table && r1.client.fd == r.client.fd && r1.origin.fd == r.origin.fd
      && r1.up.limit == r.up.limit && r1.down.limit == r.down.limit
  {
  }

  // ----- Arrival and end -----

  lemma ConnectingInitSound(w: World, id: nat, key: int, e: Env)
    requires Shape(w, id) && Early(w.c) && key == w.c.clientFd && w.c.state == RequestConnecting
    requires Plausible(w, e) && !e.connect.AtOnce?
    ensures var w' := ConnectingInit(w, id, key, e);
      Sound(w', id) && Frame(w, w', id)
  {
    hide Apart, ErrorToClient, Connect;
    var w0 := WithStatus(w, 0x00);
    StatusShape(w, id, 0x00);
    if e.socket.None? {
      hide Shape;
      assert w0.(c := w0.c.(originFd := -1, status := GENERAL_FAILURE)) == WithStatus(w0, GENERAL_FAILURE);
      GaveUp(w0, id, GENERAL_FAILURE);
      ErrorToClientSame(WithStatus(w0, GENERAL_FAILURE), GENERAL_FAILURE);
    } else {
      var fd := e.socket.value;
      var w1 := w0.(c := w0.c.(originFd := fd), open := w0.open[fd := id]);
      SocketShape(w0, id, fd);
      hide Shape;
      if !e.nonBlocking {
        GaveUp(w1, id, GENERAL_FAILURE);
        ErrorToClientSame(WithStatus(w1, GENERAL_FAILURE), GENERAL_FAILURE);
        FrameTrans(w, w1, ErrorToClient(WithStatus(w1, GENERAL_FAILURE), GENERAL_FAILURE), id);
      } else {
        var r := Connect(w1, id, key, e);
        ConnectTried(w1, id, key, e);
        ConnectKeepsState(w1, id, key, e);
        StatusShape(r.0, id, r.1);
        FrameTrans(w, w1, r.0, id);
      }
    }
  }

  lemma SocketShape(w: World, id: nat, fd: int)
    requires Shape(w, id) && Early(w.c) && fd >= 0 && fd !in w.open
        && (fd in w.table ==> w.table[fd].interest == OP_NOOP)
    ensures var w' := w.(c := w.c.(originFd := fd), open := w.open[fd := id]);
      Shape(w', id) && Frame(w, w', id)
  {
  }

  lemma CopyInitSound(w: World, id: nat)
    requires Shape(w, id) && Own(w.table, w.c.originFd, id) && w.c.state == Copy
    ensures var r := OnCopyInit(w);
      r.Some? && Sound(r.value, id) && Frame(w, r.value, id)
  {
  }

  /** What jump leaves: a sound connection in its new state, or one that can be taken down. */
  ghost predicate Jumped(w: World, w': World, id: nat, p: Phase, e: Env) {
    && Frame(w, w', id) && w'.c.state == p && OpensSocket(w, w', e)
    && w'.spawned == w.spawned && w'.c.clientFd == w.c.clientFd
    && (if Terminal(p) then Shape(w', id) && (w'.c.originFd != -1 ==> Own(w'.table, w'.c.originFd, id))
        else Sound(w', id))
  }

  /** jump, from a state whose handler has finished. */
  lemma JumpSound(w: World, id: nat, key: int, p: Phase, e: Env)
    requires Ready(w, id, p) && !Terminal(w.c.state)
    requires p == RequestConnecting && w.c.state != RequestConnecting ==>
      key == w.c.clientFd && Plausible(w, e) && !e.connect.AtOnce?
    ensures Jump(w, id, key, p, e).Some? && Jumped(w, Jump(w, id, key, p, e).value, id, p, e)
  {
    if p == w.c.state {
      hide Shape, Apart, Relays.Good, FieldParsers.State.Valid, FieldParsers.WellFormed;
      SameShape(w, w, id);
    } else if p == RequestConnecting {
      ArriveConnecting(w, id, key, e);
    } else if p == Copy {
      ArriveCopy(w, id, key, e);
    } else {
      ArrivePlain(w, id, key, p, e);
    }
  }

  lemma ArriveConnecting(w: World, id: nat, key: int, e: Env)
    requires Shape(w, id) && Early(w.c) && w.c.state != RequestConnecting
    requires key == w.c.clientFd && Plausible(w, e) && !e.connect.AtOnce?
    ensures var r := Jump(w, id, key, RequestConnecting, e);
      r.Some? && Jumped(w, r.value, id, RequestConnecting, e)
  {
    hide Shape, Apart, ConnectingInit, Armed, FieldParsers.State.Valid, FieldParsers.WellFormed;
    var w1 := w.(c := w.c.(state := RequestConnecting));
    SameShape(w, w1, id);
    ConnectingInitSound(w1, id, key, e);
    ConnectingInitState(w1, id, key, e);
    FrameTrans(w, w1, ConnectingInit(w1, id, key, e), id);
  }

  lemma ArriveCopy(w: World, id: nat, key: int, e: Env)
    requires Shape(w, id) && Own(w.table, w.c.originFd, id) && w.c.state != Copy
    ensures var r := Jump(w, id, key, Copy, e);
      r.Some? && Jumped(w, r.value, id, Copy, e)
  {
    hide Shape, Apart, OnCopyInit, Armed, FieldParsers.State.Valid, FieldParsers.WellFormed;
    var w1 := w.(c := w.c.(state := Copy));
    SameShape(w, w1, id);
    CopyInitSound(w1, id);
    CopyInitState(w1);
    FrameTrans(w, w1, OnCopyInit(w1).value, id);
  }

  lemma ArrivePlain(w: World, id: nat, key: int, p: Phase, e: Env)
    requires Ready(w, id, p) && p != w.c.state && p != RequestConnecting && p != Copy
    ensures var r := Jump(w, id, key, p, e);
      r.Some? && Jumped(w, r.value, id, p, e)
  {
    hide Shape, Apart, Relays.Good, FieldParsers.State.Valid, FieldParsers.WellFormed;
    SameShape(w, Jump(w, id, key, p, e).value, id);
  }

  /** The only descriptor a handler opens is the one socket() gives it. */
  ghost predicate OpensSocket(w: World, w': World, e: Env) {
    forall fd :: fd in w'.open && fd !in w.open ==> e.socket == Some(fd)
  }

  lemma CopyInitState(w: World)
    ensures OnCopyInit(w).Some? ==>
      var w' := OnCopyInit(w).value;
      w'.c.state == w.c.state && w'.c.clientFd == w.c.clientFd && OpensNone(w, w') && w'.spawned == w.spawned
  {
  }

  lemma ConnectingInitState(w: World, id: nat, key: int, e: Env)
    requires !e.connect.AtOnce?
    ensures var w' := ConnectingInit(w, id, key, e);
      w'.c.state == w.c.state && w'.c.clientFd == w.c.clientFd && OpensSocket(w, w', e) && w'.spawned == w.spawned
  {
    hide ErrorToClient, Connect;
    var w0 := WithStatus(w, 0x00);
    if e.socket.None? {
      ErrorToClientSame(w0.(c := w0.c.(originFd := -1, status := GENERAL_FAILURE)), GENERAL_FAILURE);
    } else {
      var w1 := w0.(c := w0.c.(originFd := e.socket.value), open := w0.open[e.socket.value := id]);
      ErrorToClientSame(WithStatus(w1, GENERAL_FAILURE), GENERAL_FAILURE);
      ConnectKeepsState(w1, id, key, e);
    }
  }

  /** socksv5_done: every descriptor it touches is registered, and nothing but leaked registrations is left. */
  lemma FinishEnds(w: World, id: nat)
    requires Shape(w, id) && Terminal(w.c.state) && (w.c.originFd != -1 ==> Own(w.table, w.c.originFd, id))
    ensures Finish(w, id).Some? && Ended(Finish(w, id).value, id) && Frame(w, Finish(w, id).value, id)
    ensures Finish(w, id).value.c.state == w.c.state
  {
    hide FieldParsers.State.Valid, FieldParsers.WellFormed;
  }

  /**
   * An event that is due is one the current state has a handler for, and the handler runs on the
   * descriptor it expects.
   */
  lemma DueHandled(w: World, id: nat, key: int, event: Event)
    requires Sound(w, id) && Due(w, key, event) && (event != Block ==> Own(w.table, key, id))
    ensures key == w.c.clientFd || (key == w.c.originFd && Own(w.table, key, id))
    ensures key != w.c.clientFd ==> w.c.state == RequestConnecting || w.c.state == Copy
    ensures match event
      case Readable => w.c.state in {HelloRead, UserpassRead, RequestRead, Copy}
      case Writable => w.c.state in {HelloWrite, UserpassWrite, RequestConnecting, RequestWrite, Copy}
      case Block => w.c.state == RequestResolv
  {
  }

  /** What the rest of the invariant says about the two answers the handlers branch on. */
  predicate Answers(c: Conn, e: Env) {
    && (c.state == HelloWrite ==> c.hello.chosen in [0x00, 0x02, 0xFF])
    && (c.state == RequestRead ==> EatRequestIsConnect(c, e))
  }

  lemma HandleReady(w: World, id: nat, key: int, event: Event, e: Env)
    requires Sound(w, id) && Due(w, key, event) && (event != Block ==> Own(w.table, key, id))
    requires CallsBounded(w.c, key, event, e) && Answers(w.c, e) && !e.connect.AtOnce? && w.released.None?
    ensures var r := Handle(w, id, key, event, e);
      r.Some? && var (w', p) := r.value; Handled(w, w', id, p)
  {
    DueHandled(w, id, key, event);
    hide Shape, Apart, Armed, Ready;
    match event {
      case Readable =>
        match w.c.state {
          case HelloRead => HelloReadReady(w, id, key, e);
          case UserpassRead => UserpassReadReady(w, id, key, e);
          case RequestRead => RequestReadReady(w, id, key, e);
          case Copy => CopyReadReady(w, id, key, e);
        }
      case Writable =>
        match w.c.state {
          case HelloWrite => HelloWriteReady(w, id, key, e);
          case UserpassWrite => UserpassWriteReady(w, id, key, e);
          case RequestConnecting => ConnectingReady(w, id, key, e);
          case RequestWrite => RequestWriteReady(w, id, key, e);
          case Copy => CopyWriteReady(w, id, key, e);
        }
      case Block => ResolvedReady(w, id, key);
    }
  }

  /** The assumptions about a new descriptor still hold when it is opened. */
  lemma StillPlausible(w: World, w1: World, id: nat, e: Env)
    requires Plausible(w, e) && Frame(w, w1, id) && OpensNone(w, w1) && Shape(w1, id) && Early(w1.c)
    ensures Plausible(w1, e)
  {
  }

  lemma AdvanceSound(w: World, id: nat, key: int, event: Event, e: Env)
    requires Sound(w, id) && Due(w, key, event) && (event != Block ==> Own(w.table, key, id))
    requires Plausible(w, e) && CallsBounded(w.c, key, event, e) && Answers(w.c, e)
    requires !e.connect.AtOnce? && w.released.None?
    ensures var r := Advance(w, id, key, event, e);
      && r.Some? && Frame(w, r.value, id)
      && (if Terminal(r.value.c.state) then Ended(r.value, id) else Sound(r.value, id))
      && r.value.c.clientFd == w.c.clientFd && (!w.spawned ==> (r.value.spawned <==> r.value.c.state == RequestResolv))
  {
    hide FieldParsers.State.Valid, FieldParsers.WellFormed;
    hide Shape, Apart, Handle, Jump, Finish, Ended;
    DueHandled(w, id, key, event);
    HandleReady(w, id, key, event, e);
    hide Armed, Due;
    var (w1, p) := Handle(w, id, key, event, e).value;
    if p == RequestConnecting && w1.c.state != RequestConnecting {
      StillPlausible(w, w1, id, e);
    }
    hide Ready;
    JumpSound(w1, id, key, p, e);
    var w2 := Jump(w1, id, key, p, e).value;
    FrameTrans(w, w1, w2, id);
    if Terminal(p) {
      FinishEnds(w2, id);
      FinishCloses(w2, id);
      FrameTrans(w, w2, Finish(w2, id).value, id);
    }
  }

  lemma NotAtOnceSound(w: World, id: nat, key: int, event: Event, e: Env)
    requires Sound(w, id) && Due(w, key, event) && (event != Block ==> Own(w.table, key, id))
    requires Plausible(w, e) && CallsBounded(w.c, key, event, e) && Answers(First(w, e).c, e)
    requires !e.connect.AtOnce?
    ensures var r := Dispatch(w, id, key, event, e);
      && r.Some? && Frame(Idle(w), r.value, id)
      && (if Terminal(r.value.c.state) then Ended(r.value, id) else Sound(r.value, id))
      && r.value.c.clientFd == w.c.clientFd && (r.value.spawned <==> r.value.c.state == RequestResolv)
  {
    hide Shape, Apart, Armed, Advance, Ended;
    FirstSound(w, id, e);
    AdvanceSound(First(Idle(w), e), id, key, event, e);
  }

  lemma FinishCloses(w: World, id: nat)
    ensures Finish(w, id).Some? ==>
      var w' := Finish(w, id).value;
      OpensNone(w, w') && w'.spawned == w.spawned && w'.c.clientFd == w.c.clientFd
  {
    hide Release;
    if Release(w, id, w.c.clientFd).Some? {
      ReleaseCloses(w, id, w.c.clientFd);
      ReleaseCloses(Release(w, id, w.c.clientFd).value, id, w.c.originFd);
    }
  }

  lemma ReleaseCloses(w: World, id: nat, fd: int)
    ensures Release(w, id, fd).Some? ==>
      var w' := Release(w, id, fd).value;
      && OpensNone(w, w') && w'.spawned == w.spawned
      && w'.c.clientFd == w.c.clientFd && w'.c.originFd == w.c.originFd
  {
  }

  lemma IdleShape(w: World, id: nat)
    ensures Shape(Idle(w), id) == Shape(w, id)
  {
  }

  lemma FirstSound(w: World, id: nat, e: Env)
    requires Sound(w, id)
    ensures var w0 := First(Idle(w), e);
      && Sound(w0, id) && Frame(Idle(w), w0, id) && OpensNone(w, w0)
      && w0.table == w.table && w0.open == w.open && w0.c.clientFd == w.c.clientFd && w0.c.state == w.c.state
  {
    hide Shape, Apart;
    IdleShape(w, id);
    SameShape(Idle(w), First(Idle(w), e), id);
  }
}
