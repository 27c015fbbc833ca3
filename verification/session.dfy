/**
 * struct socks5 as the object its handlers update: the code of src/hello.c, src/authentication.c,
 * src/request.c, src/resolv.c, src/connecting.c, src/stm.c and src/socks5nio.c, statement by
 * statement, on the connection's own buffers and parsers, the process's selector, user registry
 * and counters. What each does to all of them is the function of module Connections.
 */
module Sessions {
  import opened Bytes
  import opened Buffers
  import opened Selectors
  import opened Connections
  import opened ConnectionInvariants
  import ClientWire
  import ConnectionTables
  import CopyHandlers
  import Dissectors
  import FieldParsers
  import Hellos
  import MetricsCounters
  import ProxySettings
  import Registries
  import Relays
  import RequestParsers

  /** What a handler leaves as it is. */
  datatype Layout = Layout(
    state: Phase,
    hello: Hellos.HelloParser?,
    auth: FieldParsers.FieldParser?,
    request: RequestParsers.RequestParser?,
    copier: CopyHandlers.Copier?,
    fds: array<Slot>,
    username: array<byte>,
    password: array<byte>)

  class Session {
    const id: nat
    const clientFd: int
    const readBuffer: Buffer
    const writeBuffer: Buffer
    // the structure; its parsers and its relay are made on arrival in the states that use them
    var current: Phase
    var started: bool
    var originFd: int
    var references: int
    var status: byte
    var resolution: Option<nat>
    var more: Option<nat>
    var hello: Hellos.HelloParser?
    var auth: FieldParsers.FieldParser?
    var request: RequestParsers.RequestParser?
    var authentication: byte
    var copier: CopyHandlers.Copier?
    // the process around it
    const selector: Selector
    const registry: Registries.Registry
    const metrics: MetricsCounters.Metrics
    const dissector: Dissectors.PasswordParser
    const settings: ProxySettings.Settings
    var open: map<int, nat>
    var spawned: bool
    var released: Option<int>
    ghost var log: Log

    // ----- The objects, and what they stand for -----

    /** The objects made for the states after the greeting, but for the substates of the credentials parser. */
    ghost function Gear(): set<object>
      reads `auth, `request, `copier
    {
      (if auth == null then {} else {auth as object})
      + (if request == null then {} else {request as object, request.v4, request.v6, request.host, request.port})
      + (if copier == null then {} else {copier.client as object, copier.orig})
    }

    ghost function Slots(): seq<FieldParsers.Substate>
      reads `auth
    {
      if auth == null then [] else auth.states
    }

    lemma GearHas()
      ensures auth != null ==> auth in Gear()
      ensures request != null ==> request in Gear() && request.v4 in Gear() && request.v6 in Gear()
      ensures request != null ==> request.host in Gear() && request.port in Gear()
      ensures copier != null ==> copier.client in Gear() && copier.orig in Gear()
    {
    }

    /** No two of the octet arrays are one. */
    ghost predicate Apart()
      reads `request, dissector`username, dissector`password
    {
      && readBuffer != writeBuffer && readBuffer.data != writeBuffer.data
      && {dissector.username, dissector.password} !! {readBuffer.data, writeBuffer.data}
      && (request != null ==>
            {request.v4, request.v6, request.host, request.port}
            !! {readBuffer.data, writeBuffer.data, dissector.username, dissector.password})
    }

    /** A state has the objects its handlers work on. */
    ghost predicate Equipped()
      reads `started, `current, `hello, `auth, `request, `copier
    {
      && (started ==> hello != null)
      && (current == UserpassRead ==> auth != null)
      && (current == RequestRead ==> request != null)
      && (current == Copy ==> copier != null)
      && (auth != null ==> auth.schema == ClientWire.AUTH)
      && (copier != null ==> current == Copy || Terminal(current))
    }

    /** The relay works on this connection's descriptors and buffers, and on the process's selector and counters. */
    ghost predicate Wired()
      reads `originFd, `copier, copier, if copier == null then {} else {copier.client, copier.orig}
    {
      copier != null ==>
        && copier.Wired() && copier.clientFd == clientFd && copier.originFd == originFd
        && copier.readBuffer == readBuffer && copier.writeBuffer == writeBuffer
        && copier.selector == selector && copier.metrics == metrics && copier.parser == dissector
        && copier.settings == settings
    }

    ghost predicate AuthOk()
      reads `auth, auth, if auth == null then [] else auth.states
    {
      auth != null ==> auth.Valid()
    }

    ghost predicate RequestOk()
      reads `request, request, if request == null then {} else {request.v4, request.v6, request.host, request.port}
    {
      request != null ==> request.Valid()
    }

    /** The process's own objects. */
    ghost predicate GlobalsOk()
      reads selector, selector.fds, registry, registry.users, metrics, dissector, dissector.username, dissector.password
    {
      selector.Valid() && selector.Full() && registry.Valid() && metrics.Valid() && dissector.Valid()
    }

    ghost predicate Valid()
      reads this, readBuffer, writeBuffer, auth, request, copier
      reads if auth == null then [] else auth.states
      reads if request == null then {} else {request.v4, request.v6, request.host, request.port}
      reads if copier == null then {} else {copier.client, copier.orig}
      reads selector, selector.fds, registry, registry.users, metrics, dissector, dissector.username, dissector.password
      ensures Valid() ==> readBuffer.Valid() && writeBuffer.Valid() && ParsersOk() && Equipped()
    {
      && Apart() && Equipped() && Wired() && readBuffer.Valid() && writeBuffer.Valid()
      && ParsersOk() && GlobalsOk()
    }

    ghost function HelloNow(): Hellos.Hello
      reads `hello, hello
    {
      if hello == null then Hellos.Start(Hellos.SOCKS_VERSION, 0) else hello.Value()
    }

    ghost function AuthNow(): FieldParsers.Parser
      requires AuthOk()
      reads `auth, auth, if auth == null then [] else auth.states
    {
      if auth == null then FieldParsers.EMPTY else auth.Value()
    }

    ghost function RequestNow(): RequestParsers.Parser
      requires RequestOk()
      reads `request, request, if request == null then {} else {request.v4, request.v6, request.host, request.port}
    {
      if request == null then RequestParsers.START else request.Value()
    }

    ghost predicate ParsersOk()
      reads `auth, auth, if auth == null then [] else auth.states
      reads `request, request, if request == null then {} else {request.v4, request.v6, request.host, request.port}
      ensures ParsersOk() ==> AuthOk() && RequestOk()
    {
      AuthOk() && RequestOk()
    }

    /** The three parsers. */
    ghost function Parsed(): (r: (Hellos.Hello, FieldParsers.Parser, RequestParsers.Parser))
      requires ParsersOk()
      reads `hello, hello, `auth, auth, if auth == null then [] else auth.states
      reads `request, request, if request == null then {} else {request.v4, request.v6, request.host, request.port}
      ensures r.0 == HelloNow() && r.1 == AuthNow() && r.2 == RequestNow()
    {
      (HelloNow(), AuthNow(), RequestNow())
    }

    ghost function Wants(): (Interest, Interest)
      reads `copier, if copier == null then {} else {copier.client, copier.orig}
    {
      if copier == null then (OP_NOOP, OP_NOOP) else (copier.client.interest, copier.orig.interest)
    }

    ghost function Value(): (w: World)
      requires ParsersOk() && readBuffer.Ordered() && writeBuffer.Ordered()
      reads this, readBuffer, readBuffer.data, writeBuffer, writeBuffer.data, hello, auth, request, selector`fds,
          selector.fds
      reads if auth == null then [] else auth.states
      reads if request == null then {} else {request.v4, request.v6, request.host, request.port}
      reads if copier == null then {} else {copier.client, copier.orig}
      ensures w.c.state == current && w.c.started == started && w.c.clientFd == clientFd && w.c.originFd == originFd
      ensures w.c.status == status && w.c.more == more && w.c.resolution == resolution
      ensures w.c.authentication == authentication && w.c.references == references && w.c.log == log
      ensures w.c.readBuffer == readBuffer.Value() && w.c.writeBuffer == writeBuffer.Value()
      ensures w.c.hello == HelloNow() && w.c.auth == AuthNow() && w.c.request == RequestNow()
      ensures w.table == selector.Table() && w.open == open
    {
      World(Conn(current, started, clientFd, originFd, references, status, resolution, more,
                 readBuffer.Value(), writeBuffer.Value(), Parsed().0, Parsed().1, Parsed().2, authentication,
                 Wants().0, Wants().1, log),
            selector.Table(), open, spawned, released)
    }

    /** The state, which only arrival changes, and all the objects. */
    ghost function Parts(): (p: Layout)
      reads this, selector`fds, dissector`username, dissector`password
      ensures p.fds == selector.fds && p.username == dissector.username && p.password == dissector.password
      ensures p.hello == hello && p.auth == auth && p.request == request && p.copier == copier && p.state == current
    {
      Layout(current, hello, auth, request, copier, selector.fds, dissector.username, dissector.password)
    }

    lemma ValidGives()
      requires Valid()
      ensures registry.Valid() && Apart()
    {
    }

    /** socks5_new, for a descriptor accept has just answered. */
    constructor (id: nat, clientFd: int, selector: Selector, registry: Registries.Registry,
                 metrics: MetricsCounters.Metrics, dissector: Dissectors.PasswordParser,
                 settings: ProxySettings.Settings, open: map<int, nat>)
      requires selector.Valid() && selector.Full() && registry.Valid() && metrics.Valid() && dissector.Valid()
      ensures Valid() && this.id == id && this.selector == selector && this.registry == registry
      ensures Value() == World(NewConn(clientFd), selector.Table(), open, false, None)
      ensures fresh(readBuffer) && fresh(readBuffer.data) && fresh(writeBuffer) && fresh(writeBuffer.data)
    {
      hide Selector.Valid, Selector.Table, FieldParsers.State.Valid, FieldParsers.WellFormed, Registries.Registry.Valid;
      hide MetricsCounters.Metrics.Valid, Dissectors.PasswordParser.Valid, Buffer.Valid, Buffer.Value, Buffer.Ordered;
      hide Selector.SlotsOk, Selector.Full, Session.Parts, CopyHandlers.Copier.Wired;
      hide RequestParsers.RequestParser.Valid;
      hide RequestParsers.RequestParser.Value, FieldParsers.FieldParser.Valid, FieldParsers.FieldParser.Value;
      hide Hellos.HelloParser.Value, Dissectors.PasswordParser.Value, Registries.Registry.Value;
      this.id, this.clientFd, this.selector, this.registry := id, clientFd, selector, registry;
      this.metrics, this.dissector, this.settings, this.open := metrics, dissector, settings, open;
      var forReading := NewBuffer();
      var forWriting := NewBuffer();
      readBuffer, writeBuffer := forReading, forWriting;
      current, started, originFd, references, status := HelloRead, false, -1, 1, 0;
      resolution, more, authentication, spawned, released := None, None, 0, false, None;
      hello, auth, request, copier := null, null, null, null;
      log := NOTHING;
      new;
      assert Wants() == (OP_NOOP, OP_NOOP) && ParsersOk();
      assert Parsed() == (Hellos.Start(Hellos.SOCKS_VERSION, 0), FieldParsers.EMPTY, RequestParsers.START);
    }

    // ----- Shared by the handlers -----

    /** selector_set_interest. */
    method SetInterestFd(fd: int, i: Interest) returns (ok: bool)
      requires Valid()
      modifies selector`masterR, selector`masterW, selector.fds
      ensures Valid() && Parts() == old(Parts())
      ensures Value() == Watch(old(Value()), fd, i) && ok == CanWatch(old(Value()), fd)
    {
      hide Buffer.Valid, Buffer.Value, Selector.Valid, Selector.Table, FieldParsers.State.Valid;
      hide Session.Wired, Session.AuthOk, Session.RequestOk;
      hide Session.HelloNow, Session.AuthNow, Session.RequestNow, Session.Wants, Session.Parsed, Session.ParsersOk;
      var st := selector.SetInterestFd(fd, i);
      ok := st == Success;
    }

    ghost method SetLog(l: Log)
      requires Valid()
      modifies this`log
      ensures Valid() && Parts() == old(Parts()) && Value() == old(Value()).(c := old(Value()).c.(log := l))
    {
      hide Buffer.Valid, Buffer.Value, Selector.Table, FieldParsers.State.Valid, Session.GlobalsOk;
      hide Session.Wired, Session.AuthOk, Session.RequestOk;
      hide Session.HelloNow, Session.AuthNow, Session.RequestNow, Session.Wants, Session.Parsed, Session.ParsersOk;
      log := l;
    }

    method FillWrite(chunk: seq<byte>)
      requires Valid() && |chunk| <= writeBuffer.Value().Room()
      modifies writeBuffer`write, writeBuffer.data
      ensures Valid() && Parts() == old(Parts())
      ensures var c := old(Value()).c; Value() == old(Value()).(c := c.(writeBuffer := c.writeBuffer.Push(chunk)))
    {
      hide Buffer.Valid, Buffer.Value, Fifo.Push, Fifo.Pop, Fifo.Room, Selector.Table, FieldParsers.State.Valid;
      hide Session.Wired, Session.AuthOk, Session.RequestOk, Session.GlobalsOk;
      hide Session.HelloNow, Session.AuthNow, Session.RequestNow, Session.Wants, Session.Parsed, Session.ParsersOk;
      writeBuffer.Append(chunk);
    }

    method FillRead(chunk: seq<byte>)
      requires Valid() && |chunk| <= readBuffer.Value().Room()
      modifies readBuffer`write, readBuffer.data
      ensures Valid() && Parts() == old(Parts())
      ensures var c := old(Value()).c; Value() == old(Value()).(c := c.(readBuffer := c.readBuffer.Push(chunk)))
    {
      hide Buffer.Valid, Buffer.Value, Fifo.Push, Fifo.Pop, Fifo.Room, Selector.Table, FieldParsers.State.Valid;
      hide Session.Wired, Session.AuthOk, Session.RequestOk, Session.GlobalsOk;
      hide Session.HelloNow, Session.AuthNow, Session.RequestNow, Session.Wants, Session.Parsed, Session.ParsersOk;
      readBuffer.Append(chunk);
    }

    method DrainWrite(n: nat)
      requires Valid() && n <= |writeBuffer.Value().contents|
      modifies writeBuffer`read, writeBuffer`write, writeBuffer.data
      ensures Valid() && Parts() == old(Parts())
      ensures var c := old(Value()).c; Value() == old(Value()).(c := c.(writeBuffer := c.writeBuffer.Pop(n)))
    {
      hide Buffer.Valid, Buffer.Value, Fifo.Push, Fifo.Pop, Fifo.Room, Selector.Table, FieldParsers.State.Valid;
      hide Session.Wired, Session.AuthOk, Session.RequestOk, Session.GlobalsOk;
      hide Session.HelloNow, Session.AuthNow, Session.RequestNow, Session.Wants, Session.Parsed, Session.ParsersOk;
      writeBuffer.ReadAdv(n);
    }

    /** A marshaller's octets, stored at the buffer's write pointer. */
    method Store(reply: seq<byte>)
      requires Valid() && |reply| <= writeBuffer.Value().Room()
      modifies writeBuffer`write, writeBuffer.data, this`log
      ensures Valid() && Parts() == old(Parts())
      ensures var c := old(Value()).c;
        Value() == old(Value()).(c := c.(writeBuffer := c.writeBuffer.Push(reply),
            log := c.log.(replies := c.log.replies + reply)))
    {
      hide Session.Value, Session.Valid, Session.Parts, Session.AuthOk, Session.RequestOk, Session.Equipped;
      hide Session.Wants;
      hide Session.HelloNow, Session.AuthNow, Session.RequestNow, Session.Parsed, Session.ParsersOk, Buffer.Value;
      hide Buffer.Valid;
      FillWrite(reply);
      SetLog(log.(replies := log.replies + reply));
    }

    /** hello_marshal, auth_reply and request_marshall differ in their octets only. */
    method MarshalReply(reply: seq<byte>) returns (n: int)
      requires Valid()
      modifies writeBuffer`write, writeBuffer.data, this`log
      ensures Valid() && Parts() == old(Parts())
      ensures Value() == old(Value()).(c := Marshal(old(Value()).c, reply))
      ensures n == if old(writeBuffer.Value().Room()) < |reply| then -1 else |reply|
    {
      hide Buffer.Value, Fifo.Push, Session.Value, Session.Valid, Session.Parts, Session.Equipped;
      hide Session.AuthOk, Session.RequestOk, Session.HelloNow, Session.AuthNow, Session.RequestNow, Session.Wants;
      var at, room := writeBuffer.WritePtr();
      if room < |reply| {
        return -1;
      }
      Store(reply);
      n := |reply|;
    }

    /** What recv put at the buffer's write pointer. */
    method Recv(chunk: seq<byte>)
      requires Valid() && |chunk| <= readBuffer.Value().Room()
      modifies readBuffer`write, readBuffer.data, this`log
      ensures Valid() && Parts() == old(Parts())
      ensures Value() == old(Value()).(c := Received(old(Value()).c, chunk))
    {
      hide Session.Value, Session.Valid, Session.Parts, Session.AuthOk, Session.RequestOk, Session.Equipped;
      hide Session.Wants;
      hide Session.HelloNow, Session.AuthNow, Session.RequestNow, Session.Parsed, Session.ParsersOk, Buffer.Value;
      hide Buffer.Valid;
      FillRead(chunk);
      SetLog(log.(received := log.received + chunk));
    }

    /** What send took from the buffer's read pointer, and whether that leaves anything. */
    method Send(n: nat) returns (left: bool)
      requires Valid() && n <= |writeBuffer.Value().contents|
      modifies writeBuffer`read, writeBuffer`write, writeBuffer.data, this`log
      ensures Valid() && Parts() == old(Parts())
      ensures Value() == old(Value()).(c := Sent(old(Value()).c, n)) && left == !Drained(Value().c)
    {
      hide Session.Value, Session.Valid, Session.Parts, Session.AuthOk, Session.RequestOk, Session.Equipped;
      hide Session.Wants;
      hide Session.HelloNow, Session.AuthNow, Session.RequestNow, Session.Parsed, Session.ParsersOk, Buffer.Value;
      hide Buffer.Valid;
      ghost var c := Value().c;
      DrainWrite(n);
      SetLog(c.log.(sent := c.log.sent + c.writeBuffer.contents[..n]));
      left := writeBuffer.CanRead();
    }

    /** error_handler. */
    method HandleError(key: int, s: byte) returns (ret: Phase)
      requires Valid()
      modifies this, writeBuffer, writeBuffer.data, selector, selector.fds
      ensures Valid() && Parts() == old(Parts())
      ensures Value() == ErrorHandler(old(Value()), key, s) && ret == RequestWrite
    {
      hide Session.Value, Session.Valid, Session.Parts, Session.AuthOk, Session.RequestOk, Session.Equipped;
      hide Buffer.Value;
      hide Marshal;
      var n := MarshalReply(Reply(s));
      var ok := SetInterestFd(key, OP_WRITE);
      ret := RequestWrite;
    }

    /** error_handler_to_client. */
    method HandleErrorToClient(s: byte) returns (ret: Phase)
      requires Valid()
      modifies this, writeBuffer, writeBuffer.data, selector, selector.fds
      ensures Valid() && Parts() == old(Parts())
      ensures Value() == ErrorToClient(old(Value()), s) && ret == RequestWrite
    {
      hide Session.Value, Session.Valid, Session.Parts, Session.AuthOk, Session.RequestOk, Session.Equipped;
      hide Buffer.Value;
      var n := MarshalReply(Reply(s));
      var ok := SetInterestFd(clientFd, OP_WRITE);
      if originFd != -1 {
        ok := SetInterestFd(originFd, OP_NOOP);
      }
      ret := RequestWrite;
    }

    // ----- src/hello.c -----

    method FeedHello() returns (st: Hellos.Phase, error: bool)
      requires Valid() && hello != null
      modifies hello, readBuffer, readBuffer.data
      ensures Valid() && Parts() == old(Parts()) && st == Value().c.hello.phase
      ensures var w := old(Value());
        var r := Hellos.Take(w.c.hello, w.c.readBuffer.contents);
        && Value() == w.(c := w.c.(hello := r.0, readBuffer := w.c.readBuffer.Pop(r.1)))
        && (error <==> r.1 > 0 && st == Hellos.UnsupportedVersion)
    {
      hide Buffer.Valid, Buffer.Value, Fifo.Push, Fifo.Pop, Fifo.Room, Selector.Table, FieldParsers.State.Valid;
      hide Session.Wired, Session.AuthOk, Session.RequestOk, Session.GlobalsOk, Hellos.Take;
      hide Session.AuthNow, Session.RequestNow, Session.Wants, Session.ParsersOk;
      st, error := hello.ConsumeFrom(readBuffer);
    }

    /** hello_consume on the connection's own buffer. */
    method ConsumeHello() returns (st: Hellos.Phase, error: bool)
      requires Valid() && hello != null && readBuffer.Value().contents != []
      modifies hello, readBuffer, readBuffer.data, this`log
      ensures Valid() && Parts() == old(Parts())
      ensures Value() == old(Value()).(c := EatHello(old(Value()).c)) && st == Value().c.hello.phase
      ensures error == (st == Hellos.UnsupportedVersion)
    {
      hide Session.Value, Session.Valid, Session.Parts, Session.AuthOk, Session.RequestOk, Session.Equipped;
      hide Session.Wants;
      hide Session.HelloNow, Session.AuthNow, Session.RequestNow, Session.Parsed, Session.ParsersOk, Buffer.Value;
      hide Buffer.Valid;
      ghost var c := Value().c;
      ghost var taken := Hellos.Take(c.hello, c.readBuffer.contents).1;
      st, error := FeedHello();
      SetLog(c.log.(eatenHello := c.log.eatenHello + c.readBuffer.contents[..taken]));
    }

    method ReadHello(key: int, e: Env) returns (ret: Phase)
      requires Valid() && started
      requires e.received.Some? ==> 0 < |e.received.value| <= readBuffer.Value().Room()
      modifies this, hello, readBuffer, readBuffer.data, writeBuffer, writeBuffer.data, selector, selector.fds
      ensures Valid() && Parts() == old(Parts())
      ensures Value() == OnHelloRead(old(Value()), key, e).0 && ret == OnHelloRead(old(Value()), key, e).1
    {
      hide Session.Value, Session.Valid, Session.Parts, Session.AuthOk, Session.RequestOk, Buffer.Value, Fifo.Room;
      hide EatHello, Marshal;
      ret := HelloRead;
      var error := false;
      if e.received.Some? {
        Recv(e.received.value);
        var st;
        st, error := ConsumeHello();
        if st == Hellos.Done || st == Hellos.UnsupportedVersion {
          var ok := SetInterestFd(key, OP_WRITE);
          if ok {
            var n := MarshalReply([Hellos.SOCKS_VERSION, hello.chosen]);
            ret := if n == -1 then Error else HelloWrite;
          } else {
            ret := Error;
          }
        }
      } else {
        ret := Error;
      }
      ret := if error then Error else ret;
    }

    method WriteHello(key: int, e: Env) returns (ret: Phase)
      requires Valid() && started
      requires e.sent.Some? ==> e.sent.value <= |writeBuffer.Value().contents|
      modifies this, writeBuffer, writeBuffer.data, selector, selector.fds
      ensures Valid() && Parts() == old(Parts())
      ensures Value() == OnHelloWrite(old(Value()), key, e).0 && ret == OnHelloWrite(old(Value()), key, e).1
    {
      hide Session.Value, Session.Valid, Session.Parts, Session.AuthOk, Session.RequestOk, Buffer.Value, Sent;
      hide Session.AuthNow, Session.RequestNow, Session.Wants, Buffer.Valid, Buffer.Ordered;
      ret := HelloWrite;
      if e.sent.None? {
        return Error;
      }
      var left := Send(e.sent.value);
      if !left {
        if hello.chosen == Hellos.NO_ACCEPTABLE_METHODS {
          return Done;
        }
        var ok := SetInterestFd(key, OP_READ);
        if ok {
          if hello.chosen == Hellos.NO_AUTHENTICATION {
            ret := RequestRead;
          }
          if hello.chosen == Hellos.USERNAME_PASSWORD {
            ret := UserpassRead;
          }
        } else {
          ret := Error;
        }
      }
    }

    // ----- src/authentication.c -----

    method FeedAuth() returns (st: FieldParsers.Phase, error: bool)
      requires Valid() && auth != null && readBuffer.Value().contents != []
      modifies auth, auth.states, readBuffer, readBuffer.data
      ensures Valid() && Parts() == old(Parts())
      ensures st == Value().c.auth.phase && error == (st == FieldParsers.Phase.Error)
      ensures var w := old(Value());
        var r := FieldParsers.Take(w.c.auth, w.c.readBuffer.contents);
        Value() == w.(c := w.c.(auth := r.0, readBuffer := w.c.readBuffer.Pop(r.1)))
    {
      hide Buffer.Valid, Buffer.Value, Fifo.Push, Fifo.Pop, Fifo.Room, Selector.Table, FieldParsers.State.Valid;
      hide Session.Wired, Session.RequestOk, Session.GlobalsOk, FieldParsers.WellFormed;
      hide Session.HelloNow, Session.RequestNow, Session.Wants;
      hide FieldParsers.FieldParser.Valid, FieldParsers.FieldParser.Value, FieldParsers.Take;
      TakesSome(auth.Value(), readBuffer.Value().contents);
      st, error := auth.ConsumeFrom(readBuffer);
    }

    /** consume on the connection's own buffer. */
    method ConsumeAuth() returns (st: FieldParsers.Phase, error: bool)
      requires Valid() && auth != null && readBuffer.Value().contents != []
      modifies auth, auth.states, readBuffer, readBuffer.data, this`log
      ensures Valid() && Parts() == old(Parts())
      ensures Value() == old(Value()).(c := EatAuth(old(Value()).c))
      ensures st == Value().c.auth.phase && error == (st == FieldParsers.Phase.Error)
    {
      hide Session.Value, Session.Valid, Session.Parts, Session.AuthOk, Session.RequestOk, Session.Equipped;
      hide Session.Wants;
      hide Session.HelloNow, Session.AuthNow, Session.RequestNow, Session.Parsed, Session.ParsersOk, Buffer.Value;
      hide Buffer.Valid;
      hide FieldParsers.Take, FieldParsers.State.Valid, FieldParsers.WellFormed;
      ghost var c := Value().c;
      ghost var taken := FieldParsers.Take(c.auth, c.readBuffer.contents).1;
      st, error := FeedAuth();
      SetLog(c.log.(eatenAuth := c.log.eatenAuth + c.readBuffer.contents[..taken]));
    }

    /** The lookup of auth_process, on the blocks that the parser's substates point to. */
    method LookUp() returns (answer: byte)
      requires Valid() && auth != null && Value().c.auth.phase == FieldParsers.Phase.Done
      ensures answer == CheckCredentials(Value().c, registry.Value()).authentication
    {
      hide Session.Value, Session.Valid, Session.Parts, Session.RequestOk;
      hide Session.HelloNow, Session.RequestNow, Session.Wants, Registries.Registry.Value, Registries.Check, CString;
      hide FieldParsers.FieldParser.Value, FieldParsers.FieldParser.Valid, Buffer.Valid, Username, Password;
      hide FieldParsers.State.Valid, FieldParsers.WellFormed, Registries.Registry.Valid, Session.GlobalsOk;
      ValidGives();
      FieldsHeld(auth);
      var userIndex;
      answer, userIndex := registry.CheckCredentials(auth.states[2].result, auth.states[4].result);
    }

    /** auth_process, on a parser that has read a whole message. */
    method ProcessAuth(ghost users: seq<Registries.User>) returns (ret: Phase)
      requires Valid() && auth != null && Value().c.auth.phase == FieldParsers.Phase.Done && users == registry.Value()
      modifies this`authentication, this`log, metrics`historicAuthAttempts
      ensures Valid() && Parts() == old(Parts())
      ensures Value() == old(Value()).(c := CheckCredentials(old(Value()).c, users)) && ret == UserpassWrite
      ensures metrics.historicAuthAttempts == old(metrics.historicAuthAttempts) + 1
    {
      hide Session.Value, Session.Valid, Session.Parts, Session.AuthOk, Session.RequestOk, Session.Equipped;
      hide Session.Wants;
      hide Session.HelloNow, Session.AuthNow, Session.RequestNow, Session.Parsed, Session.ParsersOk, Buffer.Value;
      hide Buffer.Valid;
      hide CheckCredentials, Registries.Registry.Value, Registries.Registry.Valid, FieldParsers.State.Valid;
      hide FieldParsers.FieldParser.Valid, FieldParsers.FieldParser.Value, FieldParsers.WellFormed;
      ValidGives();
      Checked(Value().c, users);
      var answer := LookUp();
      Answer(answer, users);
      CountAuthentication();
      ret := UserpassWrite;
    }

    /** The outcome of a lookup, noted with the users it was made over. */
    method Answer(status: byte, ghost users: seq<Registries.User>)
      requires Valid()
      modifies this`authentication, this`log
      ensures Valid() && Parts() == old(Parts())
      ensures var c := old(Value()).c;
        Value() == old(Value()).(c := c.(authentication := status, log := c.log.(checkedOver := users)))
    {
      hide Buffer.Valid, Buffer.Value, Selector.Table, FieldParsers.State.Valid;
      hide Session.Wired, Session.AuthOk, Session.RequestOk, Session.GlobalsOk;
      hide Session.HelloNow, Session.AuthNow, Session.RequestNow, Session.Wants, Session.Parsed, Session.ParsersOk;
      authentication := status;
      log := log.(checkedOver := users);
    }

    method ReadUserpass(key: int, e: Env) returns (ret: Phase)
      requires Valid() && auth != null && e.users == registry.Value()
      requires e.received.Some? ==> 0 < |e.received.value| <= readBuffer.Value().Room()
      modifies this, auth, auth.states
      modifies readBuffer, readBuffer.data, selector, selector.fds, metrics`historicAuthAttempts
      ensures Valid() && Parts() == old(Parts())
      ensures Value() == OnUserpassRead(old(Value()), key, e).0 && ret == OnUserpassRead(old(Value()), key, e).1
    {
      hide Session.Value, Session.Valid, Session.Parts, Session.AuthOk, Session.RequestOk, Buffer.Value;
      hide Session.Equipped;
      hide Session.HelloNow, Session.AuthNow, Session.RequestNow, Session.Wants, Buffer.Valid, Buffer.Ordered;
      hide EatAuth, CheckCredentials, Fifo.Room, Registries.Registry.Value, FieldParsers.State.Valid, Session.GlobalsOk;
      hide FieldParsers.WellFormed, Registries.Registry.Valid, FieldParsers.FieldParser.Valid;
      hide FieldParsers.FieldParser.Value;
      ret := UserpassRead;
      var error := false;
      if e.received.Some? {
        var st;
        st, error := TakeUserpass(e.received.value);
        if st == FieldParsers.Phase.Done || st == FieldParsers.Phase.Error {
          ret := EndUserpass(key, error, e.users);
        }
      } else {
        ret := Error;
      }
      ret := if error then Error else ret;
    }

    /** recv and consume. */
    method TakeUserpass(chunk: seq<byte>) returns (st: FieldParsers.Phase, error: bool)
      requires Valid() && auth != null && 0 < |chunk| <= readBuffer.Value().Room()
      modifies auth, auth.states, readBuffer, readBuffer.data, this`log
      ensures Valid() && Parts() == old(Parts())
      ensures Value() == old(Value()).(c := EatAuth(Received(old(Value()).c, chunk)))
      ensures st == Value().c.auth.phase && error == (st == FieldParsers.Phase.Error)
    {
      hide Session.Value, Session.Valid, Session.Parts, Session.AuthOk, Session.RequestOk, Buffer.Value;
      hide Session.Equipped;
      hide Session.HelloNow, Session.AuthNow, Session.RequestNow, Session.Wants, Buffer.Valid, Buffer.Ordered;
      hide EatAuth, Fifo.Room, FieldParsers.State.Valid, FieldParsers.WellFormed, FieldParsers.FieldParser.Valid;
      Recv(chunk);
      st, error := ConsumeAuth();
    }

    /** The end of the credentials, for better or worse. */
    method EndUserpass(key: int, error: bool, ghost users: seq<Registries.User>) returns (ret: Phase)
      requires Valid() && auth != null && FieldParsers.IsDone(Value().c.auth) && users == registry.Value()
      requires error == (Value().c.auth.phase == FieldParsers.Phase.Error)
      modifies this`authentication, this`log, selector, selector.fds, metrics`historicAuthAttempts
      ensures Valid() && Parts() == old(Parts())
      ensures var w := old(Value());
        && Value() == (if CanWatch(w, key) && !error then
                         Watch(w, key, OP_WRITE).(c := CheckCredentials(w.c, users))
                       else Watch(w, key, OP_WRITE))
        && ret == if CanWatch(w, key) then (if error then UserpassRead else UserpassWrite) else Error
      ensures metrics.historicAuthAttempts
           == old(metrics.historicAuthAttempts) + if CanWatch(old(Value()), key) then 1 else 0
    {
      hide Session.Value, Session.Valid, Session.Parts, Session.AuthOk, Session.RequestOk, Buffer.Value;
      hide Session.Equipped;
      hide Session.HelloNow, Session.AuthNow, Session.RequestNow, Session.Wants, Buffer.Valid, Buffer.Ordered;
      hide CheckCredentials, Registries.Registry.Value, FieldParsers.State.Valid, Session.GlobalsOk;
      hide FieldParsers.WellFormed, Registries.Registry.Valid, FieldParsers.FieldParser.Valid;
      hide FieldParsers.FieldParser.Value;
      ret := UserpassRead;
      var ok := SetInterestFd(key, OP_WRITE);
      if ok {
        if error {
          CountAuthentication();
        } else {
          ret := ProcessAuth(users);
        }
      } else {
        ret := Error;
      }
    }

    method WriteUserpass(key: int, e: Env) returns (ret: Phase)
      requires Valid() && (e.sent.Some? ==> e.sent.value <= |WithAuthReply(Value().c).writeBuffer.contents|)
      modifies this, writeBuffer, writeBuffer.data, selector, selector.fds
      ensures Valid() && Parts() == old(Parts())
      ensures Value() == OnUserpassWrite(old(Value()), key, e).0 && ret == OnUserpassWrite(old(Value()), key, e).1
    {
      hide Session.Value, Session.Valid, Session.Parts, Session.AuthOk, Session.RequestOk, Session.Equipped;
      hide Session.Wants;
      hide Session.HelloNow, Session.AuthNow, Session.RequestNow, Session.Parsed, Session.ParsersOk, Buffer.Value;
      hide Buffer.Valid;
      hide Sent, WithAuthReply, FieldParsers.State.Valid;
      ret := UserpassWrite;
      AppendAnswer();
      if e.sent.None? {
        ret := Error;
      } else {
        var left := Send(e.sent.value);
        if !left {
          ret := AnswerSent(key);
        }
      }
    }

    /** auth_reply, on every call. */
    method AppendAnswer()
      requires Valid()
      modifies writeBuffer`write, writeBuffer.data, this`log
      ensures Valid() && Parts() == old(Parts())
      ensures Value() == old(Value()).(c := WithAuthReply(old(Value()).c))
    {
      hide Session.Value, Session.Valid, Session.Parts, Session.AuthOk, Session.RequestOk, Session.Equipped;
      hide Session.Wants;
      hide Session.HelloNow, Session.AuthNow, Session.RequestNow, Session.Parsed, Session.ParsersOk, Buffer.Value;
      hide Buffer.Valid;
      hide Marshal;
      var n := MarshalReply([ClientWire.USERPASS_VERSION, authentication]);
    }

    /** auth_write, once the answer is out. */
    method AnswerSent(key: int) returns (ret: Phase)
      requires Valid()
      modifies selector`masterR, selector`masterW, selector.fds
      ensures Valid() && Parts() == old(Parts())
      ensures var w := old(Value());
        && Value() == (if w.c.authentication != 0x00 then w else Watch(w, key, OP_READ))
        && ret == if w.c.authentication != 0x00 then Done else if CanWatch(w, key) then RequestRead else Error
    {
      hide Session.Value, Session.Valid, Session.Parts, Session.AuthOk, Session.RequestOk, Session.Equipped;
      hide Session.Wants;
      hide Session.HelloNow, Session.AuthNow, Session.RequestNow, Session.Parsed, Session.ParsersOk, Buffer.Value;
      hide Buffer.Valid;
      if authentication != 0x00 {
        return Done;
      }
      var ok := SetInterestFd(key, OP_READ);
      ret := if ok then RequestRead else Error;
    }

    // ----- src/request.c and src/resolv.c -----

    method FeedRequest()
      requires Valid() && request != null
      modifies request, request.v4, request.v6, request.host, request.port, readBuffer, readBuffer.data
      ensures Valid() && Parts() == old(Parts())
      ensures var w := old(Value());
        var r := RequestParsers.Take(w.c.request, w.c.readBuffer.contents);
        Value() == w.(c := w.c.(request := r.0, readBuffer := w.c.readBuffer.Pop(r.1)))
    {
      hide Buffer.Valid, Buffer.Value, Fifo.Push, Fifo.Pop, Fifo.Room, Selector.Table, FieldParsers.State.Valid;
      hide Session.Wired, Session.AuthOk, Session.GlobalsOk;
      hide Session.HelloNow, Session.AuthNow, Session.Wants;
      hide RequestParsers.RequestParser.Valid, RequestParsers.RequestParser.Value, RequestParsers.Take;
      request.ConsumeFrom(readBuffer);
    }

    /** request_consume on the connection's own buffer. */
    method ConsumeRequest()
      requires Valid() && request != null
      modifies request, request.v4, request.v6, request.host, request.port, readBuffer, readBuffer.data, this`log
      ensures Valid() && Parts() == old(Parts())
      ensures Value() == old(Value()).(c := EatRequest(old(Value()).c))
    {
      hide Session.Value, Session.Valid, Session.Parts, Session.AuthOk, Session.RequestOk, Session.Equipped;
      hide Session.Wants;
      hide Session.HelloNow, Session.AuthNow, Session.RequestNow, Session.Parsed, Session.ParsersOk, Buffer.Value;
      hide Buffer.Valid;
      ghost var c := Value().c;
      ghost var taken := RequestParsers.Take(c.request, c.readBuffer.contents).1;
      FeedRequest();
      SetLog(c.log.(eatenRequest := c.log.eatenRequest + c.readBuffer.contents[..taken]));
    }

    /** What the finished parser holds is read off the object. */
    method ReadRequest(key: int, e: Env) returns (ret: Phase)
      requires Valid() && request != null
      requires e.received.Some? ==> 0 < |e.received.value| <= readBuffer.Value().Room()
      modifies this, request, request.v4, request.v6, request.host, request.port
      modifies readBuffer, readBuffer.data, writeBuffer, writeBuffer.data, selector, selector.fds
      ensures Valid() && Parts() == old(Parts())
      ensures Value() == OnRequestRead(old(Value()), key, e).0 && ret == OnRequestRead(old(Value()), key, e).1
    {
      hide Session.Value, Session.Valid, Session.Parts, Session.AuthOk, Buffer.Value, Session.Equipped;
      hide Session.HelloNow, Session.AuthNow, Session.Wants, Buffer.Valid, Buffer.Ordered;
      hide EatRequest, Process, Fifo.Room, RequestParsers.RequestParser.Valid;
      ret := RequestRead;
      if e.received.Some? {
        Recv(e.received.value);
        ConsumeRequest();
        if request.state == RequestParsers.Done {
          ret := ProcessRequest(key);
        }
      } else {
        ret := Error;
      }
    }

    /** request_process; the thread is only noted, since it runs elsewhere. */
    method ProcessRequest(key: int) returns (ret: Phase)
      requires Valid() && request != null
      modifies this, writeBuffer, writeBuffer.data, selector, selector.fds
      ensures Valid() && Parts() == old(Parts())
      ensures Value() == Process(old(Value()), key).0 && ret == Process(old(Value()), key).1
    {
      hide Session.Value, Session.Valid, Session.Parts, Session.AuthOk, Buffer.Value, Session.Equipped;
      hide Session.HelloNow, Session.AuthNow, Session.Wants, Buffer.Valid, Buffer.Ordered;
      hide ErrorHandler, RequestParsers.RequestParser.Valid;
      if request.cmd != RequestParsers.CMD_CONNECT {
        ret := HandleError(key, COMMAND_NOT_SUPPORTED);
        return;
      }
      if request.atyp == RequestParsers.ATYP_IPV4 {
        ret := RequestConnecting;
      } else if request.atyp == RequestParsers.ATYP_IPV6 {
        ret := RequestConnecting;
      } else if request.atyp == RequestParsers.ATYP_DOMAIN {
        Spawn();
        ret := RequestResolv;
        var ok := SetInterestFd(key, OP_NOOP);
      } else {
        ret := HandleError(key, ADDRESS_TYPE_NOT_SUPPORTED);
      }
    }

    method Spawn()
      requires Valid()
      modifies this`spawned
      ensures Valid() && Parts() == old(Parts()) && Value() == old(Value()).(spawned := true)
    {
      hide Buffer.Valid, Buffer.Value, Selector.Table, FieldParsers.State.Valid, Session.GlobalsOk;
      hide Session.Wired, Session.AuthOk, Session.RequestOk;
      hide Session.HelloNow, Session.AuthNow, Session.RequestNow, Session.Wants, Session.Parsed, Session.ParsersOk;
      spawned := true;
    }

    /** request_resolv_done. */
    method ResolveDone(key: int) returns (ret: Phase)
      requires Valid()
      modifies this, writeBuffer, writeBuffer.data, selector, selector.fds
      ensures Valid() && Parts() == old(Parts())
      ensures Value() == OnResolved(old(Value()), key).0 && ret == OnResolved(old(Value()), key).1
    {
      hide Session.Value, Session.Valid, Session.Parts, Session.AuthOk, Session.RequestOk, Buffer.Value;
      hide Session.Equipped;
      hide Session.HelloNow, Session.AuthNow, Session.RequestNow, Session.Wants, Buffer.Valid, Buffer.Ordered;
      hide ErrorHandler;
      if resolution.None? {
        SetStatus(GENERAL_FAILURE);
        ret := HandleError(key, GENERAL_FAILURE);
        return;
      }
      SetCursor(resolution);
      ret := RequestConnecting;
    }

    method SetStatus(s: byte)
      requires Valid()
      modifies this`status
      ensures Valid() && Parts() == old(Parts()) && Value() == WithStatus(old(Value()), s)
    {
      hide Buffer.Valid, Buffer.Value, Selector.Table, FieldParsers.State.Valid, Session.GlobalsOk;
      hide Session.Wired, Session.AuthOk, Session.RequestOk;
      hide Session.HelloNow, Session.AuthNow, Session.RequestNow, Session.Wants, Session.Parsed, Session.ParsersOk;
      status := s;
    }

    method SetCursor(cursor: Option<nat>)
      requires Valid()
      modifies this`more
      ensures Valid() && Parts() == old(Parts())
      ensures Value() == old(Value()).(c := old(Value()).c.(more := cursor))
    {
      hide Buffer.Valid, Buffer.Value, Selector.Table, FieldParsers.State.Valid, Session.GlobalsOk;
      hide Session.Wired, Session.AuthOk, Session.RequestOk;
      hide Session.HelloNow, Session.AuthNow, Session.RequestNow, Session.Wants, Session.Parsed, Session.ParsersOk;
      more := cursor;
    }

    method WriteRequest(key: int, e: Env) returns (ret: Phase)
      requires Valid() && (e.sent.Some? ==> e.sent.value <= |writeBuffer.Value().contents|)
      modifies this, writeBuffer, writeBuffer.data, selector, selector.fds
      ensures Valid() && Parts() == old(Parts())
      ensures Value() == OnRequestWrite(old(Value()), key, e).0 && ret == OnRequestWrite(old(Value()), key, e).1
    {
      hide Session.Value, Session.Valid, Session.Parts, Session.AuthOk, Session.RequestOk, Buffer.Value;
      hide Session.Equipped;
      hide Session.HelloNow, Session.AuthNow, Session.RequestNow, Session.Wants, Buffer.Valid, Buffer.Ordered;
      hide Sent;
      ret := RequestWrite;
      if e.sent.None? {
        ret := Error;
      } else {
        var left := Send(e.sent.value);
        if !left {
          ret := ReplySent();
        }
      }
    }

    /** request_write, once the reply is out. */
    method ReplySent() returns (ret: Phase)
      requires Valid()
      modifies selector`masterR, selector`masterW, selector.fds
      ensures Valid() && Parts() == old(Parts())
      ensures var w := old(Value());
        && Value() == (if w.c.status == 0x00 then Watch(Watch(w, w.c.clientFd, OP_READ), w.c.originFd, OP_READ)
                       else Watch(w, w.c.clientFd, OP_NOOP))
        && ret == if w.c.status == 0x00 then Copy else Done
    {
      hide Session.Value, Session.Valid, Session.Parts, Session.AuthOk, Session.RequestOk, Buffer.Value;
      hide Session.Equipped;
      hide Session.HelloNow, Session.AuthNow, Session.RequestNow, Session.Wants, Buffer.Valid, Buffer.Ordered;
      if status == 0x00 {
        ret := Copy;
        var ok := SetInterestFd(clientFd, OP_READ);
        ok := SetInterestFd(originFd, OP_READ);
      } else {
        ret := Done;
        var ok := SetInterestFd(clientFd, OP_NOOP);
        if originFd == -1 {
          ok := SetInterestFd(originFd, OP_NOOP);
        }
      }
    }

    // ----- src/socks5nio.c: references -----

    /** socks5_destroy; giving the structure back is Pools.FreeList.Destroy. */
    method DropReference()
      requires Valid()
      modifies this`references, this`log
      ensures Valid() && Parts() == old(Parts())
      ensures Value() == old(Value()).(c := Destroy(old(Value()).c))
    {
      hide Buffer.Valid, Buffer.Value, Selector.Table, FieldParsers.State.Valid, Session.GlobalsOk;
      hide Session.Wired, Session.AuthOk, Session.RequestOk;
      hide Session.HelloNow, Session.AuthNow, Session.RequestNow, Session.Wants, Session.Parsed, Session.ParsersOk;
      if references == 1 {
        log := log.(frees := log.frees + 1);
      } else {
        references := references - 1;
      }
    }

    /** The item of a descriptor leaves the table; what its close handler is given. */
    method Vacate(fd: int) returns (closed: Option<Item>)
      requires Valid()
      modifies selector`maxFd, selector`masterR, selector`masterW, selector.fds
      ensures Valid() && Parts() == old(Parts())
      ensures var w := old(Value());
        && Value() == w.(table := Unregister(w.table, fd).1)
        && closed == if CanWatch(w, fd) then Some(w.table[fd]) else None
    {
      hide Buffer.Valid, Buffer.Value, Selector.Valid, Selector.Table, FieldParsers.State.Valid;
      hide Session.Wired, Session.AuthOk, Session.RequestOk;
      hide Session.HelloNow, Session.AuthNow, Session.RequestNow, Session.Wants, Session.Parsed, Session.ParsersOk;
      var st;
      st, closed := selector.UnregisterFd(fd);
    }

    method NoteReleased(fd: int)
      requires Valid()
      modifies this`released
      ensures Valid() && Parts() == old(Parts()) && Value() == old(Value()).(released := Some(fd))
    {
      hide Buffer.Valid, Buffer.Value, Selector.Table, FieldParsers.State.Valid, Session.GlobalsOk;
      hide Session.Wired, Session.AuthOk, Session.RequestOk;
      hide Session.HelloNow, Session.AuthNow, Session.RequestNow, Session.Wants, Session.Parsed, Session.ParsersOk;
      released := Some(fd);
    }

    /**
     * selector_unregister_fd, with the item's close handler: the reference dropped is that of the
     * connection the item is for.
     */
    method UnregisterFd(fd: int) returns (ok: bool)
      requires Valid()
      modifies this`references, this`log, this`released
      modifies selector`maxFd, selector`masterR, selector`masterW, selector.fds
      ensures Valid() && Parts() == old(Parts())
      ensures Value() == Drop(old(Value()), id, fd) && ok == CanWatch(old(Value()), fd)
    {
      hide Session.Value, Session.Valid, Session.Parts, Session.AuthOk, Session.RequestOk, Buffer.Value;
      hide Session.Equipped;
      hide Session.HelloNow, Session.AuthNow, Session.RequestNow, Session.Wants, Buffer.Valid, Buffer.Ordered;
      hide Destroy, Selector.Table;
      var closed := Vacate(fd);
      ok := closed.Some?;
      if ok {
        if closed.value.data == id {
          DropReference();
        } else {
          NoteReleased(fd);
        }
      }
    }

    method SetOpen(nowOpen: map<int, nat>)
      requires Valid()
      modifies this`open
      ensures Valid() && Parts() == old(Parts()) && Value() == old(Value()).(open := nowOpen)
    {
      hide Buffer.Valid, Buffer.Value, Selector.Table, FieldParsers.State.Valid, Session.GlobalsOk;
      hide Session.Wired, Session.AuthOk, Session.RequestOk;
      hide Session.HelloNow, Session.AuthNow, Session.RequestNow, Session.Wants, Session.Parsed, Session.ParsersOk;
      open := nowOpen;
    }

    /** close. */
    method CloseFd(fd: int)
      requires Valid()
      modifies this`open, this`log
      ensures Valid() && Parts() == old(Parts())
      ensures Value() == Close(old(Value()), id, fd)
    {
      hide Session.Value, Session.Valid, Session.Parts, Session.AuthOk, Session.RequestOk, Buffer.Value;
      hide Session.Equipped;
      hide Session.HelloNow, Session.AuthNow, Session.RequestNow, Session.Wants, Buffer.Valid, Buffer.Ordered;
      ghost var leaks := Own(Value().table, fd, id);
      SetOpen(open - {fd});
      SetLog(if leaks then log.(leaked := log.leaked + {fd}) else log);
    }

    // ----- src/connecting.c -----

    /** The counters of the process have no part in the connection. */
    method CountAttempt()
      requires Valid()
      modifies metrics`historicConnectionsAttempts
      ensures Valid() && Parts() == old(Parts()) && Value() == old(Value())
      ensures metrics.historicConnectionsAttempts == old(metrics.historicConnectionsAttempts) + 1
    {
      hide Session.Value, Session.Parts, Buffer.Valid, Selector.Valid, Registries.Registry.Valid;
      hide Dissectors.PasswordParser.Valid, FieldParsers.State.Valid, Session.AuthOk, Session.RequestOk, Session.Wired;
      hide Session.ParsersOk, Session.Equipped;
      metrics.CountAttempt();
    }

    method CountConnected()
      requires Valid()
      modifies metrics`historicConnections, metrics`concurrentConnections, metrics`maxConcurrentConnections,
          metrics`levels
      ensures Valid() && Parts() == old(Parts()) && Value() == old(Value())
      ensures metrics.historicConnections == old(metrics.historicConnections) + 1
      ensures metrics.concurrentConnections == old(metrics.concurrentConnections) + 1
    {
      hide Session.Value, Session.Parts, Buffer.Valid, Selector.Valid, Registries.Registry.Valid;
      hide Dissectors.PasswordParser.Valid, FieldParsers.State.Valid, Session.AuthOk, Session.RequestOk, Session.Wired;
      hide Session.ParsersOk, Session.Equipped;
      metrics.BeginConnection();
    }

    method CountAuthentication()
      requires Valid()
      modifies metrics`historicAuthAttempts
      ensures Valid() && Parts() == old(Parts()) && Value() == old(Value())
      ensures metrics.historicAuthAttempts == old(metrics.historicAuthAttempts) + 1
    {
      hide Session.Value, Session.Parts, Buffer.Valid, Selector.Valid, Registries.Registry.Valid;
      hide Dissectors.PasswordParser.Valid, FieldParsers.State.Valid, Session.AuthOk, Session.RequestOk, Session.Wired;
      hide Session.ParsersOk, Session.Equipped;
      metrics.CountAuthentication();
    }

    /** An attempt that comes to nothing. */
    method GiveUp(s: byte)
      requires Valid()
      modifies this, writeBuffer, writeBuffer.data, selector, selector.fds
      ensures Valid() && Parts() == old(Parts())
      ensures Value() == ErrorToClient(WithStatus(old(Value()), s), s) && status == s
    {
      hide Session.Value, Session.Valid, Session.Parts, Session.AuthOk, Session.RequestOk, Buffer.Value;
      hide Session.Equipped;
      hide Session.HelloNow, Session.AuthNow, Session.RequestNow, Session.Wants, Buffer.Valid, Buffer.Ordered;
      SetStatus(s);
      var ret := HandleErrorToClient(status);
    }

    /** selector_register on the origin's descriptor. */
    method RegisterOrigin(i: Interest) returns (ok: bool)
      requires Valid()
      modifies selector, selector.fds
      ensures Valid() && Parts() == old(Parts()) && selector.fds == old(selector.fds)
      ensures var reg := Register(old(Value()).table, originFd, SOCKS5_HANDLER, i, id);
        ok == (reg.0 == Success) && Value() == old(Value()).(table := reg.1)
    {
      hide Buffer.Valid, Buffer.Value, Selector.Valid, Selector.Table, FieldParsers.State.Valid;
      hide Session.Wired, Session.AuthOk, Session.RequestOk;
      hide Session.HelloNow, Session.AuthNow, Session.RequestNow, Session.Wants, Session.Parsed, Session.ParsersOk;
      var st := selector.RegisterFd(originFd, SOCKS5_HANDLER, i, id);
      ok := st == Success;
    }

    /** The origin's descriptor from now on, and what the kernel has open. */
    method SetOrigin(fd: int, nowOpen: map<int, nat>)
      requires Valid() && copier == null
      modifies this`originFd, this`open
      ensures Valid() && Parts() == old(Parts())
      ensures Value() == old(Value()).(c := old(Value()).c.(originFd := fd), open := nowOpen)
    {
      hide Buffer.Valid, Buffer.Value, Selector.Table, FieldParsers.State.Valid, Session.GlobalsOk;
      hide Session.AuthOk, Session.RequestOk;
      hide Session.HelloNow, Session.AuthNow, Session.RequestNow, Session.Wants, Session.Parsed, Session.ParsersOk;
      originFd, open := fd, nowOpen;
    }

    /** close on the origin's descriptor, which is then forgotten. */
    method CloseOrigin()
      requires Valid() && copier == null
      modifies this`open, this`log, this`originFd
      ensures Valid() && Parts() == old(Parts())
      ensures var w := Close(old(Value()), id, old(originFd));
        Value() == w.(c := w.c.(originFd := -1)) && status == old(status)
    {
      hide Session.Value, Session.Valid, Session.Parts, Session.AuthOk, Session.RequestOk, Buffer.Value;
      hide Session.Equipped;
      hide Session.HelloNow, Session.AuthNow, Session.RequestNow, Session.Wants, Buffer.Valid, Buffer.Ordered;
      hide Close;
      CloseFd(originFd);
      SetOrigin(-1, open);
    }

    method AddReference()
      requires Valid()
      modifies this`references
      ensures Valid() && Parts() == old(Parts())
      ensures Value() == old(Value()).(c := old(Value()).c.(references := old(references) + 1))
    {
      hide Buffer.Valid, Buffer.Value, Selector.Table, FieldParsers.State.Valid, Session.GlobalsOk;
      hide Session.Wired, Session.AuthOk, Session.RequestOk;
      hide Session.HelloNow, Session.AuthNow, Session.RequestNow, Session.Wants, Session.Parsed, Session.ParsersOk;
      references := references + 1;
    }

    /** connection, on a connect that succeeds at once: a reference first, then both descriptors. */
    method AcceptAtOnce(key: int) returns (s: byte)
      requires Valid()
      modifies this, writeBuffer, writeBuffer.data, selector, selector.fds
      ensures Valid() && Parts() == old(Parts())
      ensures Value() == ConnectedAtOnce(old(Value()), id, key).0 && s == ConnectedAtOnce(old(Value()), id, key).1
    {
      hide Session.Value, Session.Valid, Session.Parts, Session.AuthOk, Session.RequestOk, Buffer.Value;
      hide Session.Equipped;
      hide Session.HelloNow, Session.AuthNow, Session.RequestNow, Session.Wants, Buffer.Valid, Buffer.Ordered;
      hide ErrorToClient;
      AddReference();
      var ok := SetInterestFd(key, OP_READ);
      if !ok {
        GiveUp(GENERAL_FAILURE);
        return status;
      }
      ok := RegisterOrigin(OP_READ);
      if !ok {
        GiveUp(GENERAL_FAILURE);
        return status;
      }
      return 0x00;
    }

    /** connection, on a connect in progress; a refused registration closes and forgets the descriptor. */
    method AwaitOrigin(key: int) returns (s: byte)
      requires Valid() && copier == null
      modifies this, writeBuffer, writeBuffer.data, selector, selector.fds
      ensures Valid() && Parts() == old(Parts())
      ensures Value() == ConnectionBegun(old(Value()), id, key).0 && s == ConnectionBegun(old(Value()), id, key).1
    {
      hide Session.Value, Session.Valid, Session.AuthOk, Session.RequestOk, Buffer.Value, Session.Equipped;
      hide Session.HelloNow, Session.AuthNow, Session.RequestNow, Session.Wants, Buffer.Valid, Buffer.Ordered;
      hide ErrorToClient, Close;
      var ok := SetInterestFd(key, OP_NOOP);
      if !ok {
        GiveUp(GENERAL_FAILURE);
        return status;
      }
      ok := RegisterOrigin(OP_WRITE);
      if !ok {
        ConnectionTables.ErrorToClientSame(WithStatus(Value(), GENERAL_FAILURE), GENERAL_FAILURE);
        GiveUp(GENERAL_FAILURE);
        CloseOrigin();
        return status;
      }
      AddReference();
      return 0x00;
    }

    /** connection. */
    method TryConnect(key: int, e: Env) returns (s: byte)
      requires Valid() && copier == null
      modifies this, writeBuffer, writeBuffer.data, selector, selector.fds
      modifies metrics`historicConnectionsAttempts
      ensures Valid() && Parts() == old(Parts())
      ensures Value() == Connect(old(Value()), id, key, e).0 && s == Connect(old(Value()), id, key, e).1
      ensures metrics.historicConnectionsAttempts == old(metrics.historicConnectionsAttempts) + 1
    {
      hide Session.Value, Session.Valid, Session.Parts, Session.AuthOk, Session.RequestOk, Buffer.Value;
      hide Session.Equipped;
      hide Session.HelloNow, Session.AuthNow, Session.RequestNow, Session.Wants, Buffer.Valid, Buffer.Ordered;
      hide ErrorToClient, ConnectedAtOnce, ConnectionBegun;
      CountAttempt();
      if e.connect.Failed? || originFd == -1 {
        GiveUp(ErrnoToSocks(if originFd == -1 then Other else e.connect.errno));
        s := status;
      } else if e.connect.AtOnce? {
        s := AcceptAtOnce(key);
      } else {
        s := AwaitOrigin(key);
      }
    }

    /** connecting_init. */
    method InitConnecting(key: int, e: Env)
      requires Valid() && copier == null
      modifies this, writeBuffer, writeBuffer.data, selector, selector.fds
      modifies metrics`historicConnectionsAttempts
      ensures Valid() && Parts() == old(Parts())
      ensures Value() == ConnectingInit(old(Value()), id, key, e)
      ensures metrics.historicConnectionsAttempts
           == old(metrics.historicConnectionsAttempts) + if e.socket.Some? && e.nonBlocking then 1 else 0
    {
      hide Session.Value, Session.Valid, Session.AuthOk, Session.RequestOk, Buffer.Value, Session.Equipped;
      hide Session.HelloNow, Session.AuthNow, Session.RequestNow, Session.Wants, Buffer.Valid, Buffer.Ordered;
      hide ErrorToClient, Connect;
      SetStatus(0x00);
      if e.socket.None? {
        SetOrigin(-1, open);
        GiveUp(GENERAL_FAILURE);
        return;
      }
      SetOrigin(e.socket.value, open[e.socket.value := id]);
      if !e.nonBlocking {
        GiveUp(GENERAL_FAILURE);
        return;
      }
      var s := TryConnect(key, e);
      SetStatus(s);
    }

    /** The next address: what connection returns is not looked at. */
    method Retry(key: int, e: Env) returns (ret: Phase)
      requires Valid() && copier == null && more.Some? && more.value > 0
      modifies this, writeBuffer, writeBuffer.data, selector, selector.fds
      modifies metrics`historicConnectionsAttempts
      ensures Valid() && Parts() == old(Parts())
      ensures Value() == TryNext(old(Value()), id, key, e).0 && ret == TryNext(old(Value()), id, key, e).1
      ensures metrics.historicConnectionsAttempts == old(metrics.historicConnectionsAttempts) + 1
    {
      hide Session.Value, Session.Valid, Session.AuthOk, Session.RequestOk, Buffer.Value, Session.Equipped;
      hide Session.HelloNow, Session.AuthNow, Session.RequestNow, Session.Wants, Buffer.Valid, Buffer.Ordered;
      hide Connect;
      SetCursor(Some(more.value - 1));
      var s := TryConnect(key, e);
      ret := RequestConnecting;
    }

    /** The first branch of connecting_write: an attempt is known to have failed. */
    method RetryOrReport(key: int, e: Env) returns (ret: Phase)
      requires Valid() && copier == null
      modifies this, writeBuffer, writeBuffer.data, selector, selector.fds
      modifies metrics`historicConnectionsAttempts
      ensures Valid() && Parts() == old(Parts())
      ensures Value() == AfterFailure(old(Value()), id, key, e).0 && ret == AfterFailure(old(Value()), id, key, e).1
      ensures metrics.historicConnectionsAttempts
          == old(metrics.historicConnectionsAttempts) + if old(more.Some? && more.value > 0) then 1 else 0
    {
      hide Session.Value, Session.Valid, Session.AuthOk, Session.RequestOk, Buffer.Value, Session.Equipped;
      hide Session.HelloNow, Session.AuthNow, Session.RequestNow, Session.Wants, Buffer.Valid, Buffer.Ordered;
      hide ErrorToClient, Connect, Drop, Close;
      if more.Some? && more.value > 0 {
        ret := Retry(key, e);
        return;
      }
      var ok := UnregisterFd(originFd);
      CloseOrigin();
      ret := HandleErrorToClient(status);
    }

    /** The branch of connecting_write for a connected descriptor. */
    method ReportConnected(key: int) returns (ret: Phase)
      requires Valid()
      modifies this, writeBuffer, writeBuffer.data, selector, selector.fds
      modifies metrics`historicConnections, metrics`concurrentConnections, metrics`maxConcurrentConnections,
          metrics`levels
      ensures Valid() && Parts() == old(Parts())
      ensures Value() == Connected(old(Value()), key).0 && ret == Connected(old(Value()), key).1
      ensures metrics.historicConnections == old(metrics.historicConnections) + 1
    {
      hide Session.Value, Session.Valid, Session.Parts, Session.AuthOk, Session.RequestOk, Buffer.Value;
      hide Session.Equipped;
      hide Session.HelloNow, Session.AuthNow, Session.RequestNow, Session.Wants, Buffer.Valid, Buffer.Ordered;
      CountConnected();
      SetStatus(0x00);
      var n := MarshalReply(Reply(status));
      if n == -1 {
        return Error;
      }
      var ok := SetInterestFd(clientFd, OP_WRITE);
      var ok2 := SetInterestFd(key, OP_NOOP);
      ret := if ok && ok2 then RequestWrite else Error;
    }

    /** connecting_write. */
    method WriteConnecting(key: int, e: Env) returns (ret: Phase)
      requires Valid() && copier == null
      modifies this, writeBuffer, writeBuffer.data, selector, selector.fds
      modifies metrics
      ensures Valid() && Parts() == old(Parts())
      ensures Value() == OnConnecting(old(Value()), id, key, e).0 && ret == OnConnecting(old(Value()), id, key, e).1
      ensures metrics.historicConnections
           == old(metrics.historicConnections) + if old(status) == 0x00 && e.soError == Some(None) then 1 else 0
      ensures metrics.historicConnectionsAttempts == old(metrics.historicConnectionsAttempts)
        + if old(more.Some? && more.value > 0)
            && (old(status) != 0x00 || (e.soError.Some? && e.soError.value.Some?)) then 1 else 0
    {
      hide Session.Value, Session.Valid, Session.AuthOk, Session.RequestOk, Buffer.Value, Session.Equipped;
      hide Session.HelloNow, Session.AuthNow, Session.RequestNow, Session.Wants, Buffer.Valid, Buffer.Ordered;
      hide ErrorToClient, AfterFailure, TryNext, Connected;
      if status != 0x00 {
        ret := RetryOrReport(key, e);
        return;
      }
      if e.soError.None? {
        GiveUp(GENERAL_FAILURE);
        return RequestWrite;
      }
      if e.soError.value.None? {
        ret := ReportConnected(key);
        return;
      }
      var s := ErrnoToSocks(e.soError.value.value);
      if more.Some? && more.value > 0 {
        SetStatus(s);
        ret := Retry(key, e);
        return;
      }
      GiveUp(s);
      ret := RequestWrite;
    }

    // ----- src/copy.c, on the relay made on arrival -----

    /** The relay the attachment stands for is the one the handlers of CopyHandlers.Copier work on. */
    lemma RelayHeld()
      requires Valid() && copier != null
      ensures copier.Core() && copier.Observers() && copier.Value() == RelayOf(Value())
    {
      hide Buffer.Valid, Buffer.Value, Selector.Valid, Selector.Table, FieldParsers.State.Valid;
      hide Session.AuthOk, Session.RequestOk, Session.HelloNow, Session.AuthNow, Session.RequestNow;
      hide MetricsCounters.Metrics.Valid, Dissectors.PasswordParser.Valid;
    }

    /** The relay at work on what recv answered; not on an abort. */
    method RelayRead(key: int, received: Option<seq<byte>>) returns (v: Relays.Verdict)
      requires Valid() && copier != null && (key == clientFd || key == originFd)
      requires received.Some? ==> 0 < |received.value| <= RelayOf(Value()).From(SideOf(Value().c, key)).Room()
      modifies copier.client`interest, copier.orig`interest, selector, selector.fds, metrics
      modifies readBuffer, readBuffer.data, writeBuffer, writeBuffer.data
      modifies dissector, dissector.username, dissector.password
      ensures Valid() && selector.fds == old(selector.fds) && copier == old(copier) && current == old(current)
      ensures dissector.username == old(dissector.username) || fresh(dissector.username)
      ensures dissector.password == old(dissector.password) || fresh(dissector.password)
      ensures var w := old(Value());
        var r := Relays.CopyRead(RelayOf(w), SideOf(w.c, key), received);
        v == r.1 && (v != Relays.Abort ==> Value() == WithRelay(w, r.0))
    {
      hide Buffer.Valid, Buffer.Value, Selector.Valid, Selector.Table, FieldParsers.State.Valid, Relays.CopyRead;
      hide Session.AuthOk, Session.RequestOk, Session.HelloNow, Session.AuthNow, Session.RequestNow;
      hide MetricsCounters.Metrics.Valid, Dissectors.PasswordParser.Valid, Dissectors.PasswordParser.Value;
      hide FieldParsers.WellFormed, Registries.Registry.Valid, Session.Parts, Session.ParsersOk, Session.Parsed;
      RelayHeld();
      var reports;
      v, reports := copier.HandleRead(key, received);
    }

    /** The same on what send took. */
    method RelayWrite(key: int, sent: Option<nat>) returns (v: Relays.Verdict)
      requires Valid() && copier != null && (key == clientFd || key == originFd)
      requires sent.Some? ==> sent.value <= |RelayOf(Value()).To(SideOf(Value().c, key)).contents|
      modifies copier.client`interest, copier.orig`interest, selector, selector.fds, metrics
      modifies readBuffer, readBuffer.data, writeBuffer, writeBuffer.data
      ensures Valid() && selector.fds == old(selector.fds) && copier == old(copier) && current == old(current)
      ensures var w := old(Value());
        var r := Relays.CopyWrite(RelayOf(w), SideOf(w.c, key), sent);
        v == r.1 && (v != Relays.Abort ==> Value() == WithRelay(w, r.0))
    {
      hide Buffer.Valid, Buffer.Value, Selector.Valid, Selector.Table, FieldParsers.State.Valid, Relays.CopyWrite;
      hide Session.AuthOk, Session.RequestOk, Session.HelloNow, Session.AuthNow, Session.RequestNow;
      hide MetricsCounters.Metrics.Valid, Dissectors.PasswordParser.Valid, Dissectors.PasswordParser.Value;
      hide FieldParsers.WellFormed, Registries.Registry.Valid, Session.Parts, Session.ParsersOk, Session.Parsed;
      RelayHeld();
      v := copier.HandleWrite(key, sent);
    }

    /** copy_read. */
    method ReadCopy(key: int, e: Env) returns (ret: Option<Phase>)
      requires Valid() && copier != null && (key == clientFd || key == originFd)
      requires e.received.Some? ==> 0 < |e.received.value| <= RelayOf(Value()).From(SideOf(Value().c, key)).Room()
      modifies this`log, copier.client`interest, copier.orig`interest, selector, selector.fds, metrics
      modifies readBuffer, readBuffer.data, writeBuffer, writeBuffer.data
      modifies dissector, dissector.username, dissector.password
      ensures Valid() && selector.fds == old(selector.fds) && copier == old(copier) && current == old(current)
      ensures dissector.username == old(dissector.username) || fresh(dissector.username)
      ensures dissector.password == old(dissector.password) || fresh(dissector.password)
      ensures var r := OnCopyRead(old(Value()), key, e);
        if r.None? then ret == None else ret == Some(r.value.1) && Value() == r.value.0
      ensures ret.Some? ==> ret.value == Copy || ret.value == Done
    {
      hide Session.Value, Session.Valid, Session.Parts, Session.AuthOk, Session.RequestOk, Session.Equipped;
      hide Session.Wants;
      hide Session.HelloNow, Session.AuthNow, Session.RequestNow, Session.Parsed, Session.ParsersOk, Buffer.Value;
      hide Buffer.Valid;
      hide Relays.CopyRead, RelayOf, WithRelay, ReadLog, SideOf, FieldParsers.State.Valid;
      ghost var w := Value();
      var v := RelayRead(key, e.received);
      if v == Relays.Abort {
        return None;
      }
      ghost var l := ReadLog(w.c.log, SideOf(w.c, key), e.received);
      RelayLogged(w, Relays.CopyRead(RelayOf(w), SideOf(w.c, key), e.received).0, l);
      SetLog(l);
      ret := Some(PhaseOf(v));
    }

    /** copy_write. */
    method WriteCopy(key: int, e: Env) returns (ret: Option<Phase>)
      requires Valid() && copier != null && (key == clientFd || key == originFd)
      requires e.sent.Some? ==> e.sent.value <= |RelayOf(Value()).To(SideOf(Value().c, key)).contents|
      modifies this`log, copier.client`interest, copier.orig`interest, selector, selector.fds, metrics
      modifies readBuffer, readBuffer.data, writeBuffer, writeBuffer.data
      ensures Valid() && selector.fds == old(selector.fds) && copier == old(copier) && current == old(current)
      ensures var r := OnCopyWrite(old(Value()), key, e);
        if r.None? then ret == None else ret == Some(r.value.1) && Value() == r.value.0
      ensures ret.Some? ==> ret.value == Copy || ret.value == Done
    {
      hide Session.Value, Session.Valid, Session.Parts, Session.AuthOk, Session.RequestOk, Session.Equipped;
      hide Session.Wants;
      hide Session.HelloNow, Session.AuthNow, Session.RequestNow, Session.Parsed, Session.ParsersOk, Buffer.Value;
      hide Buffer.Valid;
      hide Relays.CopyWrite, RelayOf, WithRelay, WriteLog, SideOf, FieldParsers.State.Valid;
      ghost var w := Value();
      var v := RelayWrite(key, e.sent);
      if v == Relays.Abort {
        return None;
      }
      ghost var given := if e.sent.Some? then RelayOf(w).To(SideOf(w.c, key)).contents[..e.sent.value] else [];
      ghost var l := WriteLog(w.c.log, SideOf(w.c, key), given);
      RelayLogged(w, Relays.CopyWrite(RelayOf(w), SideOf(w.c, key), e.sent).0, l);
      SetLog(l);
      ret := Some(PhaseOf(v));
    }

    /** The relay made and started on the connection's descriptors and buffers. */
    method MakeRelay() returns (c: CopyHandlers.Copier, v: Relays.Verdict)
      requires Valid() && copier == null
      modifies selector, selector.fds
      ensures Valid() && selector.fds == old(selector.fds) && fresh(c) && fresh(c.client) && fresh(c.orig)
      ensures c.Wired() && c.clientFd == clientFd && c.originFd == originFd
      ensures c.readBuffer == readBuffer && c.writeBuffer == writeBuffer
      ensures c.selector == selector && c.metrics == metrics && c.parser == dissector && c.settings == settings
      ensures var w := old(Value());
        var r := Relays.CopyInit(w.c.clientFd, w.c.originFd, w.c.readBuffer, w.c.writeBuffer, w.table);
        && v == r.1
        && (v != Relays.Abort ==>
              && Value() == w.(table := r.0.table) && r.0.up == w.c.readBuffer && r.0.down == w.c.writeBuffer
              && c.client.interest == r.0.client.wants && c.orig.interest == r.0.origin.wants)
    {
      hide Buffer.Valid, Buffer.Value, Selector.Valid, Selector.Table, FieldParsers.State.Valid, Relays.Settle;
      hide Session.AuthOk, Session.RequestOk, Session.HelloNow, Session.AuthNow, Session.RequestNow;
      hide MetricsCounters.Metrics.Valid, Dissectors.PasswordParser.Valid, Dissectors.PasswordParser.Value;
      hide Session.Wants;
      hide FieldParsers.WellFormed, Registries.Registry.Valid, Session.Parts, Session.ParsersOk, Session.Parsed;
      c := new CopyHandlers.Copier(selector, metrics, dissector, settings, readBuffer, writeBuffer, clientFd, originFd);
      v := c.Init();
    }

    method SetRelay(c: CopyHandlers.Copier)
      requires Valid() && copier == null
      requires c.Wired() && c.clientFd == clientFd && c.originFd == originFd
      requires c.readBuffer == readBuffer && c.writeBuffer == writeBuffer
      requires c.selector == selector && c.metrics == metrics && c.parser == dissector && c.settings == settings
      modifies this`current, this`copier
      ensures Valid() && copier == c
      ensures var w := old(Value());
        Value() == w.(c := w.c.(state := Copy, clientWants := c.client.interest, originWants := c.orig.interest))
    {
      hide Buffer.Valid, Buffer.Value, Selector.Table, FieldParsers.State.Valid, Session.GlobalsOk;
      hide Session.AuthOk, Session.RequestOk, Session.HelloNow, Session.AuthNow, Session.RequestNow;
      hide Session.ParsersOk, Session.Parsed, CopyHandlers.Copier.Wired;
      current, copier := Copy, c;
    }

    /** copy_init, on arrival in COPY. */
    method EnterCopy() returns (ok: bool)
      requires Valid() && copier == null
      modifies this`current, this`copier, selector, selector.fds
      ensures Valid() && selector.fds == old(selector.fds)
      ensures copier != null && fresh(copier) && fresh(copier.client) && fresh(copier.orig)
      ensures var w := old(Value());
        var r := OnCopyInit(w.(c := w.c.(state := Copy)));
        if r.None? then !ok else ok && Value() == r.value
    {
      hide Session.Value, Session.Valid, Session.Parts, Session.AuthOk, Session.RequestOk, Session.Equipped;
      hide Session.Wants;
      hide Session.HelloNow, Session.AuthNow, Session.RequestNow, Session.Parsed, Session.ParsersOk, Buffer.Value;
      hide Buffer.Valid;
      hide Relays.CopyInit, FieldParsers.State.Valid, CopyHandlers.Copier.Wired;
      var c, v := MakeRelay();
      SetRelay(c);
      ok := v != Relays.Abort;
    }

    // ----- src/stm.c and src/socks5nio.c: events -----

    /** What is noted of an event starts over with the next one. */
    method BeginEvent()
      requires Valid()
      modifies this`spawned, this`released
      ensures Valid() && Parts() == old(Parts()) && Value() == Idle(old(Value()))
    {
      hide Buffer.Valid, Buffer.Value, Selector.Table, FieldParsers.State.Valid, Session.GlobalsOk;
      hide Session.Wired, Session.AuthOk, Session.RequestOk;
      hide Session.HelloNow, Session.AuthNow, Session.RequestNow, Session.Wants, Session.Parsed, Session.ParsersOk;
      spawned, released := false, None;
    }

    /** handle_first, and hello_read_init with the method required at that moment. */
    method HandleFirst(e: Env)
      requires Valid()
      requires e.authMethod == settings.authMethod
      modifies this`started, this`hello
      ensures Valid() && started && Value() == First(old(Value()), e)
      ensures hello == old(hello) || fresh(hello)
    {
      hide Session.Value, Session.Valid, Session.Parts, Session.AuthOk, Session.RequestOk, Session.Equipped;
      hide Session.Wants;
      hide Session.HelloNow, Session.AuthNow, Session.RequestNow, Session.Parsed, Session.ParsersOk, Buffer.Value;
      hide Buffer.Valid;
      hide Hellos.HelloParser.Value, Hellos.Start;
      if !started {
        var p := new Hellos.HelloParser(Hellos.SOCKS_VERSION, settings.authMethod);
        SetHello(p);
      }
    }

    method SetHello(p: Hellos.HelloParser)
      requires Valid()
      modifies this`started, this`hello
      ensures Valid() && started && hello == p
      ensures Value() == old(Value()).(c := old(Value()).c.(started := true, hello := p.Value()))
    {
      hide Buffer.Valid, Buffer.Value, Selector.Table, FieldParsers.State.Valid, Session.GlobalsOk;
      hide Session.Wired, Session.AuthOk, Session.RequestOk, Session.AuthNow, Session.RequestNow, Session.Wants;
      hide Session.ParsersOk, Hellos.HelloParser.Value;
      hello := p;
      started := true;
    }

    method StartEvent(e: Env)
      requires Valid()
      requires e.authMethod == settings.authMethod
      modifies this`spawned, this`released, this`started, this`hello
      ensures Valid() && started && Value() == First(Idle(old(Value())), e)
      ensures (hello == old(hello) || fresh(hello)) && Gear() == old(Gear()) && Slots() == old(Slots())
      ensures registry.Valid() && old(registry.Valid()) && registry.Value() == old(registry.Value())
    {
      hide Session.Value, Session.Valid, Session.Parts, Session.Parsed, Session.ParsersOk, Session.Wants, Session.Gear;
      hide Session.Slots, Session.HelloNow, Session.AuthNow, Session.RequestNow, Buffer.Valid, Buffer.Value, First;
      hide Idle;
      hide Registries.Registry.Value, Registries.Registry.Valid;
      ValidGives();
      BeginEvent();
      HandleFirst(e);
    }

    /** A state may be entered once it has the objects its handlers work on. */
    method SetState(p: Phase)
      requires Valid() && (p == UserpassRead ==> auth != null) && (p == RequestRead ==> request != null)
      requires p != Copy && (copier == null || Terminal(p))
      modifies this`current
      ensures Valid() && Value() == old(Value()).(c := old(Value()).c.(state := p))
    {
      hide Buffer.Valid, Buffer.Value, Selector.Table, FieldParsers.State.Valid, Session.GlobalsOk;
      hide Session.Wired, Session.AuthOk, Session.RequestOk;
      hide Session.HelloNow, Session.AuthNow, Session.RequestNow, Session.Wants, Session.Parsed, Session.ParsersOk;
      current := p;
    }

    method SetAuth(p: FieldParsers.FieldParser)
      requires Valid() && p.Valid() && p.schema == ClientWire.AUTH && p.Value() == ClientWire.StartAuth()
      modifies this`auth
      ensures Valid() && auth == p && Value() == old(Value()).(c := old(Value()).c.(auth := ClientWire.StartAuth()))
    {
      hide Buffer.Valid, Buffer.Value, Selector.Table, FieldParsers.State.Valid, Session.GlobalsOk;
      hide Session.Wired, Session.RequestOk, Session.HelloNow, Session.RequestNow, Session.Wants, ClientWire.StartAuth;
      hide FieldParsers.FieldParser.Valid, FieldParsers.FieldParser.Value, FieldParsers.WellFormed;
      auth := p;
    }

    /** auth_read_init. */
    method EnterUserpass()
      requires Valid() && copier == null
      modifies this`current, this`auth
      ensures Valid() && auth != null && fresh(auth) && forall s :: s in auth.states ==> fresh(s)
      ensures var w := old(Value());
        Value() == w.(c := w.c.(state := UserpassRead, auth := ClientWire.StartAuth()))
    {
      hide Session.Value, Session.Valid, Session.Parts, Session.AuthOk, Session.RequestOk, Session.Equipped;
      hide Session.Wants;
      hide Session.HelloNow, Session.AuthNow, Session.RequestNow, Session.Parsed, Session.ParsersOk, Buffer.Value;
      hide Buffer.Valid;
      hide FieldParsers.FieldParser.Valid, FieldParsers.FieldParser.Value, FieldParsers.State.Valid;
      hide ClientWire.StartAuth;
      var p := MakeAuth();
      SetAuth(p);
      SetState(UserpassRead);
    }

    method SetRequest(r: RequestParsers.RequestParser)
      requires Valid() && r.Valid() && r.Value() == RequestParsers.START
      requires {r.v4, r.v6, r.host, r.port} !! {readBuffer.data, writeBuffer.data, dissector.username,
          dissector.password}
      modifies this`request
      ensures Valid() && request == r
      ensures Value() == old(Value()).(c := old(Value()).c.(request := RequestParsers.START))
    {
      hide Buffer.Valid, Buffer.Value, Selector.Table, FieldParsers.State.Valid, Session.GlobalsOk;
      hide Session.Wired, Session.AuthOk, Session.HelloNow, Session.AuthNow, Session.Wants;
      hide RequestParsers.RequestParser.Valid, RequestParsers.RequestParser.Value;
      request := r;
    }

    /** request_read_init. */
    method EnterRequest()
      requires Valid() && copier == null
      modifies this`current, this`request, this`log
      ensures Valid() && request != null && fresh(request) && fresh(request.v4) && fresh(request.v6)
      ensures fresh(request.host) && fresh(request.port)
      ensures var w := old(Value());
        Value() == w.(c := w.c.(state := RequestRead, request := RequestParsers.START,
            log := w.c.log.(admitted := true)))
    {
      hide Session.Value, Session.Valid, Session.Parts, Session.AuthOk, Session.RequestOk, Session.Equipped;
      hide Session.Wants;
      hide Session.HelloNow, Session.AuthNow, Session.RequestNow, Session.Parsed, Session.ParsersOk, Buffer.Value;
      hide Buffer.Valid;
      hide RequestParsers.RequestParser.Valid, RequestParsers.RequestParser.Value, RequestParsers.RequestParser.Sized;
      hide Session.Apart;
      var r := new RequestParsers.RequestParser();
      SetRequest(r);
      Admit();
    }

    /** From here on, requests are listened to. */
    method Admit()
      requires Valid() && copier == null && request != null
      modifies this`current, this`log
      ensures Valid()
      ensures var w := old(Value()); Value() == w.(c := w.c.(state := RequestRead, log := w.c.log.(admitted := true)))
    {
      hide Session.Value, Session.Valid, Session.Parts, Session.AuthOk, Session.RequestOk, Session.Equipped;
      hide Session.Wants;
      hide Session.HelloNow, Session.AuthNow, Session.RequestNow, Session.Parsed, Session.ParsersOk, Buffer.Value;
      hide Buffer.Valid;
      SetState(RequestRead);
      SetLog(log.(admitted := true));
    }

    /** jump: the state changes, with the arrival action of the new one. */
    method JumpTo(next: Phase, key: int, e: Env) returns (ok: bool)
      requires Valid() && (copier == null || next == current || Terminal(next))
      modifies this, writeBuffer, writeBuffer.data, selector, selector.fds
      modifies metrics
      ensures Valid() && selector.fds == old(selector.fds)
      ensures var r := Jump(old(Value()), id, key, next, e);
        if r.None? then !ok else ok && Value() == r.value
    {
      hide Session.Value, Session.Valid, Session.Parts, Session.Parsed, Session.ParsersOk, Session.Wants;
      hide Session.HelloNow, Session.AuthNow, Session.RequestNow, Buffer.Valid, Buffer.Value, Selector.Table;
      hide Session.Equipped;
      hide Jump, ConnectingInit, OnCopyInit, ClientWire.StartAuth, FieldParsers.State.Valid, FieldParsers.WellFormed;
      Arrivals(Value(), id, key, next, e);
      ok := true;
      if current != next {
        if next == UserpassRead {
          EnterUserpass();
        } else if next == RequestRead {
          EnterRequest();
        } else if next == Copy {
          ok := EnterCopy();
        } else {
          SetState(next);
          if next == RequestConnecting {
            InitConnecting(key, e);
          }
        }
      }
    }

    /** The body of the loop in socksv5_done. */
    method ReleaseFd(fd: int) returns (ok: bool)
      requires Valid()
      modifies this`references, this`log, this`released, this`open
      modifies selector`maxFd, selector`masterR, selector`masterW, selector.fds
      ensures Valid()
      ensures var r := Release(old(Value()), id, fd);
        if r.None? then !ok && Value() == old(Value()) else ok && Value() == r.value
    {
      hide Session.Value, Session.Valid, Session.Parts, Session.Parsed, Session.ParsersOk, Session.Wants;
      hide Session.HelloNow, Session.AuthNow, Session.RequestNow, Buffer.Valid, Buffer.Value, Selector.Table;
      hide Close, Destroy, Session.Equipped;
      ok := true;
      if fd != -1 {
        ok := UnregisterFd(fd);
        if ok {
          CloseFd(fd);
        }
      }
    }

    /** socksv5_done, on the descriptors as they are when it is called. */
    method FinishUp() returns (ok: bool)
      requires Valid()
      modifies this`references, this`log, this`released, this`open
      modifies selector`maxFd, selector`masterR, selector`masterW, selector.fds
      ensures Valid()
      ensures var r := Finish(old(Value()), id);
        if r.None? then !ok else ok && Value() == r.value
    {
      hide Session.Value, Session.Valid, Session.Parts, Session.Parsed, Session.ParsersOk, Session.Wants;
      hide Session.HelloNow, Session.AuthNow, Session.RequestNow, Buffer.Valid, Buffer.Value, Selector.Table;
      hide Release, Session.Equipped;
      var fds := [clientFd, originFd];
      ok := ReleaseFd(fds[0]);
      if ok {
        ok := ReleaseFd(fds[1]);
      }
    }

    /** The handlers that feed the parsers. */
    method CallParser(key: int, e: Env) returns (next: Phase)
      requires Valid() && started && current in {HelloRead, UserpassRead, RequestRead}
      requires CallsBounded(Value().c, key, Readable, e) && e.users == registry.Value()
      modifies this, readBuffer, readBuffer.data, writeBuffer, writeBuffer.data, selector, selector.fds, metrics
      modifies hello, Gear(), Slots()
      ensures Valid() && selector.fds == old(selector.fds) && copier == old(copier) && current == old(current)
      ensures var r := Handle(old(Value()), id, key, Readable, e);
        r == Some((Value(), next))
    {
      hide Session.Value, Session.Valid, Session.Parts, Session.Parsed, Session.ParsersOk, Session.Wants;
      hide Session.HelloNow, Session.AuthNow, Session.RequestNow, Buffer.Valid, Buffer.Value;
      hide Session.Gear, Registries.Registry.Value, Registries.Registry.Valid;
      hide OnHelloRead, OnUserpassRead, OnRequestRead, OnCopyRead, CallsBounded;
      GearHas();
      RecvBounded(Value().c, key, e);
      match current {
        case HelloRead => next := ReadHello(key, e);
        case UserpassRead => next := ReadUserpass(key, e);
        case RequestRead => next := ReadRequest(key, e);
      }
    }

    /** The handler of the relay. */
    method CallRelay(key: int, e: Env) returns (ret: Option<Phase>)
      requires Valid() && current == Copy && (key == clientFd || key == originFd)
      requires CallsBounded(Value().c, key, Readable, e)
      modifies this, readBuffer, readBuffer.data, writeBuffer, writeBuffer.data, selector, selector.fds, metrics
      modifies dissector, dissector.username, dissector.password, Gear()
      ensures Valid() && selector.fds == old(selector.fds) && copier == old(copier) && current == old(current)
      ensures ret.Some? ==> ret.value == Copy || ret.value == Done
      ensures var r := Handle(old(Value()), id, key, Readable, e);
        if r.None? then ret == None else ret == Some(r.value.1) && Value() == r.value.0
    {
      hide Session.Value, Session.Valid, Session.Parts, Session.Parsed, Session.ParsersOk, Session.Wants;
      hide Session.HelloNow, Session.AuthNow, Session.RequestNow, Buffer.Valid, Buffer.Value;
      hide Session.Gear, Registries.Registry.Value, Registries.Registry.Valid;
      hide Handle, OnCopyRead, Session.Slots, CallsBounded, SideOf;
      RecvBounded(Value().c, key, e);
      OtherHandlers(Value(), id, key, e);
      GearHas();
      ret := ReadCopy(key, e);
    }

    /** The read handlers of the state table. */
    method CallReader(key: int, e: Env) returns (ret: Option<Phase>)
      requires Valid() && started && (key == clientFd || key == originFd) && CallsBounded(Value().c, key, Readable, e)
      requires e.users == registry.Value()
      modifies this, readBuffer, readBuffer.data, writeBuffer, writeBuffer.data, selector, selector.fds, metrics
      modifies dissector, dissector.username, dissector.password, hello, Gear(), Slots()
      ensures Valid() && selector.fds == old(selector.fds) && copier == old(copier) && current == old(current)
      ensures ret.Some? ==> !Terminal(old(current)) && (old(current) == Copy ==> ret.value == Copy || ret.value == Done)
      ensures var r := Handle(old(Value()), id, key, Readable, e);
        if r.None? then ret == None else ret == Some(r.value.1) && Value() == r.value.0
    {
      hide Session.Value, Session.Valid, Session.Parts, Session.Parsed, Session.ParsersOk, Session.Wants;
      hide Session.HelloNow, Session.AuthNow, Session.RequestNow, Buffer.Valid, Buffer.Value;
      hide Session.Gear, Registries.Registry.Value, Registries.Registry.Valid;
      hide Handle, OnCopyRead, Session.Slots, CallsBounded, SideOf;
      OtherHandlers(Value(), id, key, e);
      if current in {HelloRead, UserpassRead, RequestRead} {
        var next := CallParser(key, e);
        ret := Some(next);
      } else if current == Copy {
        ret := CallRelay(key, e);
      } else {
        ret := None;
      }
    }

    /** The handlers that send replies. */
    method CallReplier(key: int, e: Env) returns (next: Phase)
      requires Valid() && started && current in {HelloWrite, UserpassWrite, RequestConnecting, RequestWrite}
      requires CallsBounded(Value().c, key, Writable, e)
      modifies this, readBuffer, readBuffer.data, writeBuffer, writeBuffer.data, selector, selector.fds, metrics
      ensures Valid() && selector.fds == old(selector.fds) && copier == old(copier) && current == old(current)
      ensures var r := Handle(old(Value()), id, key, Writable, e);
        r == Some((Value(), next))
    {
      hide Session.Value, Session.Valid, Session.Parts, Session.Parsed, Session.ParsersOk, Session.Wants;
      hide Session.HelloNow, Session.AuthNow, Session.RequestNow, Buffer.Valid, Buffer.Value;
      hide Session.Gear, Registries.Registry.Value, Registries.Registry.Valid;
      hide OnHelloWrite, OnUserpassWrite, OnConnecting, OnRequestWrite, OnCopyWrite, WithAuthReply;
      match current {
        case HelloWrite => next := WriteHello(key, e);
        case UserpassWrite => next := WriteUserpass(key, e);
        case RequestConnecting => next := WriteConnecting(key, e);
        case RequestWrite => next := WriteRequest(key, e);
      }
    }

    /** Its write handlers. */
    method CallWriter(key: int, e: Env) returns (ret: Option<Phase>)
      requires Valid() && started && (key == clientFd || key == originFd) && CallsBounded(Value().c, key, Writable, e)
      modifies this, readBuffer, readBuffer.data, writeBuffer, writeBuffer.data, selector, selector.fds, metrics, Gear()
      ensures Valid() && selector.fds == old(selector.fds) && copier == old(copier) && current == old(current)
      ensures ret.Some? ==> !Terminal(old(current)) && (old(current) == Copy ==> ret.value == Copy || ret.value == Done)
      ensures var r := Handle(old(Value()), id, key, Writable, e);
        if r.None? then ret == None else ret == Some(r.value.1) && Value() == r.value.0
    {
      hide Session.Value, Session.Valid, Session.Parts, Session.Parsed, Session.ParsersOk, Session.Wants;
      hide Session.HelloNow, Session.AuthNow, Session.RequestNow, Buffer.Valid, Buffer.Value;
      hide Session.Gear, Registries.Registry.Value, Registries.Registry.Valid;
      hide Handle, OnCopyWrite, CallsBounded, SideOf;
      SendBounded(Value().c, key, e);
      OtherHandlers(Value(), id, key, e);
      if current in {HelloWrite, UserpassWrite, RequestConnecting, RequestWrite} {
        var next := CallReplier(key, e);
        ret := Some(next);
      } else if current == Copy {
        GearHas();
        ret := WriteCopy(key, e);
      } else {
        ret := None;
      }
    }

    /** The call through the state table; no handler, or abort() inside one, is None. */
    method CallHandler(key: int, event: Event, e: Env) returns (ret: Option<Phase>)
      requires Valid() && started && (key == clientFd || key == originFd) && CallsBounded(Value().c, key, event, e)
      requires e.users == registry.Value()
      modifies this, readBuffer, readBuffer.data, writeBuffer, writeBuffer.data, selector, selector.fds, metrics
      modifies dissector, dissector.username, dissector.password, hello, Gear(), Slots()
      ensures Valid() && selector.fds == old(selector.fds) && copier == old(copier) && current == old(current)
      ensures ret.Some? ==> !Terminal(old(current)) && (old(current) == Copy ==> ret.value == Copy || ret.value == Done)
      ensures var r := Handle(old(Value()), id, key, event, e);
        if r.None? then ret == None else ret == Some(r.value.1) && Value() == r.value.0
    {
      hide Session.Value, Session.Valid, Session.Parts, Session.Parsed, Session.ParsersOk, Session.Wants;
      hide Session.HelloNow, Session.AuthNow;
      hide Session.RequestNow, Session.Gear, Session.Slots, Session.Equipped, Buffer.Valid, Buffer.Value, OnResolved;
      hide Registries.Registry.Value, Registries.Registry.Valid;
      match event {
        case Readable => ret := CallReader(key, e);
        case Writable => ret := CallWriter(key, e);
        case Block =>
          if current == RequestResolv {
            var next := ResolveDone(key);
            ret := Some(next);
          } else {
            ret := None;
          }
      }
    }

    /** A machine that has started: its handler, the move to the state it answers, and the end of the connection. */
    method Proceed(key: int, event: Event, e: Env) returns (ok: bool)
      requires Valid() && started && (key == clientFd || key == originFd) && CallsBounded(Value().c, key, event, e)
      requires e.users == registry.Value()
      modifies this, readBuffer, readBuffer.data, writeBuffer, writeBuffer.data, selector, selector.fds, metrics
      modifies dissector, dissector.username, dissector.password, hello, Gear(), Slots()
      ensures Valid()
      ensures var r := Advance(old(Value()), id, key, event, e);
        if r.None? then !ok else ok && Value() == r.value
    {
      hide Session.Value, Session.Valid, Session.Parts, Session.Parsed, Session.ParsersOk, Session.Wants;
      hide Session.HelloNow, Session.AuthNow;
      hide Session.RequestNow, Session.Gear, Session.Slots, Buffer.Valid, Buffer.Value, Handle, Jump, Finish;
      hide Registries.Registry.Value, Registries.Registry.Valid;
      var st := CallHandler(key, event, e);
      if st.None? {
        return false;
      }
      ok := JumpTo(st.value, key, e);
      if ok && Terminal(st.value) {
        ok := FinishUp();
      }
    }

    /** socksv5_read, socksv5_write and socksv5_block; not ok is the end of the process. */
    method HandleEvent(key: int, event: Event, e: Env) returns (ok: bool)
      requires Valid() && (key == clientFd || key == originFd) && CallsBounded(Value().c, key, event, e)
      requires e.authMethod == settings.authMethod
      requires e.users == registry.Value()
      modifies this, readBuffer, readBuffer.data, writeBuffer, writeBuffer.data, selector, selector.fds, metrics
      modifies dissector, dissector.username, dissector.password, hello, Gear(), Slots()
      ensures Valid()
      ensures var r := Dispatch(old(Value()), id, key, event, e);
        if r.None? then !ok else ok && Value() == r.value
    {
      hide Session.Value, Session.Valid, Session.Parts, Session.Parsed, Session.ParsersOk, Session.Wants;
      hide Session.HelloNow, Session.AuthNow;
      hide Session.RequestNow, Session.Gear, Session.Slots, Buffer.Valid, Buffer.Value, Advance, CallsBounded, First;
      hide Idle;
      hide Registries.Registry.Value, Registries.Registry.Valid;
      FirstBounded(Value(), key, event, e);
      StartEvent(e);
      ok := Proceed(key, event, e);
    }

    /**
     * An event does to the objects what the dispatch function does to their value; so one that
     * may be expected, of a connection in its invariant, is survived and leaves it there.
     */
    method OnEvent(key: int, event: Event, e: Env) returns (ok: bool)
      requires Valid() && (key == clientFd || key == originFd) && CallsBounded(Value().c, key, event, e)
      requires e.authMethod == settings.authMethod
      requires e.users == registry.Value()
      modifies this, readBuffer, readBuffer.data, writeBuffer, writeBuffer.data, selector, selector.fds, metrics
      modifies dissector, dissector.username, dissector.password, hello, Gear(), Slots()
      ensures Valid()
      ensures var r := Dispatch(old(Value()), id, key, event, e);
        if r.None? then !ok else ok && Value() == r.value
      ensures old(ConnOk(Value(), id)) && old(Expected(Value(), id, key, event, e)) ==> ok && ConnOk(Value(), id)
    {
      hide Session.Value, Session.Valid, Session.Gear, Session.Slots, Dispatch, CallsBounded, ConnOk, Expected;
      hide Session.ParsersOk, Session.Parsed, Registries.Registry.Value, Registries.Registry.Valid;
      ghost var w := Value();
      if ConnOk(w, id) && Expected(w, id, key, event, e) {
        EventKept(w, id, key, event, e);
      }
      ok := HandleEvent(key, event, e);
    }
  }

  /** auth_read_init's parser: a substate for each slot of the schema. */
  method MakeAuth() returns (p: FieldParsers.FieldParser)
    ensures fresh(p) && (forall s :: s in p.states ==> fresh(s))
    ensures p.Valid() && p.schema == ClientWire.AUTH && p.Value() == ClientWire.StartAuth()
  {
    hide FieldParsers.FieldParser.Valid, FieldParsers.FieldParser.Value, FieldParsers.State.Valid;
    ClientWire.SchemasWellFormed();
    var a := new FieldParsers.Substate(ClientWire.AUTH[0]);
    var b := new FieldParsers.Substate(ClientWire.AUTH[1]);
    var c := new FieldParsers.Substate(ClientWire.AUTH[2]);
    var d := new FieldParsers.Substate(ClientWire.AUTH[3]);
    var e := new FieldParsers.Substate(ClientWire.AUTH[4]);
    p := new FieldParsers.FieldParser(ClientWire.AUTH, [a, b, c, d, e]);
  }

  /** The first event captures a method; what recv and send are given is as before. */
  lemma FirstBounded(w: World, key: int, event: Event, e: Env)
    requires CallsBounded(w.c, key, event, e)
    ensures CallsBounded(First(Idle(w), e).c, key, event, e)
  {
  }

  /** A lookup sets the answer and notes the users. */
  lemma Checked(c: Conn, users: seq<Registries.User>)
    ensures var d := CheckCredentials(c, users);
      d == c.(authentication := d.authentication, log := c.log.(checkedOver := users))
  {
  }

  /** What arrival in each state does. */
  lemma Arrivals(w: World, id: nat, key: int, next: Phase, e: Env)
    ensures var r, c := Jump(w, id, key, next, e), w.c.(state := next);
      if next == w.c.state then r == Some(w)
      else if next == UserpassRead then r == Some(w.(c := c.(auth := ClientWire.StartAuth())))
      else if next == RequestRead then
        r == Some(w.(c := c.(request := RequestParsers.START, log := c.log.(admitted := true))))
      else if next == Copy then r == OnCopyInit(w.(c := c))
      else if next == RequestConnecting then r == Some(ConnectingInit(w.(c := c), id, key, e))
      else r == Some(w.(c := c))
  {
    hide ConnectingInit, OnCopyInit, ClientWire.StartAuth, FieldParsers.State.Valid, FieldParsers.WellFormed;
  }

  /** The handlers of COPY, and the states without one. */
  lemma OtherHandlers(w: World, id: nat, key: int, e: Env)
    ensures CallsBounded(w.c, key, Readable, e) ==>
      && (w.c.state == Copy ==> Handle(w, id, key, Readable, e) == OnCopyRead(w, key, e))
      && (w.c.state !in {HelloRead, UserpassRead, RequestRead, Copy} ==> Handle(w, id, key, Readable, e).None?)
    ensures CallsBounded(w.c, key, Writable, e) ==>
      && (w.c.state == Copy ==> Handle(w, id, key, Writable, e) == OnCopyWrite(w, key, e))
      && (w.c.state !in {HelloWrite, UserpassWrite, RequestConnecting, RequestWrite, Copy} ==>
            Handle(w, id, key, Writable, e).None?)
  {
  }

  lemma SendBounded(c: Conn, key: int, e: Env)
    requires CallsBounded(c, key, Writable, e)
    ensures forall w: World :: w.c == c && c.state == Copy && e.sent.Some? ==>
              e.sent.value <= |RelayOf(w).To(SideOf(c, key)).contents|
  {
  }

  lemma RecvBounded(c: Conn, key: int, e: Env)
    requires CallsBounded(c, key, Readable, e)
    ensures c.state != Copy && e.received.Some? ==> 0 < |e.received.value| <= c.readBuffer.Room()
    ensures forall w: World :: w.c == c && c.state == Copy && e.received.Some? ==>
              0 < |e.received.value| <= RelayOf(w).From(SideOf(c, key)).Room()
  {
  }

  method NewBuffer() returns (b: Buffer)
    ensures fresh(b) && fresh(b.data) && b.Valid() && b.Value() == EmptyFifo(BUFFER_SIZE)
  {
    var raw := new byte[BUFFER_SIZE];
    b := new Buffer(BUFFER_SIZE, raw);
  }

  /** What the relay does, and what is noted of it, go in either order. */
  lemma RelayLogged(w: World, r: Relays.Relay, l: Log)
    ensures var v := WithRelay(w, r);
      v.(c := v.c.(log := l)) == WithRelay(w.(c := w.c.(log := l)), r)
  {
  }

  lemma TakesSome(p: FieldParsers.Parser, input: seq<byte>)
    requires input != []
    ensures FieldParsers.Take(p, input).1 > 0
  {
  }

  /** A NUL behind the octets of a block ends the string that starts it no later. */
  lemma {:induction false} NulBehind(block: seq<byte>, n: nat)
    requires |block| == n + 1 && block[n] == 0
    ensures CString(block) == CString(block[..n])
  {
    if n > 0 && block[0] != 0 {
      NulBehind(block[1..], n - 1);
      assert block[1..][..n - 1] == block[..n][1..];
    }
  }

  /** The blocks of a finished credentials parser hold the strings that are looked up. */
  lemma FieldsHeld(p: FieldParsers.FieldParser)
    requires p.Valid() && p.schema == ClientWire.AUTH && p.Value().phase == FieldParsers.Phase.Done
    ensures |p.states| == 5
    ensures CString(p.states[2].result) == Username(p.Value()) && CString(p.states[4].result) == Password(p.Value())
  {
    assert p.states[2].Stored() && p.states[4].Stored();
    NulBehind(p.states[2].result, p.states[2].size);
    NulBehind(p.states[4].result, p.states[4].size);
  }
}
