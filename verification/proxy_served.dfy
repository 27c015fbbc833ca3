/**
 * Clients served among all the others of the process: accepted, and resolved by a thread that
 * finishes when it likes.
 */
module ServedRuns {
  import opened Bytes
  import opened Selectors
  import opened Connections
  import opened ConnectionTables
  import opened ConnectionLogs
  import opened ConnectionReplies
  import opened ConnectionInvariants
  import opened Dialing
  import opened Outcomes
  import opened Proxies
  import FieldParsers
  import Hellos
  import Managements
  import MetricsCounters
  import RequestParsers
  import ServedClients

  // ----- Accepting -----

  /** What a descriptor that accept answers has to be for its connection to be watched. */
  predicate Acceptable(s: Proxy, fd: int, nonBlocking: bool) {
    nonBlocking && !InvalidFd(fd) && fd !in s.table
  }

  /**
   * Every descriptor that can be watched gets a connection of its own, at its beginning and armed for
   * reading; nothing else changes. Any other is dropped, and nothing changes at all.
   */
  lemma AcceptedIff(s: Proxy, fd: int, nonBlocking: bool)
    requires Inv(s) && Legal(s, Accept(fd, nonBlocking))
    ensures var r := Apply(s, Accept(fd, nonBlocking));
      && r.Some? && (Acceptable(s, fd, nonBlocking) <==> r.value != s)
      && (Acceptable(s, fd, nonBlocking) ==>
            && s.next !in s.conns && s.next in r.value.conns
            && ServedClients.Fresh(WorldOf(r.value, s.next), s.next) && r.value.conns[s.next].clientFd == fd
            && Registered(r.value.table, fd, s.next) && r.value.table[fd].interest == OP_READ
            && r.value.conns - {s.next} == s.conns && r.value.table - {fd} == s.table && r.value.open - {fd} == s.open)
  {
    hide Inv, ConnOk, FieldParsers.State.Valid, FieldParsers.WellFormed;
    StepInv(s, Accept(fd, nonBlocking));
    NextNew(s);
    var r := AcceptConn(s, fd, nonBlocking);
    if Acceptable(s, fd, nonBlocking) {
      KeptAt(r, s.next);
      AcceptedOnly(s, fd);
    }
  }

  /** The connection accepted is all that is new. */
  lemma AcceptedOnly(s: Proxy, fd: int)
    requires Inv(s) && Acceptable(s, fd, true) && fd !in s.open
    ensures var r := AcceptConn(s, fd, true);
      && r.conns - {s.next} == s.conns && r.table - {fd} == s.table && r.open - {fd} == s.open
      && s.next in r.conns && r.conns[s.next] == NewConn(fd)
      && Registered(r.table, fd, s.next) && r.table[fd].interest == OP_READ
  {
    hide Inv, NewConn, FieldParsers.State.Valid, FieldParsers.WellFormed;
    NextNew(s);
    OneMore(s.conns, s.next, NewConn(fd));
    OneMore(s.table, fd, Item(OP_READ, SOCKS5_HANDLER, s.next));
    OneMore(s.open, fd, s.next);
  }

  lemma OneMore<K, V>(m: map<K, V>, k: K, v: V)
    requires k !in m
    ensures m[k := v] - {k} == m
  {
  }

  lemma NextNew(s: Proxy)
    requires Inv(s)
    ensures s.next !in s.conns
  {
    hide ConnsOk, ResolversOk;
  }

  /** The invariant, of one connection. */
  lemma KeptAt(s: Proxy, id: nat)
    requires Inv(s) && id in s.conns
    ensures ConnOk(WorldOf(s, id), id)
  {
    hide ConnOk, TableOk, ResolversOk;
  }

  lemma InvParts(s: Proxy)
    requires Inv(s)
    ensures TableOk(s) && ConnsOk(s) && (s.authMethod == 0x00 || s.authMethod == 0x02)
  {
    hide TableOk, ConnsOk, ResolversOk;
  }

  // ----- Events -----

  /**
   * What the environment may do to the process is an expected event of the connection it is for,
   * so its outcome is known.
   */
  lemma ExpectedHere(s: Proxy, key: int, event: Event, e: Env)
    requires Inv(s) && key in s.table && Owner(s, key) >= 0 && Owner(s, key) in s.conns
    requires Due(WorldOf(s, Owner(s, key)), key, event)
    requires Owned(s, key) ==> Answerable(s, key, event, EnvOf(s, e))
    ensures Owned(s, key)
    ensures var id: nat := Owner(s, key);
      && ConnOk(WorldOf(s, id), id) && Expected(WorldOf(s, id), id, key, event, EnvOf(s, e))
      && RunHandler(s, key, event, EnvOf(s, e)).Some?
  {
    hide Inv, TableOk, ConnsOk, ConnOk, Apart, Dials, CallsBounded, Connections.Dispatch;
    InvParts(s);
    HandlerRuns(s, key, event, EnvOf(s, e));
    KeptAt(s, Owner(s, key));
    if e.socket.Some? && e.socket.value in s.table {
      ClosedSilent(s, e.socket.value);
    }
  }

  // ----- A request for a name -----

  /** A client waits for a resolver of its own, silenced. */
  ghost predicate Waiting(s: Proxy, id: nat) {
    && Inv(s) && id in s.conns && s.conns[id].state == RequestResolv
    && Watched(WorldOf(s, id), s.conns[id].clientFd, OP_NOOP)
  }

  /** The event that completes a request for a name. */
  ghost predicate Completes(s: Proxy, id: nat, e: Env, name: seq<byte>, rsv: byte, port: (byte, byte), tail: seq<byte>)
    requires id in s.conns
  {
    var c := s.conns[id];
    && c.state == RequestRead && Own(s.table, c.clientFd, id) && Legal(s, Step.Dispatch(c.clientFd, Readable, e))
    && e.received.Some? && 1 <= |name| <= 254 && |c.log.eatenHello| + |c.log.eatenAuth| <= |c.log.received|
    && SinceCredentials(c, e.received.value)
       == RequestParsers.EncodeRequest(rsv, RequestParsers.Domain(name), port) + tail
  }

  /** A request for a name, once whole, starts one resolver, for this client, and silences the client. */
  lemma NameAsked(s: Proxy, id: nat, e: Env, name: seq<byte>, rsv: byte, port: (byte, byte), tail: seq<byte>)
      returns (s': Proxy)
    requires Inv(s) && id in s.conns && Completes(s, id, e, name, rsv, port, tail)
    ensures Proxies.Apply(s, Step.Dispatch(s.conns[id].clientFd, Readable, e)) == Some(s') && Waiting(s', id)
    ensures s'.resolvers == s.resolvers + multiset{Resolver(s.conns[id].clientFd, id)} && s'.jobs == s.jobs
    ensures var c, d := s.conns[id], s'.conns[id];
      && d.clientFd == c.clientFd && d.readBuffer.contents == tail && d.log.replies == c.log.replies
      && d.request == RequestParsers.Parsed(RequestParsers.Domain(name), port)
  {
    hide Inv, ConnOk, Connections.Dispatch, Dials, CallsBounded, SinceCredentials, RequestParsers.EncodeRequest;
    hide ClientArmed;
    var w, key := WorldOf(s, id), s.conns[id].clientFd;
    assert Owner(s, key) == id;
    ExpectedHere(s, key, Readable, e);
    NameResolved(w, id, EnvOf(s, e), rsv, name, port, tail);
    ClientSame(w, id, Readable, EnvOf(s, e));
    StepInv(s, Step.Dispatch(key, Readable, e));
    s' := WithWorld(s, id, Connections.Dispatch(w, id, key, Readable, EnvOf(s, e)).value);
  }

  /** Its thread finishes: what it found is kept for the client, and its job is the next to be delivered. */
  lemma NameFound(s: Proxy, id: nat, found: Option<nat>) returns (s': Proxy)
    requires Waiting(s, id) && Resolver(s.conns[id].clientFd, id) in s.resolvers
    ensures Legal(s, Resolve(Resolver(s.conns[id].clientFd, id), found))
    ensures Proxies.Apply(s, Resolve(Resolver(s.conns[id].clientFd, id), found)) == Some(s') && Waiting(s', id)
    ensures s'.conns == s.conns[id := s.conns[id].(resolution := found)] && s'.jobs == [s.conns[id].clientFd] + s.jobs
    ensures s'.resolvers == s.resolvers - multiset{Resolver(s.conns[id].clientFd, id)} && s'.table == s.table
  {
    hide Inv, ConnOk;
    var r := Resolver(s.conns[id].clientFd, id);
    WaitsAlone(s, id);
    StepInv(s, Resolve(r, found));
    s' := Proxies.Apply(s, Resolve(r, found)).value;
  }

  /** What comes of the answer, once delivered. */
  ghost predicate NameAnswered(w: World, r: World, id: nat, e: Env) {
    && ConnOk(r, id) && r.c.clientFd == w.c.clientFd && r.c.readBuffer == w.c.readBuffer
    && if w.c.resolution.None? then
         && r.c.state == RequestWrite && r.c.status == 0x01 && r.c.log.replies == w.c.log.replies + ReplyOctets(0x01)
         && Watched(r, r.c.clientFd, OP_WRITE)
       else r.c.state == RequestConnecting && r.c.more == w.c.resolution && Attempted(w, r, id, e)
  }

  lemma AnswerOf(w: World, id: nat, e: Env)
    requires ConnOk(w, id) && w.c.state == RequestResolv && Expected(w, id, w.c.clientFd, Block, e)
    ensures var r := Connections.Dispatch(w, id, w.c.clientFd, Block, e);
      r.Some? && NameAnswered(w, r.value, id, e) && !r.value.spawned
  {
    hide ConnOk, Connections.Dispatch, Attempted, ClientArmed, Expected;
    ResolvedOutcome(w, id, e);
    LeadsOn(w, id, e);
    AnsweredArmed(Connections.Dispatch(w, id, w.c.clientFd, Block, e).value);
  }

  lemma LeadsOn(w: World, id: nat, e: Env)
    requires ConnOk(w, id) && Expected(w, id, w.c.clientFd, Block, e)
    ensures var r := Connections.Dispatch(w, id, w.c.clientFd, Block, e);
      r.Some? ==> r.value.c.clientFd == w.c.clientFd && (r.value.spawned ==> r.value.c.state == RequestResolv)
  {
    hide ConnOk, Dials, Connections.Dispatch, Plausible, Due;
    Leads(w, id, w.c.clientFd, Block, e);
  }

  lemma AnsweredArmed(w: World)
    requires ClientArmed(w)
    ensures w.c.state == RequestWrite ==> Watched(w, w.c.clientFd, OP_WRITE)
  {
  }

  /** Its job is delivered: an attempt at the first address found, or a general failure told. */
  lemma NameDelivered(s: Proxy, id: nat, e: Env)
    requires Waiting(s, id) && s.jobs != [] && s.jobs[0] == s.conns[id].clientFd && Legal(s, Notify(e))
    ensures var r := Proxies.Apply(s, Notify(e));
      && r.Some? && Inv(r.value) && id in r.value.conns && r.value.jobs == s.jobs[1..]
      && r.value.resolvers == s.resolvers && NameAnswered(WorldOf(s, id), WorldOf(r.value, id), id, EnvOf(s, e))
  {
    hide Inv, ConnOk, Connections.Dispatch, Dials, CallsBounded, NameAnswered, Expected;
    var w, key, s1 := WorldOf(s, id), s.conns[id].clientFd, s.(jobs := s.jobs[1..]);
    WaitsAlone(s, id);
    ExpectedHere(s, key, Block, e);
    StepInv(s, Notify(e));
    AnswerOf(w, id, EnvOf(s, e));
    var r := Connections.Dispatch(w, id, key, Block, EnvOf(s, e)).value;
    AnswerAside(w, r, id, EnvOf(s, e));
    assert Proxies.Apply(s, Notify(e)) == Some(WithWorld(s1, id, r));
    assert WorldOf(WithWorld(s1, id, r), id) == r.(spawned := false, released := None);
  }

  /** What is noted of an event makes no difference to what came of it. */
  lemma AnswerAside(w: World, r: World, id: nat, e: Env)
    requires NameAnswered(w, r, id, e)
    ensures NameAnswered(w, r.(spawned := false, released := None), id, e)
  {
    hide ConnOk;
    AsideOk(r, id, false, None);
  }

  /** A client that waits is registered under its own number. */
  lemma WaitsAlone(s: Proxy, id: nat)
    requires Waiting(s, id)
    ensures var fd := s.conns[id].clientFd;
      && ConnOk(WorldOf(s, id), id) && fd in s.table && Owner(s, fd) == id && s.conns[id].log.frees == 0
  {
    hide Inv, ConnOk;
    KeptAt(s, id);
    WaitingRegistered(WorldOf(s, id), id);
  }

  /**
   * A client that asks for a name is served, whoever else the process is serving. However it was
   * admitted, however its request was cut and whatever it pipelined, the event that completes the
   * request starts one resolver, for it; whatever that finds is delivered next, and then an attempt
   * is made at the first address, or the client told of a general failure where there is none. No
   * resolver and no job of its own is left.
   */
  lemma NameServed(s: Proxy, id: nat, e: Env, name: seq<byte>, rsv: byte, port: (byte, byte), tail: seq<byte>,
                   found: Option<nat>) returns (asked: Proxy, resolved: Proxy)
    requires Inv(s) && id in s.conns && Completes(s, id, e, name, rsv, port, tail)
    ensures var client := s.conns[id].clientFd;
      && Proxies.Apply(s, Step.Dispatch(client, Readable, e)) == Some(asked) && Waiting(asked, id)
      && Legal(asked, Resolve(Resolver(client, id), found))
      && Proxies.Apply(asked, Resolve(Resolver(client, id), found)) == Some(resolved) && Waiting(resolved, id)
    ensures var c := resolved.conns[id];
      && c.clientFd == s.conns[id].clientFd && c.resolution == found && c.readBuffer.contents == tail
      && c.log.replies == s.conns[id].log.replies
      && c.request == RequestParsers.Parsed(RequestParsers.Domain(name), port)
    ensures resolved.jobs == [s.conns[id].clientFd] + s.jobs && resolved.resolvers == s.resolvers
    ensures forall later :: Legal(resolved, Notify(later)) ==> Delivered(resolved, id, later)
  {
    hide Inv, Waiting, Completes, Legal, Proxies.Apply, Delivered;
    asked := NameAsked(s, id, e, name, rsv, port, tail);
    resolved := NameFound(asked, id, found);
    forall later | Legal(resolved, Notify(later))
      ensures Delivered(resolved, id, later)
    {
      DeliveredNow(resolved, id, later);
    }
  }

  /** The next job is this client's, and is answered. */
  ghost predicate Delivered(s: Proxy, id: nat, later: Env)
    requires Legal(s, Notify(later)) && id in s.conns
  {
    var r := Proxies.Apply(s, Notify(later));
    && r.Some? && Inv(r.value) && id in r.value.conns && r.value.jobs == s.jobs[1..]
    && r.value.resolvers == s.resolvers && NameAnswered(WorldOf(s, id), WorldOf(r.value, id), id, EnvOf(s, later))
  }

  lemma DeliveredNow(s: Proxy, id: nat, later: Env)
    requires Waiting(s, id) && s.jobs != [] && s.jobs[0] == s.conns[id].clientFd && Legal(s, Notify(later))
    ensures Delivered(s, id, later)
  {
    hide Inv, Waiting, Legal, Proxies.Apply, NameAnswered;
    NameDelivered(s, id, later);
  }

  // ----- What a management request does to the clients that come after it -----

  /**
   * disable_auth takes effect with the next client. Once the request 0C b has been applied, a client
   * that has its first event is held to passwords if b is 0, and to nothing otherwise: its greeting is
   * answered with that method where it offered it, and turned down where it did not.
   */
  lemma MethodSwitched(s: Proxy, option: byte, g': Managements.Globals, metrics: MetricsCounters.Counters,
                       dissectors: byte, id: nat, e: Env, greeting: seq<byte>) returns (s': Proxy)
    requires Inv(s) && |s.users| <= 255 && id in s.conns && ServedClients.Fresh(WorldOf(s, id), id)
    requires var g := Managements.Globals(s.users, s.authMethod, dissectors, metrics);
      Managements.Applied(0x0C, [option], g, g', 0x00)
    requires ServedClients.Greeting(greeting) && e.received == Some(greeting)
    requires e.connect.InProgress? && e.socket.None?
    ensures Legal(s, Configure(g'.users, g'.authMethod))
    ensures var s1 := Proxies.Apply(s, Configure(g'.users, g'.authMethod));
      && s1.Some? && Legal(s1.value, Step.Dispatch(s.conns[id].clientFd, Readable, e))
      && Proxies.Apply(s1.value, Step.Dispatch(s.conns[id].clientFd, Readable, e)) == Some(s')
    ensures var required := if option == 0x00 then 0x02 else 0x00;
      && id in s'.conns && s'.conns[id].state == HelloWrite
      && s'.conns[id].writeBuffer.contents
         == [0x05, if required in Hellos.Offered(greeting) then required else 0xFF]
  {
    hide Inv, ConnOk, Connections.Dispatch, Dials, CallsBounded, ClientArmed, Expected, Due, Plausible;
    var w, key := WorldOf(s, id), s.conns[id].clientFd;
    StepInv(s, Configure(g'.users, g'.authMethod));
    var s1 := Proxies.Apply(s, Configure(g'.users, g'.authMethod)).value;
    var e1 := EnvOf(s1, e);
    FreshDue(s1, id, e1, greeting);
    s' := WithWorld(s1, id, Connections.Dispatch(w, id, key, Readable, e1).value);
    GreetingOutcome(w, id, e1);
    assert [] + greeting == greeting;
  }

  lemma FreshDue(s: Proxy, id: nat, e: Env, greeting: seq<byte>)
    requires Inv(s) && id in s.conns && ServedClients.Fresh(WorldOf(s, id), id)
    requires ServedClients.Greeting(greeting) && e.received == Some(greeting) && e == EnvOf(s, e)
    requires e.connect.InProgress? && e.socket.None?
    ensures Expected(WorldOf(s, id), id, s.conns[id].clientFd, Readable, e)
    ensures Owned(s, s.conns[id].clientFd) && Owner(s, s.conns[id].clientFd) == id
    ensures Legal(s, Step.Dispatch(s.conns[id].clientFd, Readable, e))
    ensures Connections.Dispatch(WorldOf(s, id), id, s.conns[id].clientFd, Readable, e).Some?
  {
    hide Inv, ConnOk, Connections.Dispatch, Dials;
    InvParts(s);
    ServedClients.Arrive(WorldOf(s, id), id, e, greeting);
    EventKept(WorldOf(s, id), id, s.conns[id].clientFd, Readable, e);
  }
}
