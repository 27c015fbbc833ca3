/**
 * The whole proxy: any number of connections over one selector table, resolver threads that
 * finish whenever they like, and an environment that decides what every system call answers.
 */
module Proxies {
  import opened Bytes
  import opened Buffers
  import opened Selectors
  import opened Connections
  import opened ConnectionTables
  import opened ConnectionLogs
  import opened ConnectionInvariants
  import opened Dialing
  import ClientWire
  import FieldParsers
  import Hellos
  import Registries
  import Relays
  import RequestParsers

  /** A resolver thread: its own copy of the selector key. */
  datatype Resolver = Resolver(fd: int, id: nat)

  /**
   * The process: connections by number, what the kernel and the selector hold for them, and the
   * threads' list of finished work.
   */
  datatype Proxy = Proxy(
    conns: map<nat, Conn>,
    next: nat,
    table: Table,
    open: map<int, nat>,
    resolvers: multiset<Resolver>,
    jobs: seq<int>,
    users: seq<Registries.User>,
    authMethod: byte)

  /** One thing that happens. */
  datatype Step =
    | Accept(fd: int, nonBlocking: bool)
    | Dispatch(key: int, event: Event, env: Env)
    | Resolve(resolver: Resolver, found: Option<nat>)
    | Notify(env: Env)
    | Configure(users: seq<Registries.User>, authMethod: byte)

  function WorldOf(s: Proxy, id: nat): World
    requires id in s.conns
  {
    World(s.conns[id], s.table, s.open, false, None)
  }

  /** The globals a handler reads are the proxy's. */
  function EnvOf(s: Proxy, e: Env): Env {
    e.(authMethod := s.authMethod, users := s.users)
  }

  /** The connection an item is for. */
  function Owner(s: Proxy, fd: int): int
    requires fd in s.table
  {
    s.table[fd].data
  }

  predicate Owned(s: Proxy, fd: int) {
    fd in s.table && Owner(s, fd) >= 0 && Owner(s, fd) in s.conns && s.conns[Owner(s, fd)].log.frees == 0
  }

  /** The close handler of a registration that was dropped, on the connection it was leaked by. */
  function Returned(conns: map<nat, Conn>, t: Table, fd: int): map<nat, Conn> {
    if fd in t && t[fd].data >= 0 && t[fd].data in conns then
      var id: nat := t[fd].data;
      conns[id := Unleaked(conns[id], fd)]
    else conns
  }

  function Unleaked(c: Conn, fd: int): Conn {
    Destroy(c.(log := c.log.(leaked := c.log.leaked - {fd})))
  }

  function WithWorld(s: Proxy, id: nat, w: World): Proxy {
    var conns := if w.released.Some? then Returned(s.conns, s.table, w.released.value) else s.conns;
    s.(conns := conns[id := w.c], table := w.table, open := w.open,
       resolvers := if w.spawned then s.resolvers + multiset{Resolver(w.c.clientFd, id)} else s.resolvers)
  }

  /** socksv5_passive_accept; a connection that cannot be watched is dropped at once. */
  function AcceptConn(s: Proxy, fd: int, nonBlocking: bool): Proxy {
    var reg := Register(s.table, fd, SOCKS5_HANDLER, OP_READ, s.next);
    if !nonBlocking || reg.0 != Success then s
    else s.(conns := s.conns[s.next := NewConn(fd)], next := s.next + 1, table := reg.1, open := s.open[fd := s.next])
  }

  /** What the environment and the selector may do next. */
  ghost predicate Legal(s: Proxy, step: Step) {
    match step
    case Accept(fd, _) => fd >= 0 && fd !in s.open
    case Dispatch(key, event, e) =>
      && key in s.table && (event == Readable || event == Writable)
      && (event == Readable ==> s.table[key].interest.read) && (event == Writable ==> s.table[key].interest.write)
      && (Owned(s, key) ==> Answerable(s, key, event, EnvOf(s, e)))
    case Resolve(resolver, _) => resolver in s.resolvers
    case Notify(e) => s.jobs != [] && (Owned(s, s.jobs[0]) ==> Answerable(s, s.jobs[0], Block, EnvOf(s, e)))
    case Configure(_, authMethod) => authMethod == Hellos.NO_AUTHENTICATION || authMethod == Hellos.USERNAME_PASSWORD
  }

  /**
   * The system calls of the handler stay within what they are asked for; a new descriptor is not
   * an open one, and a connect does not succeed at once.
   */
  ghost predicate Answerable(s: Proxy, key: int, event: Event, e: Env)
    requires Owned(s, key)
  {
    var w := WorldOf(s, Owner(s, key));
    && CallsBounded(w.c, key, event, e) && !(e.connect.AtOnce? && Dials(w, event, e))
    && (e.socket.Some? ==> e.socket.value >= 0 && e.socket.value !in s.open)
  }

  /**
   * A handler runs on the structure its item points to: on one that is gone, or where it aborts,
   * the process is lost.
   */
  function RunHandler(s: Proxy, key: int, event: Event, e: Env): Option<Proxy>
    requires Owned(s, key) ==> CallsBounded(s.conns[Owner(s, key)], key, event, e)
  {
    if !Owned(s, key) then None
    else
      var r := Connections.Dispatch(WorldOf(s, Owner(s, key)), Owner(s, key), key, event, e);
      if r.None? then None else Some(WithWorld(s, Owner(s, key), r.value))
  }

  function Apply(s: Proxy, step: Step): Option<Proxy>
    requires Legal(s, step)
  {
    match step
    case Accept(fd, nonBlocking) => Some(AcceptConn(s, fd, nonBlocking))
    case Dispatch(key, event, e) => RunHandler(s, key, event, EnvOf(s, e))
    case Resolve(r, found) =>
      if r.id !in s.conns || s.conns[r.id].log.frees != 0 then None
      else Some(s.(resolvers := s.resolvers - multiset{r}, jobs := [r.fd] + s.jobs,
                   conns := s.conns[r.id := s.conns[r.id].(resolution := found)]))
    case Notify(e) =>
      if s.jobs[0] !in s.table then Some(s.(jobs := s.jobs[1..]))
      else RunHandler(s.(jobs := s.jobs[1..]), s.jobs[0], Block, EnvOf(s, e))
    case Configure(users, authMethod) => Some(s.(users := users, authMethod := authMethod))
  }

  // ----- The invariant -----

  ghost predicate TableOk(s: Proxy) {
    && (forall fd :: fd in s.table ==> !InvalidFd(fd) && Owner(s, fd) >= 0 && Owner(s, fd) in s.conns)
    && (forall fd :: fd in s.open ==> fd >= 0 && s.open[fd] in s.conns)
    && (forall id :: id in s.conns ==> id < s.next)
  }

  /** Resolver threads and finished jobs, for one connection. */
  function Pending(s: Proxy, r: Resolver): nat {
    s.resolvers[r] + multiset(s.jobs)[r.fd]
  }

  /** A connection waits for a resolver exactly when one resolver or one job is its own; there are no others. */
  ghost predicate ResolversOk(s: Proxy) {
    && (forall id :: id in s.conns && s.conns[id].state == RequestResolv ==> Served(s, id))
    && WorkersWanted(s)
  }

  predicate Served(s: Proxy, id: nat)
    requires id in s.conns
  {
    Pending(s, Resolver(s.conns[id].clientFd, id)) == 1
  }

  ghost predicate WorkersWanted(s: Proxy) {
    && (forall r :: r in s.resolvers ==> r.id in s.conns && Waits(s.conns[r.id], r.fd))
    && (forall fd :: fd in s.jobs ==> fd in s.table && Owner(s, fd) in s.conns && Waits(s.conns[Owner(s, fd)], fd))
  }

  predicate Waits(c: Conn, fd: int) {
    c.state == RequestResolv && c.clientFd == fd
  }

  ghost predicate ConnsOk(s: Proxy) {
    forall id :: id in s.conns ==> ConnOk(WorldOf(s, id), id)
  }

  ghost predicate Inv(s: Proxy) {
    && TableOk(s) && ResolversOk(s) && ConnsOk(s)
    && (s.authMethod == Hellos.NO_AUTHENTICATION || s.authMethod == Hellos.USERNAME_PASSWORD)
  }

  /** What is registered for a connection on a descriptor open for another asks for nothing. */
  ghost predicate Hushed(w: World, id: nat) {
    forall fd :: Own(w.table, fd, id) && fd in w.open && w.open[fd] != id ==> w.table[fd].interest == OP_NOOP
  }

  lemma UpheldHushes(w: World, id: nat)
    requires Upheld(w, id)
    ensures Hushed(w, id)
  {
    hide FieldParsers.State.Valid, FieldParsers.WellFormed;
  }

  /** The registration that was released, if any, is not this connection's. */
  predicate Spared(t: Table, released: Option<int>, other: nat) {
    released.Some? ==> !Own(t, released.value, other)
  }

  /** What one connection relies on survives what another one does. */
  lemma ApartShape(w: World, w': World, id: nat, other: nat)
    requires Shape(w, other) && Frame(w, w', id) && other != id && w'.c == w.c && w.released.None?
    requires Hushed(w', id) && Spared(w.table, w'.released, other)
    ensures Shape(w', other)
    ensures w'.table[w.c.clientFd] == w.table[w.c.clientFd]
    ensures Own(w.table, w.c.originFd, other) <==> Own(w'.table, w.c.originFd, other)
    ensures Own(w.table, w.c.originFd, other) ==> w'.table[w.c.originFd] == w.table[w.c.originFd]
  {
    hide FieldParsers.State.Valid, FieldParsers.WellFormed;
  }

  lemma ApartUpheld(w: World, w': World, id: nat, other: nat)
    requires Upheld(w, other) && Frame(w, w', id) && other != id && w'.c == w.c && w.released.None?
    requires Hushed(w', id) && Spared(w.table, w'.released, other)
    ensures Upheld(w', other)
  {
    if !Terminal(w.c.state) {
      ApartShape(w, w', id, other);
      hide Shape, Apart;
    }
  }

  /** A connection whose leaked registration is released holds one less, and is given back when that was the last. */
  lemma ReturnedUpheld(w: World, w': World, id: nat, other: nat)
    requires Upheld(w, other) && Frame(w, w', id) && other != id && w.released.None? && Hushed(w', id)
    requires w'.released.Some? && Own(w.table, w'.released.value, other) && w'.c == Unleaked(w.c, w'.released.value)
    ensures w'.released.value in w.c.log.leaked && Upheld(w', other)
  {
    OthersLeak(w, w', id, other);
    if Terminal(w.c.state) {
      hide Shape, Armed;
      ReturnedEnded(w, w', id, other);
    } else {
      hide Shape, Apart, Hushed, Ended;
      ReturnedShape(w, w', id, other);
    }
  }

  /** What is released of a connection that does not act is one of its leaks. */
  lemma OthersLeak(w: World, w': World, id: nat, other: nat)
    requires Upheld(w, other) && Frame(w, w', id) && other != id && w.released.None?
    requires w'.released.Some? && Own(w.table, w'.released.value, other)
    ensures w'.released.value in w.c.log.leaked
  {
    hide Armed, FieldParsers.State.Valid, FieldParsers.WellFormed;
  }

  lemma ReturnedEnded(w: World, w': World, id: nat, other: nat)
    requires Ended(w, other) && Frame(w, w', id) && other != id && w.released.None?
    requires w'.released.Some? && w'.released.value in w.c.log.leaked && w'.c == Unleaked(w.c, w'.released.value)
    ensures Ended(w', other)
  {
    hide FieldParsers.State.Valid, FieldParsers.WellFormed;
    var leaked, fd := w.c.log.leaked, w'.released.value;
    assert |leaked - {fd}| == |leaked| - 1 && leaked == (leaked - {fd}) + {fd};
  }

  lemma ReturnedShape(w: World, w': World, id: nat, other: nat)
    requires Shape(w, other) && Frame(w, w', id) && other != id && w.released.None? && Hushed(w', id)
    requires w'.released.Some? && w'.released.value in w.c.log.leaked && w'.c == Unleaked(w.c, w'.released.value)
    ensures Shape(w', other)
    ensures w'.table[w.c.clientFd] == w.table[w.c.clientFd]
    ensures Own(w.table, w.c.originFd, other) <==> Own(w'.table, w.c.originFd, other)
    ensures Own(w.table, w.c.originFd, other) ==> w'.table[w.c.originFd] == w.table[w.c.originFd]
  {
    hide FieldParsers.State.Valid, FieldParsers.WellFormed;
    var leaked, fd := w.c.log.leaked, w'.released.value;
    assert |leaked - {fd}| == |leaked| - 1;
  }

  lemma AsideOk(w: World, id: nat, spawned: bool, released: Option<int>)
    ensures ConnOk(w, id) == ConnOk(w.(spawned := spawned, released := released), id)
  {
    hide Streams, Progress;
  }

  /** Putting one connection's new world back. */
  lemma WithWorldOk(s: Proxy, id: nat, w: World)
    requires TableOk(s) && ConnsOk(s) && id in s.conns
    requires Frame(WorldOf(s, id), w, id) && ConnOk(w, id)
    ensures TableOk(WithWorld(s, id, w)) && ConnsOk(WithWorld(s, id, w))
  {
    WithWorldTable(s, id, w);
    var s' := WithWorld(s, id, w);
    hide ConnOk, Apart;
    forall other | other in s'.conns
      ensures ConnOk(WorldOf(s', other), other)
    {
      WithWorldConn(s, id, w, other);
    }
  }

  lemma WithWorldTable(s: Proxy, id: nat, w: World)
    requires TableOk(s) && id in s.conns && Frame(WorldOf(s, id), w, id) && ConnOk(w, id)
    ensures TableOk(WithWorld(s, id, w))
  {
  }

  lemma UnleakedRest(c: Conn, fd: int)
    ensures var d := Unleaked(c, fd);
      d == c.(references := d.references, log := c.log.(leaked := d.log.leaked, frees := d.log.frees))
  {
  }

  lemma WithWorldConn(s: Proxy, id: nat, w: World, other: nat)
    requires TableOk(s) && ConnsOk(s) && id in s.conns && other in s.conns
    requires Frame(WorldOf(s, id), w, id) && ConnOk(w, id)
    ensures ConnOk(WorldOf(WithWorld(s, id, w), other), other)
  {
    var s' := WithWorld(s, id, w);
    if other == id {
      hide ConnOk, Apart;
      AsideOk(w, id, false, None);
      assert WorldOf(s', id) == w.(spawned := false, released := None);
    } else {
      assert ConnOk(WorldOf(s, other), other);
      OtherOk(s, id, w, other);
      hide ConnOk;
      AsideOk(w.(c := s'.conns[other]), other, false, None);
      assert WorldOf(s', other) == w.(c := s'.conns[other], spawned := false, released := None);
    }
  }

  lemma OtherOk(s: Proxy, id: nat, w: World, other: nat)
    requires TableOk(s) && id in s.conns && other in s.conns && other != id
    requires ConnOk(WorldOf(s, other), other) && Frame(WorldOf(s, id), w, id) && ConnOk(w, id)
    ensures ConnOk(w.(c := WithWorld(s, id, w).conns[other]), other)
  {
    hide Streams, Progress, Shape, Armed, Ended, Upheld, FieldParsers.State.Valid;
    var v := WorldOf(s, other);
    var v' := w.(c := WithWorld(s, id, w).conns[other]);
    UpheldHushes(w, id);
    if Spared(s.table, w.released, other) {
      ApartUpheld(v, v', id, other);
    } else {
      UnleakedRest(v.c, w.released.value);
      ReturnedUpheld(v, v', id, other);
      SameStreamsHold(v.c, v'.c);
      SameProgress(v.c, v'.c);
    }
  }

  /** An event on a registered descriptor finds a live connection with a handler for it. */
  lemma HandlerRuns(s: Proxy, key: int, event: Event, e: Env)
    requires TableOk(s) && ConnsOk(s) && key in s.table && (e.authMethod == 0x00 || e.authMethod == 0x02)
    requires Due(WorldOf(s, Owner(s, key)), key, event)
    requires Owned(s, key) ==> Answerable(s, key, event, e)
    ensures Owned(s, key)
    ensures var id: nat := Owner(s, key);
      var r := Connections.Dispatch(WorldOf(s, id), id, key, event, e);
      && r.Some? && Frame(WorldOf(s, id), r.value, id) && ConnOk(r.value, id)
      && r.value.c.clientFd == s.conns[id].clientFd && (r.value.spawned <==> r.value.c.state == RequestResolv)
  {
    hide ConnOk, Apart, ConnsOk, TableOk, Dials, CallsBounded, Connections.Dispatch;
    OwnerKept(s, key);
    var id: nat := Owner(s, key);
    var w := WorldOf(s, id);
    LiveWhenDue(w, id, key, event);
    if e.socket.Some? && e.socket.value in s.table {
      ClosedSilent(s, e.socket.value);
    }
    EventKept(w, id, key, event, e);
  }

  /** A registered descriptor is for a connection in its invariant. */
  lemma OwnerKept(s: Proxy, key: int)
    requires TableOk(s) && ConnsOk(s) && key in s.table
    ensures Owner(s, key) >= 0 && Owner(s, key) in s.conns && ConnOk(WorldOf(s, Owner(s, key)), Owner(s, key))
  {
    hide ConnOk;
  }

  /** A number that is registered though it is closed was leaked: it asks for nothing. */
  lemma ClosedSilent(s: Proxy, fd: int)
    requires TableOk(s) && ConnsOk(s) && fd in s.table && fd !in s.open
    ensures s.table[fd].interest == OP_NOOP && fd in s.conns[Owner(s, fd)].log.leaked
  {
    hide FieldParsers.State.Valid, FieldParsers.WellFormed, Streams, Progress;
    assert ConnOk(WorldOf(s, Owner(s, fd)), Owner(s, fd));
  }

  // ----- Steps -----

  /** Read and write events do not reach a connection that waits for a resolver. */
  lemma NotWaiting(w: World, id: nat, key: int, event: Event)
    requires ConnOk(w, id) && Own(w.table, key, id) && Due(w, key, event) && event != Block
    ensures w.c.state != RequestResolv && Registered(w.table, w.c.clientFd, id)
  {
  }

  /** The client's descriptor of a connection that waits stays its own. */
  lemma WaitingRegistered(w: World, id: nat)
    requires ConnOk(w, id) && w.c.state == RequestResolv
    ensures Registered(w.table, w.c.clientFd, id) && w.c.log.frees == 0
  {
  }

  /** Connections that wait are registered under their clients' descriptors. */
  ghost predicate Held(s: Proxy) {
    forall id :: id in s.conns && s.conns[id].state == RequestResolv ==>
      && Registered(s.table, s.conns[id].clientFd, id)
      && s.conns[id].clientFd in s.open && s.open[s.conns[id].clientFd] == id
  }

  lemma HeldAlways(s: Proxy)
    requires ConnsOk(s)
    ensures Held(s)
  {
  }

  /** Nobody works for a connection that does not wait. */
  lemma NobodyWorks(s: Proxy, id: nat, fd: int)
    requires ResolversOk(s) && id in s.conns && s.conns[id].state != RequestResolv && Registered(s.table, fd, id)
    ensures Resolver(fd, id) !in s.resolvers && fd !in s.jobs && Pending(s, Resolver(fd, id)) == 0
  {
  }

  /** Of the other connections, none changes its state or its client. */
  lemma OthersWait(s: Proxy, id: nat, w: World)
    requires id in s.conns
    ensures var s' := WithWorld(s, id, w);
      && s'.conns.Keys == s.conns.Keys && s'.conns[id] == w.c
      && forall other, fd :: other in s.conns && other != id ==> Waits(s'.conns[other], fd) == Waits(s.conns[other], fd)
  {
  }

  /** No job's registration is released. */
  lemma JobsSpared(s: Proxy, id: nat, w: World, fd: int)
    requires WorkersWanted(s) && Held(s) && id in s.conns && Frame(WorldOf(s, id), w, id)
    requires fd in s.jobs && Owner(s, fd) != id
    ensures fd in w.table && w.table[fd] == s.table[fd]
  {
  }

  lemma WorkersAfterDispatch(s: Proxy, id: nat, w: World)
    requires WorkersWanted(s) && Held(s) && id in s.conns && s.conns[id].state != RequestResolv
    requires Frame(WorldOf(s, id), w, id) && w.c.clientFd == s.conns[id].clientFd
    requires w.spawned ==> w.c.state == RequestResolv
    ensures WorkersWanted(WithWorld(s, id, w))
  {
    hide Apart, Held, Returned;
    var s' := WithWorld(s, id, w);
    OthersWait(s, id, w);
    forall fd | fd in s'.jobs
      ensures fd in s'.table && Owner(s', fd) in s'.conns && Waits(s'.conns[Owner(s', fd)], fd)
    {
      JobsSpared(s, id, w, fd);
    }
    forall r | r in s'.resolvers
      ensures r.id in s'.conns && Waits(s'.conns[r.id], r.fd)
    {
    }
  }

  lemma ServedAfterDispatch(s: Proxy, id: nat, w: World, other: nat)
    requires id in s.conns && other in s.conns && w.c.clientFd == s.conns[id].clientFd
    requires if other == id then w.spawned && Pending(s, Resolver(w.c.clientFd, id)) == 0 else Served(s, other)
    ensures Served(WithWorld(s, id, w), other)
  {
  }

  lemma ResolversAfterDispatch(s: Proxy, id: nat, w: World)
    requires ResolversOk(s) && Held(s) && id in s.conns && s.conns[id].state != RequestResolv
    requires Frame(WorldOf(s, id), w, id)
    requires w.c.clientFd == s.conns[id].clientFd && (w.spawned <==> w.c.state == RequestResolv)
    requires Registered(s.table, w.c.clientFd, id)
    ensures ResolversOk(WithWorld(s, id, w))
  {
    hide WorkersWanted, Apart, Served, Pending, Returned, Held;
    var s' := WithWorld(s, id, w);
    NobodyWorks(s, id, w.c.clientFd);
    WorkersAfterDispatch(s, id, w);
    OthersWait(s, id, w);
    forall other | other in s'.conns && s'.conns[other].state == RequestResolv
      ensures Served(s', other)
    {
      assert Waits(s'.conns[other], s'.conns[other].clientFd);
      assert other != id ==> Waits(s.conns[other], s'.conns[other].clientFd);
      ServedAfterDispatch(s, id, w, other);
    }
  }

  lemma DispatchInv(s: Proxy, key: int, event: Event, e: Env)
    requires Inv(s) && Legal(s, Step.Dispatch(key, event, e))
    ensures Apply(s, Step.Dispatch(key, event, e)).Some? && Inv(Apply(s, Step.Dispatch(key, event, e)).value)
  {
    hide ConnOk, Apart, Connections.Dispatch, CallsBounded, ResolversOk;
    var e' := EnvOf(s, e);
    var id: nat := Owner(s, key);
    var w := WorldOf(s, id);
    assert ConnOk(w, id);
    NotWaiting(w, id, key, event);
    HandlerRuns(s, key, event, e');
    hide TableOk;
    var w' := Connections.Dispatch(w, id, key, event, e').value;
    WithWorldOk(s, id, w');
    HeldAlways(s);
    ResolversAfterDispatch(s, id, w');
    assert Apply(s, Step.Dispatch(key, event, e)) == Some(WithWorld(s, id, w'));
  }

  /** What is left of the resolvers' work once the first job has been delivered. */
  lemma ResolversAfterNotify(s: Proxy, id: nat, w: World)
    requires ResolversOk(s) && Held(s) && s.jobs != [] && id in s.conns && Waits(s.conns[id], s.jobs[0])
    requires Registered(s.table, s.jobs[0], id)
    requires Frame(WorldOf(s, id), w, id) && !w.spawned && w.c.state != RequestResolv
    ensures ResolversOk(WithWorld(s.(jobs := s.jobs[1..]), id, w))
  {
    var s' := WithWorld(s.(jobs := s.jobs[1..]), id, w);
    FirstJobAlone(s, id);
    WorkersAfterNotify(s, id, w);
    OthersWait(s.(jobs := s.jobs[1..]), id, w);
    hide WorkersWanted, Apart, Returned, Served, Pending, Held, ResolversOk;
    forall other | other in s'.conns && s'.conns[other].state == RequestResolv
      ensures Served(s', other)
    {
      assert Waits(s'.conns[other], s'.conns[other].clientFd) && Waits(s.conns[other], s'.conns[other].clientFd);
      OthersElsewhere(s, id, other);
      ServedAfterNotify(s, id, w, other);
    }
  }

  lemma ServedAfterNotify(s: Proxy, id: nat, w: World, other: nat)
    requires s.jobs != [] && id in s.conns && other in s.conns && other != id && !w.spawned
    requires Served(s, other) && s.conns[other].clientFd != s.jobs[0]
    ensures Served(WithWorld(s.(jobs := s.jobs[1..]), id, w), other)
  {
    assert s.jobs == [s.jobs[0]] + s.jobs[1..];
    OthersWait(s.(jobs := s.jobs[1..]), id, w);
  }

  /** The job about to be delivered is all that is pending for its connection. */
  lemma FirstJobAlone(s: Proxy, id: nat)
    requires ResolversOk(s) && s.jobs != [] && id in s.conns && Waits(s.conns[id], s.jobs[0])
    ensures Resolver(s.jobs[0], id) !in s.resolvers && s.jobs[0] !in multiset(s.jobs[1..])
  {
    assert s.jobs == [s.jobs[0]] + s.jobs[1..];
    assert Served(s, id);
  }

  lemma OthersElsewhere(s: Proxy, id: nat, other: nat)
    requires ResolversOk(s) && Held(s) && id in s.conns && other in s.conns && other != id
    requires s.conns[id].state == s.conns[other].state == RequestResolv
    ensures Served(s, other) && s.conns[other].clientFd != s.conns[id].clientFd
  {
  }

  lemma WorkersAfterNotify(s: Proxy, id: nat, w: World)
    requires WorkersWanted(s) && Held(s) && s.jobs != [] && id in s.conns && Waits(s.conns[id], s.jobs[0])
    requires Frame(WorldOf(s, id), w, id) && !w.spawned && Resolver(s.jobs[0], id) !in s.resolvers
    requires s.jobs[0] !in multiset(s.jobs[1..])
    ensures WorkersWanted(WithWorld(s.(jobs := s.jobs[1..]), id, w))
  {
    hide Apart, Held, Returned;
    var s1 := s.(jobs := s.jobs[1..]);
    var s' := WithWorld(s1, id, w);
    OthersWait(s1, id, w);
    forall fd | fd in s'.jobs
      ensures fd in s'.table && Owner(s', fd) in s'.conns && Waits(s'.conns[Owner(s', fd)], fd)
    {
      assert fd in s.jobs && fd != s.jobs[0];
      JobsSpared(s, id, w, fd);
    }
  }

  lemma NotifyInv(s: Proxy, e: Env)
    requires Inv(s) && Legal(s, Notify(e))
    ensures Apply(s, Notify(e)).Some? && Inv(Apply(s, Notify(e)).value)
  {
    hide ConnOk, Apart, Connections.Dispatch, CallsBounded;
    var e', fd := EnvOf(s, e), s.jobs[0];
    assert fd in s.jobs;
    var id: nat := Owner(s, fd);
    var w, s1 := WorldOf(s, id), s.(jobs := s.jobs[1..]);
    assert ConnOk(w, id);
    WaitingRegistered(w, id);
    HeldAlways(s);
    HandlerRuns(s, fd, Block, e');
    ResolvedLeaves(w, id, fd, e');
    hide TableOk, ResolversOk;
    var w' := Connections.Dispatch(w, id, fd, Block, e').value;
    JobsAside(s);
    WithWorldOk(s1, id, w');
    ResolversAfterNotify(s, id, w');
    assert Apply(s, Notify(e)) == Some(WithWorld(s1, id, w'));
  }

  lemma JobsAside(s: Proxy)
    requires TableOk(s) && ConnsOk(s) && s.jobs != []
    ensures TableOk(s.(jobs := s.jobs[1..])) && ConnsOk(s.(jobs := s.jobs[1..]))
  {
  }

  // ----- Resolvers finishing -----

  lemma ResolutionOk(w: World, id: nat, found: Option<nat>)
    requires ConnOk(w, id)
    ensures var w' := w.(c := w.c.(resolution := found));
      ConnOk(w', id) && Frame(w, w', id)
  {
    var w' := w.(c := w.c.(resolution := found));
    SameStreamsHold(w.c, w'.c);
    SameProgress(w.c, w'.c);
    hide Streams, Progress;
    if !Terminal(w.c.state) {
      SameShape(w, w', id);
      hide Shape;
      assert RelayOf(w') == RelayOf(w);
    }
  }

  lemma ResolveInv(s: Proxy, r: Resolver, found: Option<nat>)
    requires Inv(s) && Legal(s, Resolve(r, found))
    ensures Apply(s, Resolve(r, found)).Some? && Inv(Apply(s, Resolve(r, found)).value)
  {
    hide ConnOk, Apart;
    var w := WorldOf(s, r.id);
    var w' := w.(c := w.c.(resolution := found));
    assert ConnOk(w, r.id);
    WaitingRegistered(w, r.id);
    ResolutionOk(w, r.id, found);
    WithWorldOk(s, r.id, w');
    HeldAlways(s);
    ResolversAfterResolve(s, r, found);
    hide TableOk, ResolversOk;
    var s' := Apply(s, Resolve(r, found)).value;
    ThreadsAside(WithWorld(s, r.id, w'), s');
  }

  lemma ThreadsAside(a: Proxy, b: Proxy)
    requires TableOk(a) && ConnsOk(a) && b == a.(resolvers := b.resolvers, jobs := b.jobs)
    ensures TableOk(b) && ConnsOk(b)
  {
  }

  lemma ResolversAfterResolve(s: Proxy, r: Resolver, found: Option<nat>)
    requires ResolversOk(s) && Held(s) && r in s.resolvers && s.conns[r.id].log.frees == 0
    ensures ResolversOk(Apply(s, Resolve(r, found)).value)
  {
    var s' := Apply(s, Resolve(r, found)).value;
    assert Waits(s.conns[r.id], r.fd);
    WorkersAfterResolve(s, r, found);
    hide WorkersWanted, Pending;
    forall other | other in s'.conns && s'.conns[other].state == RequestResolv
      ensures Served(s', other)
    {
      assert Served(s, other);
      PendingAfterResolve(s, r, found, Resolver(s.conns[other].clientFd, other));
    }
  }

  lemma PendingAfterResolve(s: Proxy, r: Resolver, found: Option<nat>, other: Resolver)
    requires r in s.resolvers && r.id in s.conns && s.conns[r.id].log.frees == 0
    requires other == r || other.fd != r.fd
    ensures Pending(Apply(s, Resolve(r, found)).value, other) == Pending(s, other)
  {
  }

  lemma WorkersAfterResolve(s: Proxy, r: Resolver, found: Option<nat>)
    requires WorkersWanted(s) && Held(s) && r in s.resolvers && s.conns[r.id].log.frees == 0
    ensures WorkersWanted(Apply(s, Resolve(r, found)).value)
  {
    var s' := Apply(s, Resolve(r, found)).value;
    forall fd | fd in s'.jobs
      ensures fd in s'.table && Owner(s', fd) in s'.conns && Waits(s'.conns[Owner(s', fd)], fd)
    {
      assert fd == r.fd || fd in s.jobs;
    }
  }

  // ----- Accepting -----

  lemma AcceptInv(s: Proxy, fd: int, nonBlocking: bool)
    requires Inv(s) && Legal(s, Accept(fd, nonBlocking))
    ensures Inv(AcceptConn(s, fd, nonBlocking))
  {
    hide ConnOk, Apart, ResolversOk;
    var s' := AcceptConn(s, fd, nonBlocking);
    if s' != s {
      AcceptedOk(s, fd, nonBlocking);
      ResolversAfterAccept(s, fd, nonBlocking);
      forall id | id in s'.conns
        ensures ConnOk(WorldOf(s', id), id)
      {
        if id != s.next {
          assert ConnOk(WorldOf(s, id), id);
          AcceptedApart(s, s', id);
        }
      }
    }
  }

  lemma AcceptedApart(s: Proxy, s': Proxy, id: nat)
    requires id in s.conns && s.next !in s.conns && s.next in s'.conns
        && s'.conns == s.conns[s.next := s'.conns[s.next]]
    requires ConnOk(WorldOf(s, id), id) && ConnOk(WorldOf(s', s.next), s.next)
    requires Apart(s.table, s.open, None, s'.table, s'.open, None, s.next)
    ensures ConnOk(WorldOf(s', id), id)
  {
    hide Streams, Progress, Apart, Upheld;
    UpheldHushes(WorldOf(s', s.next), s.next);
    ApartUpheld(WorldOf(s, id), WorldOf(s', id), s.next, id);
  }

  lemma ResolversAfterAccept(s: Proxy, fd: int, nonBlocking: bool)
    requires TableOk(s) && ResolversOk(s) && AcceptConn(s, fd, nonBlocking) != s
    ensures ResolversOk(AcceptConn(s, fd, nonBlocking))
  {
    var s' := AcceptConn(s, fd, nonBlocking);
    WorkersAfterAccept(s, fd, nonBlocking);
    assert s'.conns == s.conns[s.next := NewConn(fd)];
    hide WorkersWanted, AcceptConn;
    forall id | id in s'.conns && s'.conns[id].state == RequestResolv
      ensures Served(s', id)
    {
      assert Served(s, id);
    }
  }

  lemma WorkersAfterAccept(s: Proxy, fd: int, nonBlocking: bool)
    requires TableOk(s) && WorkersWanted(s)
    ensures var s' := AcceptConn(s, fd, nonBlocking);
      WorkersWanted(s') && s'.resolvers == s.resolvers && s'.jobs == s.jobs
  {
  }

  /** A connection just accepted: watched for its greeting, and nobody else's descriptors touched. */
  lemma AcceptedOk(s: Proxy, fd: int, nonBlocking: bool)
    requires TableOk(s) && fd >= 0 && fd !in s.open && AcceptConn(s, fd, nonBlocking) != s
    ensures var s' := AcceptConn(s, fd, nonBlocking);
      && s'.conns == s.conns[s.next := NewConn(fd)] && ConnOk(WorldOf(s', s.next), s.next)
      && Apart(s.table, s.open, None, s'.table, s'.open, None, s.next)
  {
    hide FieldParsers.State.Valid, FieldParsers.WellFormed;
    NewConnBegins(fd);
    hide Streams, Progress;
  }

  // ----- Runs -----

  ghost predicate LegalRun(s: Proxy, steps: seq<Step>)
    decreases |steps|
  {
    steps == [] ||
    (Legal(s, steps[0]) && (Apply(s, steps[0]).Some? ==> LegalRun(Apply(s, steps[0]).value, steps[1..])))
  }

  /** Where a run leads: nowhere, when a handler aborts or runs on a connection that is gone. */
  ghost function Run(s: Proxy, steps: seq<Step>): Option<Proxy>
    requires LegalRun(s, steps)
    decreases |steps|
  {
    if steps == [] then Some(s)
    else if Apply(s, steps[0]).None? then None
    else Run(Apply(s, steps[0]).value, steps[1..])
  }

  function Boot(users: seq<Registries.User>, authMethod: byte): Proxy {
    Proxy(map[], 0, map[], map[], multiset{}, [], users, authMethod)
  }

  lemma StepInv(s: Proxy, step: Step)
    requires Inv(s) && Legal(s, step)
    ensures Apply(s, step).Some? && Inv(Apply(s, step).value)
  {
    hide Inv, Legal;
    match step
    case Accept(fd, nonBlocking) => AcceptInv(s, fd, nonBlocking);
    case Dispatch(key, event, e) => DispatchInv(s, key, event, e);
    case Resolve(r, found) => ResolveInv(s, r, found);
    case Notify(e) => NotifyInv(s, e);
    case Configure(users, authMethod) => ConfigureInv(s, users, authMethod);
  }

  lemma ConfigureInv(s: Proxy, users: seq<Registries.User>, authMethod: byte)
    requires Inv(s) && Legal(s, Configure(users, authMethod))
    ensures Apply(s, Configure(users, authMethod)).Some? && Inv(Apply(s, Configure(users, authMethod)).value)
  {
    hide FieldParsers.State.Valid, FieldParsers.WellFormed;
    hide ConnOk;
    var s' := s.(users := users, authMethod := authMethod);
    forall id | id in s'.conns
      ensures ConnOk(WorldOf(s', id), id)
    {
      assert WorldOf(s', id) == WorldOf(s, id);
    }
    assert ResolversOk(s') by {
      forall id | id in s'.conns && s'.conns[id].state == RequestResolv
        ensures Served(s', id)
      {
        assert Served(s, id);
      }
    }
  }

  /**
   * The process survives every run: whatever clients, origins and resolvers do, in whatever
   * order, no handler is missing, no descriptor is closed unregistered, nothing aborts, and no
   * event or resolver ever meets a connection that has been given back.
   */
  lemma {:induction false} RunSurvives(s: Proxy, steps: seq<Step>)
    requires Inv(s) && LegalRun(s, steps)
    ensures Run(s, steps).Some? && Inv(Run(s, steps).value)
    decreases |steps|
  {
    hide Inv, Legal, Apply;
    if steps != [] {
      StepInv(s, steps[0]);
      RunSurvives(Apply(s, steps[0]).value, steps[1..]);
    }
  }

  lemma BootInv(users: seq<Registries.User>, authMethod: byte)
    requires authMethod == Hellos.NO_AUTHENTICATION || authMethod == Hellos.USERNAME_PASSWORD
    ensures Inv(Boot(users, authMethod))
  {
  }

  // ----- What the invariant says -----

  /**
   * Where a registered descriptor is of interest, the connection's state has the handler; and a
   * live connection is always waiting for something.
   */
  lemma InterestsHaveHandlers(s: Proxy, fd: int)
    requires Inv(s) && fd in s.table
    ensures var c := s.conns[Owner(s, fd)];
      && (s.table[fd].interest.read ==> c.state in {HelloRead, UserpassRead, RequestRead, Copy})
      && (s.table[fd].interest.write ==> c.state in {HelloWrite, UserpassWrite, RequestConnecting, RequestWrite, Copy})
  {
    var id: nat := Owner(s, fd);
    assert ConnOk(WorldOf(s, id), id);
    hide Streams, Progress;
    if s.table[fd].interest.read {
      LiveWhenDue(WorldOf(s, id), id, fd, Readable);
      DueHandled(WorldOf(s, id), id, fd, Readable);
    }
    if s.table[fd].interest.write {
      LiveWhenDue(WorldOf(s, id), id, fd, Writable);
      DueHandled(WorldOf(s, id), id, fd, Writable);
    }
  }

  lemma NeverStranded(s: Proxy, id: nat)
    requires Inv(s) && id in s.conns && !Terminal(s.conns[id].state)
    ensures var c := s.conns[id];
      if c.state == RequestResolv then Pending(s, Resolver(c.clientFd, id)) == 1
      else exists fd :: fd in s.table && Owner(s, fd) == id && s.table[fd].interest != OP_NOOP
  {
    var w := WorldOf(s, id);
    assert ConnOk(w, id);
    if w.c.state == RequestResolv {
      assert Served(s, id);
    } else {
      SoundIsArmed(w, id);
      hide ConnOk, TableOk;
      assert w.c.clientFd in s.table;
    }
  }

  lemma SoundIsArmed(w: World, id: nat)
    requires Sound(w, id) && w.c.state != RequestResolv
    ensures Registered(w.table, w.c.clientFd, id)
    ensures w.table[w.c.clientFd].interest != OP_NOOP
         || (Registered(w.table, w.c.originFd, id) && w.table[w.c.originFd].interest != OP_NOOP)
  {
  }

  /** The registrations of a connection. */
  function Registrations(s: Proxy, id: nat): set<int> {
    set fd | fd in s.table && Owner(s, fd) == id
  }

  lemma EndedRegistrations(s: Proxy, id: nat)
    requires id in s.conns && Ended(WorldOf(s, id), id)
    ensures Registrations(s, id) == s.conns[id].log.leaked
  {
    var leaked := s.conns[id].log.leaked;
    forall fd
      ensures fd in Registrations(s, id) <==> fd in leaked
    {
      assert fd in leaked ==> Registered(s.table, fd, id);
    }
  }

  lemma LiveRegistrations(s: Proxy, id: nat)
    requires id in s.conns && Shape(WorldOf(s, id), id)
    ensures var c := s.conns[id];
      && Registrations(s, id) == {c.clientFd} + (if Own(s.table, c.originFd, id) then {c.originFd} else {})
          + c.log.leaked
      && |Registrations(s, id)| == c.references && c.log.frees == 0
  {
    var c := s.conns[id];
    var own := {c.clientFd} + (if Own(s.table, c.originFd, id) then {c.originFd} else {});
    forall fd
      ensures fd in Registrations(s, id) <==> fd in own + c.log.leaked
    {
      assert fd in c.log.leaked ==> Registered(s.table, fd, id);
    }
    assert Registrations(s, id) == own + c.log.leaked;
    assert own !! c.log.leaked;
  }

  /** The reference count is the number of registrations, and the structure is given back once, when there are none. */
  lemma ReferencesCount(s: Proxy, id: nat)
    requires Inv(s) && id in s.conns
    ensures var c := s.conns[id];
      && c.log.frees == (if Registrations(s, id) == {} then 1 else 0)
      && (c.log.frees == 0 ==> c.references == |Registrations(s, id)|)
  {
    var w := WorldOf(s, id);
    assert ConnOk(w, id);
    hide Streams, Progress, Armed, Shape;
    if Terminal(w.c.state) {
      EndedRegistrations(s, id);
    } else {
      LiveRegistrations(s, id);
    }
  }

  /**
   * One resolver, or one job, for a connection that waits; none for any other; and every job finds
   * its connection waiting.
   */
  lemma ResolversExact(s: Proxy, id: nat, fd: int)
    requires Inv(s) && id in s.conns && Registered(s.table, fd, id)
    ensures Pending(s, Resolver(fd, id)) == if Waits(s.conns[id], fd) then 1 else 0
  {
    hide ConnsOk, TableOk;
    if Waits(s.conns[id], fd) {
      assert Served(s, id);
    } else {
      hide Served;
      assert Resolver(fd, id) !in s.resolvers && fd !in s.jobs;
    }
  }

  /**
   * What the parsers ate and what the origin got is a prefix of what the client sent; the client
   * got a prefix of the replies followed by the origin's octets.
   */
  lemma StreamsArePrefixes(s: Proxy, id: nat)
    requires Inv(s) && id in s.conns
    ensures var log := s.conns[id].log;
      && log.eatenHello + log.eatenAuth + log.eatenRequest + log.forwarded <= log.received
      && log.sent <= log.replies + log.originReceived
  {
    assert ConnOk(WorldOf(s, id), id);
  }
}
