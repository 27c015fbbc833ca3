/**
 * When an event has connect called, and what a connect that succeeds at once does to the
 * invariant of the connection's registrations and references: it breaks it, exactly then.
 */
module Dialing {
  import opened Bytes
  import opened Buffers
  import opened Selectors
  import opened Connections
  import opened ConnectionTables
  import ConnectionLogs
  import FieldParsers
  import RequestParsers

  /** socket and the call that makes its descriptor non-blocking succeed. */
  predicate NewSocket(e: Env) {
    e.socket.Some? && e.nonBlocking
  }

  /** The event has connect called on an open descriptor: on arrival in CONNECTING, or there for the next address. */
  predicate Dials(w: World, event: Event, e: Env) {
    match w.c.state
    case RequestRead => event == Readable && NewSocket(e) && RequestsAddress(w.c, e)
    case RequestResolv => event == Block && NewSocket(e) && w.c.resolution.Some?
    case RequestConnecting =>
      && event == Writable && HasMore(w.c)
      && if w.c.status != 0 then w.c.originFd != -1 else e.soError.Some? && e.soError.value.Some?
    case _ => false
  }

  /** The octets received complete a request for an IPv4 or IPv6 address. */
  predicate RequestsAddress(c: Conn, e: Env) {
    && e.received.Some? && |e.received.value| <= c.readBuffer.Room()
    && var r := EatRequest(Received(c, e.received.value)).request;
    RequestParsers.IsDone(r) && r.cmd == RequestParsers.CMD_CONNECT
    && (r.atyp == RequestParsers.ATYP_IPV4 || r.atyp == RequestParsers.ATYP_IPV6)
  }

  /** The same answers, but of connect, which says it is under way. */
  function Later(e: Env): Env {
    e.(connect := InProgress)
  }

  // ----- Events that do not dial -----

  /** An event that does not dial does not ask what connect answers. */
  lemma UndialedSame(w: World, id: nat, key: int, event: Event, e: Env)
    requires CallsBounded(w.c, key, event, e) && !Dials(w, event, e)
    requires w.c.state == RequestConnecting && w.c.status == 0 ==> w.c.originFd != -1
    ensures Dispatch(w, id, key, event, e) == Dispatch(w, id, key, event, Later(e))
  {
    hide FieldParsers.State.Valid, FieldParsers.WellFormed, Handle, Jump, Finish;
    var w0 := First(Idle(w), e);
    HandleUndialed(w0, id, key, event, e);
    if Handle(w0, id, key, event, e).Some? {
      var (w1, p) := Handle(w0, id, key, event, e).value;
      ArrivalUndialed(w0, id, key, event, e);
      JumpUndialed(w1, id, key, p, e);
    }
  }

  lemma HandleUndialed(w: World, id: nat, key: int, event: Event, e: Env)
    requires CallsBounded(w.c, key, event, e)
    requires w.c.state == RequestConnecting ==> !Dials(w, event, e) && (w.c.status == 0 ==> w.c.originFd != -1)
    ensures Handle(w, id, key, event, e) == Handle(w, id, key, event, Later(e))
  {
    hide FieldParsers.State.Valid, FieldParsers.WellFormed, EatRequest, EatHello, EatAuth;
  }

  lemma JumpUndialed(w: World, id: nat, key: int, p: Phase, e: Env)
    requires p == RequestConnecting && w.c.state != RequestConnecting ==> !NewSocket(e)
    ensures Jump(w, id, key, p, e) == Jump(w, id, key, p, Later(e))
  {
    hide Connect, ErrorToClient, OnCopyInit;
  }

  /** A handler that leads to CONNECTING from elsewhere, with a new socket, dials. */
  lemma ArrivalUndialed(w: World, id: nat, key: int, event: Event, e: Env)
    requires CallsBounded(w.c, key, event, e) && !Dials(w, event, e) && Handle(w, id, key, event, e).Some?
    ensures var (w', p) := Handle(w, id, key, event, e).value;
      p == RequestConnecting && w'.c.state != RequestConnecting ==> !NewSocket(e)
  {
    hide OnHelloRead, OnHelloWrite, OnUserpassRead, OnUserpassWrite, OnRequestRead, OnConnecting, OnRequestWrite;
    if w.c.state == RequestRead {
      RequestLeads(w, key, e);
    } else if w.c.state == RequestConnecting {
      ConnectionLogs.ConnectingParse(w, id, key, e);
    } else if w.c.state == Copy || w.c.state == RequestResolv {
    } else {
      OthersLead(w, key, event, e);
    }
  }

  lemma RequestLeads(w: World, key: int, e: Env)
    requires e.received.Some? ==> |e.received.value| <= w.c.readBuffer.Room()
    ensures OnRequestRead(w, key, e).1 == RequestConnecting <==> RequestsAddress(w.c, e)
  {
    hide EatRequest;
    if e.received.Some? {
      ConnectionLogs.EatRequestRest(Received(w.c, e.received.value));
    }
  }

  lemma OthersLead(w: World, key: int, event: Event, e: Env)
    requires w.c.state in {HelloRead, HelloWrite, UserpassRead, UserpassWrite, RequestWrite}
    requires CallsBounded(w.c, key, event, e)
    ensures w.c.state == HelloRead && event == Readable ==> OnHelloRead(w, key, e).1 != RequestConnecting
    ensures w.c.state == HelloWrite && event == Writable ==> OnHelloWrite(w, key, e).1 != RequestConnecting
    ensures w.c.state == UserpassRead && event == Readable ==> OnUserpassRead(w, key, e).1 != RequestConnecting
    ensures w.c.state == UserpassWrite && event == Writable ==> OnUserpassWrite(w, key, e).1 != RequestConnecting
    ensures w.c.state == RequestWrite && event == Writable ==> OnRequestWrite(w, key, e).1 != RequestConnecting
  {
    hide EatHello, EatAuth, Marshal;
  }

  // ----- Events that dial -----

  /**
   * The branch for a connect that succeeds at once takes its reference before it registers. A
   * registration refused leaves the reference without one; a registration made leaves the
   * client armed for READ, which CONNECTING has no handler for.
   */
  lemma AtOnceUnsound(w: World, id: nat, key: int, status: byte)
    requires Shape(w, id) && w.c.originFd != -1 && w.c.state == RequestConnecting
    requires key == w.c.clientFd || (key == w.c.originFd && Own(w.table, key, id))
    ensures var w' := ConnectedAtOnce(w, id, key).0;
      w'.c.state == RequestConnecting && !Sound(WithStatus(w', status), id)
  {
    var w0 := w.(c := w.c.(references := w.c.references + 1));
    var w1 := Watch(w0, key, OP_READ);
    ErrorToClientSame(WithStatus(w1, GENERAL_FAILURE), GENERAL_FAILURE);
    ErrorToClientItems(WithStatus(w1, GENERAL_FAILURE), id, GENERAL_FAILURE);
    hide ErrorToClient, Marshal, FieldParsers.State.Valid, FieldParsers.WellFormed;
  }

  lemma ErrorToClientItems(w: World, id: nat, s: byte)
    ensures var w' := ErrorToClient(w, s);
      w'.c.references == w.c.references && forall fd :: Own(w'.table, fd, id) <==> Own(w.table, fd, id)
  {
  }

  /** Arrival in CONNECTING with a new socket that connects at once. */
  lemma ArrivalUnsound(w: World, id: nat, key: int, e: Env)
    requires Shape(w, id) && Early(w.c) && key == w.c.clientFd && w.c.state == RequestConnecting
    requires Plausible(w, e) && NewSocket(e) && e.connect.AtOnce?
    ensures var w' := ConnectingInit(w, id, key, e);
      w'.c.state == RequestConnecting && !Sound(w', id)
  {
    hide Shape, Apart, ConnectedAtOnce, FieldParsers.State.Valid, FieldParsers.WellFormed;
    var w0 := WithStatus(w, 0x00);
    var w1 := w0.(c := w0.c.(originFd := e.socket.value), open := w0.open[e.socket.value := id]);
    StatusShape(w, id, 0x00);
    SocketShape(w0, id, e.socket.value);
    AtOnceUnsound(w1, id, key, ConnectedAtOnce(w1, id, key).1);
  }

  lemma ConnectAtOnce(w: World, id: nat, key: int, e: Env)
    requires w.c.originFd != -1 && HasMore(w.c) && e.connect.AtOnce?
    ensures var w1 := w.(c := w.c.(more := Some(w.c.more.value - 1)));
      TryNext(w, id, key, e) == (ConnectedAtOnce(w1, id, key).0, RequestConnecting)
  {
    hide ConnectedAtOnce;
  }

  /** The next address, after a failure, that connects at once. */
  lemma RetryUnsound(w: World, id: nat, key: int, e: Env)
    requires Shape(w, id) && w.c.state == RequestConnecting && w.c.originFd != -1 && HasMore(w.c) && e.connect.AtOnce?
    requires key == w.c.clientFd || (key == w.c.originFd && Own(w.table, key, id))
    ensures var (w', p) := TryNext(w, id, key, e);
      p == RequestConnecting && w'.c.state == RequestConnecting && !Sound(w', id)
  {
    hide Shape, Armed, ConnectedAtOnce, TryNext;
    var w1 := w.(c := w.c.(more := Some(w.c.more.value - 1)));
    SameShape(w, w1, id);
    ConnectAtOnce(w, id, key, e);
    var w' := ConnectedAtOnce(w1, id, key).0;
    AtOnceUnsound(w1, id, key, w'.c.status);
    assert WithStatus(w', w'.c.status) == w';
  }

  /** Between two events, or over. */
  ghost predicate Upheld(w: World, id: nat) {
    if Terminal(w.c.state) then Ended(w, id) else Sound(w, id)
  }

  /** The connection as the attempt at the next address finds it. */
  function Retrying(w: World, e: Env): World
    requires Dials(w, Writable, e) && w.c.state == RequestConnecting
  {
    if w.c.status != 0 then w else WithStatus(w, ErrnoToSocks(e.soError.value.value))
  }

  lemma RetryAdvances(w: World, id: nat, key: int, e: Env)
    requires w.c.state == RequestConnecting && CallsBounded(w.c, key, Writable, e) && Dials(w, Writable, e)
    requires TryNext(Retrying(w, e), id, key, e).1 == RequestConnecting
    requires TryNext(Retrying(w, e), id, key, e).0.c.state == RequestConnecting
    ensures Advance(w, id, key, Writable, e) == Some(TryNext(Retrying(w, e), id, key, e).0)
  {
    hide TryNext;
  }

  lemma RetryDispatched(w: World, id: nat, key: int, e: Env)
    requires Sound(w, id) && w.c.state == RequestConnecting && Own(w.table, key, id)
    requires key == w.c.clientFd || key == w.c.originFd
    requires CallsBounded(w.c, key, Writable, e) && Dials(w, Writable, e) && e.connect.AtOnce?
    ensures var r := Advance(w, id, key, Writable, e);
      r.Some? && !Upheld(r.value, id)
  {
    RetryHasOrigin(w, id, e);
    hide Shape, Armed, TryNext, Advance, Ended;
    StatusShape(w, id, Retrying(w, e).c.status);
    assert w.c.status != 0 ==> Retrying(w, e) == w;
    RetryUnsound(Retrying(w, e), id, key, e);
    RetryAdvances(w, id, key, e);
  }

  lemma RetryHasOrigin(w: World, id: nat, e: Env)
    requires Sound(w, id) && w.c.state == RequestConnecting && Dials(w, Writable, e)
    ensures w.c.originFd != -1
  {
  }

  lemma DialedUnsound(w: World, id: nat, key: int, event: Event, e: Env)
    requires Sound(w, id) && Due(w, key, event) && (event != Block ==> Own(w.table, key, id))
    requires Plausible(w, e) && CallsBounded(w.c, key, event, e) && Answers(First(w, e).c, e)
    requires e.connect.AtOnce? && Dials(w, event, e)
    ensures var r := Dispatch(w, id, key, event, e);
      r.Some? && !Upheld(r.value, id)
  {
    DueHandled(w, id, key, event);
    FirstSound(w, id, e);
    hide Shape, Armed, Apart, Advance, Ended, Answers, Due, RequestsAddress, FieldParsers.State.Valid;
    if w.c.state == RequestConnecting {
      RetryDispatched(First(Idle(w), e), id, key, e);
    } else {
      ArrivalDispatched(First(Idle(w), e), id, key, event, e);
    }
  }

  lemma AdvanceArrives(w: World, id: nat, key: int, event: Event, e: Env, w1: World)
    requires CallsBounded(w.c, key, event, e) && Handle(w, id, key, event, e) == Some((w1, RequestConnecting))
    requires w1.c.state != RequestConnecting
    ensures Advance(w, id, key, event, e)
        == Some(ConnectingInit(w1.(c := w1.c.(state := RequestConnecting)), id, key, e))
  {
    hide Handle, ConnectingInit;
  }

  lemma ArrivalDispatched(w: World, id: nat, key: int, event: Event, e: Env)
    requires Sound(w, id) && Due(w, key, event) && (event != Block ==> Own(w.table, key, id)) && w.released.None?
    requires Plausible(w, e) && CallsBounded(w.c, key, event, e) && Answers(w.c, e)
    requires e.connect.AtOnce? && Dials(w, event, e) && w.c.state != RequestConnecting
    ensures var r := Advance(w, id, key, event, e);
      r.Some? && !Upheld(r.value, id)
  {
    ArrivesDialing(w, id, key, event, e);
    assert NewSocket(e);
    var w1 := Handle(w, id, key, event, e).value.0;
    AdvanceArrives(w, id, key, event, e, w1);
    hide Shape, Armed, Apart, Handle, Advance, ConnectingInit, Ended, Answers, Dials, Due, Plausible;
    var w2 := w1.(c := w1.c.(state := RequestConnecting));
    SameShape(w1, w2, id);
    ArrivalUnsound(w2, id, key, e);
  }

  lemma ArrivesDialing(w: World, id: nat, key: int, event: Event, e: Env)
    requires Sound(w, id) && Due(w, key, event) && (event != Block ==> Own(w.table, key, id)) && w.released.None?
    requires Plausible(w, e) && CallsBounded(w.c, key, event, e) && Answers(w.c, e)
    requires Dials(w, event, e) && w.c.state != RequestConnecting
    ensures key == w.c.clientFd
    ensures var r := Handle(w, id, key, event, e);
      && r.Some? && r.value.1 == RequestConnecting
      && var w1 := r.value.0;
      Shape(w1, id) && Early(w1.c) && w1.c.state == w.c.state && w1.c.clientFd == w.c.clientFd && Plausible(w1, e)
  {
    DueHandled(w, id, key, event);
    HandleReady(w, id, key, event, Later(e));
    HandleUndialed(w, id, key, event, e);
    if w.c.state == RequestRead {
      RequestLeads(w, key, e);
    }
    hide Shape, Armed, Apart, OnRequestRead, FieldParsers.State.Valid, FieldParsers.WellFormed;
    var (w1, p) := Handle(w, id, key, event, e).value;
    StillPlausible(w, w1, id, e);
  }

  /** An event keeps the connection sound, whatever connect answers an event that does not dial. */
  lemma DispatchSound(w: World, id: nat, key: int, event: Event, e: Env)
    requires Sound(w, id) && Due(w, key, event) && (event != Block ==> Own(w.table, key, id))
    requires Plausible(w, e) && CallsBounded(w.c, key, event, e) && Answers(First(w, e).c, e)
    requires !(e.connect.AtOnce? && Dials(w, event, e))
    ensures var r := Dispatch(w, id, key, event, e);
      && r.Some? && Frame(Idle(w), r.value, id) && Upheld(r.value, id)
      && r.value.c.clientFd == w.c.clientFd && (r.value.spawned <==> r.value.c.state == RequestResolv)
  {
    if e.connect.AtOnce? {
      UndialedSame(w, id, key, event, e);
      hide Shape, Armed, Apart, Dispatch, Answers, Ended;
      AnswersLater(First(w, e).c, e);
      NotAtOnceSound(w, id, key, event, Later(e));
    } else {
      NotAtOnceSound(w, id, key, event, e);
    }
  }

  lemma AnswersLater(c: Conn, e: Env)
    requires Answers(c, e)
    ensures Answers(c, Later(e))
  {
  }

  /**
   * When a connection stays sound, for every event: exactly when it is not one that dials and
   * whose connect succeeds at once. The process survives that event itself.
   */
  lemma SoundIffNotAtOnce(w: World, id: nat, key: int, event: Event, e: Env)
    requires Sound(w, id) && Due(w, key, event) && (event != Block ==> Own(w.table, key, id))
    requires Plausible(w, e) && CallsBounded(w.c, key, event, e) && Answers(First(w, e).c, e)
    ensures var r := Dispatch(w, id, key, event, e);
      r.Some? && (Upheld(r.value, id) <==> !(e.connect.AtOnce? && Dials(w, event, e)))
  {
    if e.connect.AtOnce? && Dials(w, event, e) {
      DialedUnsound(w, id, key, event, e);
    } else {
      DispatchSound(w, id, key, event, e);
    }
  }

  // ----- What the broken invariant costs -----

  /** One reference more than there are registrations. */
  ghost predicate Overcounted(w: World, id: nat) {
    Shape(w.(c := w.c.(references := w.c.references - 1)), id)
  }

  /** A retry on the registered origin that connects at once is reported as a failure, one reference too many. */
  lemma RetryOvercounts(w: World, id: nat, key: int, e: Env)
    requires Shape(w, id) && w.c.state == RequestConnecting && HasMore(w.c) && e.connect.AtOnce?
    requires key == w.c.originFd && Own(w.table, key, id)
    ensures var w' := TryNext(w, id, key, e).0;
      Overcounted(w', id) && Own(w'.table, w'.c.originFd, id) && w'.c.status == GENERAL_FAILURE
  {
    hide FieldParsers.State.Valid, FieldParsers.WellFormed;
    var w1 := WithStatus(Watch(w, key, OP_READ), GENERAL_FAILURE);
    WatchShape(w, id, key, OP_READ);
    StatusShape(Watch(w, key, OP_READ), id, GENERAL_FAILURE);
    hide Shape;
    ErrorToClientShape(w1, id, GENERAL_FAILURE);
    var w' := TryNext(w, id, key, e).0;
    SameShape(ErrorToClient(w1, GENERAL_FAILURE), w'.(c := w'.c.(references := w'.c.references - 1)), id);
  }

  /** Such a connection, taken down, leaves no registration and no descriptor behind, and is never given back. */
  lemma OvercountedLost(w: World, id: nat)
    requires Overcounted(w, id) && w.c.log.leaked == {} && (w.c.originFd != -1 ==> Own(w.table, w.c.originFd, id))
    ensures var r := Finish(w, id);
      && r.Some? && r.value.c.log.frees == 0
      && (forall fd :: fd in r.value.table ==> r.value.table[fd].data != id)
      && (forall fd :: fd in r.value.open ==> r.value.open[fd] != id)
  {
    hide FieldParsers.State.Valid, FieldParsers.WellFormed;
  }
}
