/**
 * What the client has been told, octet for octet: the answer to its greeting, the outcome of its
 * credentials, and of its request either one success or nothing but failures.
 */
module ConnectionReplies {
  import opened Bytes
  import opened Buffers
  import opened Selectors
  import opened Connections
  import opened ConnectionTables
  import opened ConnectionLogs
  import ClientWire
  import FieldParsers
  import Hellos
  import Relays
  import RequestParsers

  /** Replies to a request, each with the status of a failure. */
  predicate Failures(s: seq<byte>)
    decreases |s|
  {
    s == [] || (|s| >= 10 && s[1] != 0x00 && s[..10] == Reply(s[1]) && Failures(s[10..]))
  }

  lemma {:induction false} FailuresMore(s: seq<byte>, status: byte)
    requires Failures(s) && status != 0x00
    ensures Failures(s + Reply(status))
    decreases |s|
  {
    var r := Reply(status);
    if s == [] {
      assert s + r == r && r[..10] == r && r[10..] == [];
    } else {
      FailuresMore(s[10..], status);
      assert (s + r)[..10] == s[..10] && (s + r)[10..] == s[10..] + r && (s + r)[1] == s[1];
    }
  }

  // ----- The invariant -----

  /** What is said before a request: the method, and where that is passwords, that they were right. */
  predicate Opened(chosen: byte, s: seq<byte>) {
    && |s| >= 2 && s[..2] == [0x05, chosen]
    && if chosen == 0x02 then |s| > 2 && Repeats(s[2..], [0x01, 0x00]) else |s| == 2
  }

  /** Then a success, once. */
  predicate Accepted(chosen: byte, s: seq<byte>) {
    |s| >= 10 && Opened(chosen, s[..|s| - 10]) && s[|s| - 10..] == Reply(0x00)
  }

  /** Or failures, and no success among them. */
  predicate DeniedAfter(chosen: byte, s: seq<byte>, n: nat) {
    n <= |s| && Opened(chosen, s[..n]) && Failures(s[n..])
  }

  ghost predicate Denied(chosen: byte, s: seq<byte>) {
    exists n: nat :: DeniedAfter(chosen, s, n)
  }

  ghost predicate Spoken(c: Conn) {
    match c.state
    case HelloRead => c.log.replies == [] && c.log.sent == []
    case HelloWrite => c.log.replies == [0x05, c.hello.chosen]
    case UserpassRead => c.log.replies == [0x05, 0x02] && c.log.sent == c.log.replies
    case UserpassWrite =>
      && |c.log.replies| >= 2 && c.log.replies[..2] == [0x05, 0x02] && |c.log.sent| >= 2 && c.authentication <= 0x01
      && Repeats(c.log.replies[2..], [0x01, c.authentication])
    case RequestRead => Opened(c.hello.chosen, c.log.replies) && c.log.sent == c.log.replies
    case RequestResolv => Opened(c.hello.chosen, c.log.replies) && c.log.sent == c.log.replies
    case RequestConnecting =>
      if c.status == 0x00 then Opened(c.hello.chosen, c.log.replies) && c.log.sent == c.log.replies
      else Denied(c.hello.chosen, c.log.replies)
    case RequestWrite =>
      if c.status == 0x00 then Accepted(c.hello.chosen, c.log.replies) else Denied(c.hello.chosen, c.log.replies)
    case Copy => c.status == 0x00 && Accepted(c.hello.chosen, c.log.replies)
    case Done => true
    case Error => true
  }

  /** Everything said has been sent exactly when nothing is buffered. */
  lemma AllSent(c: Conn)
    requires Downstream(c) && c.log.originReceived == []
    ensures c.log.sent == c.log.replies <==> c.writeBuffer.contents == []
    ensures |c.log.sent| + |c.writeBuffer.contents| == |c.log.replies|
  {
    assert c.log.replies + [] == c.log.replies;
    assert |c.log.sent + c.writeBuffer.contents| == |c.log.sent| + |c.writeBuffer.contents|;
    if c.writeBuffer.contents == [] {
      assert c.log.sent + [] == c.log.sent;
    }
  }

  // ----- The handlers -----

  predicate Roomy(c: Conn) {
    c.writeBuffer.Valid() && c.writeBuffer.limit == BUFFER_SIZE
  }

  /** What a handler must leave said to move to state p. */
  ghost predicate Says(c: Conn, p: Phase) {
    if p == RequestConnecting && c.state != RequestConnecting then
      Opened(c.hello.chosen, c.log.replies) && c.log.sent == c.log.replies && Roomy(c)
    else Spoken(c.(state := p))
  }

  /** The buffer and the streams of a connection that is handled. */
  ghost predicate Sane(c: Conn) {
    Streams(c) && Progress(c) && Roomy(c) && c.started
  }

  lemma HelloReadSays(w: World, key: int, e: Env)
    requires Sane(w.c) && Spoken(w.c) && w.c.state == HelloRead && CallsBounded(w.c, key, Readable, e)
    ensures var (w', p) := OnHelloRead(w, key, e);
      Says(w'.c, p)
  {
    AllSent(w.c);
    hide Progress, Hellos.Take;
    assert forall s: seq<byte> :: [] + s == s;
  }

  lemma HelloWriteSays(w: World, key: int, e: Env)
    requires Sane(w.c) && Spoken(w.c) && w.c.state == HelloWrite && CallsBounded(w.c, key, Writable, e)
    ensures var (w', p) := OnHelloWrite(w, key, e);
      Says(w'.c, p)
  {
    ChosenMethod(w.c);
    if e.sent.Some? {
      SentStreams(w.c, e.sent.value);
      AllSent(Sent(w.c, e.sent.value));
    }
    hide Progress;
  }

  lemma UserpassReadSays(w: World, key: int, e: Env)
    requires Sane(w.c) && Spoken(w.c) && w.c.state == UserpassRead && CallsBounded(w.c, key, Readable, e)
    ensures var (w', p) := OnUserpassRead(w, key, e);
      Says(w'.c, p)
  {
    hide Progress, FieldParsers.Take, FieldParsers.State.Valid, FieldParsers.WellFormed;
  }

  lemma UserpassWriteSays(w: World, key: int, e: Env)
    requires Sane(w.c) && Spoken(w.c) && w.c.state == UserpassWrite && CallsBounded(w.c, key, Writable, e)
    ensures var (w', p) := OnUserpassWrite(w, key, e);
      Says(w'.c, p)
  {
    hide Sane, FieldParsers.State.Valid, FieldParsers.WellFormed, WithAuthReply, Repeats, Downstream;
    var c := WithAuthReply(w.c);
    AnswerDue(w.c);
    if e.sent.Some? {
      SentDown(c, e.sent.value);
      AllSent(Sent(c, e.sent.value));
    }
  }

  lemma SentDown(c: Conn, n: nat)
    requires Downstream(c) && n <= |c.writeBuffer.contents|
    ensures Downstream(Sent(c, n))
  {
  }

  lemma AnswerDue(c: Conn)
    requires Sane(c) && Spoken(c) && c.state == UserpassWrite
    ensures var d := WithAuthReply(c);
      && d == c.(writeBuffer := d.writeBuffer, log := c.log.(replies := d.log.replies))
      && c.hello.chosen == 0x02 && c.authentication <= 0x01 && |d.log.replies| > 2
      && d.log.replies[..2] == [0x05, 0x02] && |d.log.sent| >= 2
      && Repeats(d.log.replies[2..], [0x01, c.authentication]) && Downstream(d) && d.log.originReceived == []
  {
    AllSent(c);
    AnswerAppended(c);
    MarshalStreams(c, [0x01, c.authentication]);
    hide FieldParsers.State.Valid, FieldParsers.WellFormed, Repeats;
  }

  /** There is an answer to send: one is appended, or one is still buffered. */
  lemma AnswerAppended(c: Conn)
    requires Roomy(c) && Spoken(c) && c.state == UserpassWrite
    requires |c.log.sent| + |c.writeBuffer.contents| == |c.log.replies|
    ensures var d := WithAuthReply(c);
      && d == c.(writeBuffer := d.writeBuffer, log := c.log.(replies := d.log.replies))
      && |d.log.replies| > 2 && d.log.replies[..2] == [0x05, 0x02]
      && Repeats(d.log.replies[2..], [0x01, c.authentication])
  {
    var text := [0x01, c.authentication];
    RepeatsMore(c.log.replies[2..], text);
    assert (c.log.replies + text)[2..] == c.log.replies[2..] + text;
  }

  lemma RequestReadSays(w: World, key: int, e: Env)
    requires Sane(w.c) && Spoken(w.c) && w.c.state == RequestRead && CallsBounded(w.c, key, Readable, e)
    ensures var (w', p) := OnRequestRead(w, key, e);
      Says(w'.c, p)
  {
    if e.received.Some? {
      ProgressAnswers(w.c, e);
      EatRequestRest(Received(w.c, e.received.value));
    }
    hide Progress, EatRequest, FieldParsers.State.Valid, FieldParsers.WellFormed, Opened;
  }

  lemma FailureAdded(chosen: byte, s: seq<byte>, status: byte)
    requires Denied(chosen, s) && status != 0x00
    ensures Denied(chosen, s + Reply(status))
  {
    hide Opened, Failures, Reply;
    var n: nat :| DeniedAfter(chosen, s, n);
    var t := s + Reply(status);
    FailuresMore(s[n..], status);
    assert t[..n] == s[..n] && t[n..] == s[n..] + Reply(status);
    assert DeniedAfter(chosen, t, n);
  }

  lemma NothingFailedYet(c: Conn)
    requires Opened(c.hello.chosen, c.log.replies)
    ensures Denied(c.hello.chosen, c.log.replies)
  {
    hide Opened;
    var a := c.log.replies;
    assert a[..|a|] == a && a[|a|..] == [] && Failures([]);
    assert DeniedAfter(c.hello.chosen, a, |a|);
  }

  /** A failure is told whole, or not at all where there is no room. */
  lemma FailureSaid(c: Conn, s: byte)
    requires s != 0x00 && (Opened(c.hello.chosen, c.log.replies) || Denied(c.hello.chosen, c.log.replies))
    ensures Denied(c.hello.chosen, Marshal(c, Reply(s)).log.replies)
  {
    hide Opened, Denied;
    if Opened(c.hello.chosen, c.log.replies) {
      NothingFailedYet(c);
    }
    FailureAdded(c.hello.chosen, c.log.replies, s);
  }

  lemma ResolvedSays(w: World, key: int)
    requires Sane(w.c) && Spoken(w.c) && w.c.state == RequestResolv
    ensures var (w', p) := OnResolved(w, key);
      Says(w'.c, p)
  {
    AllSent(w.c);
    hide Progress, FieldParsers.State.Valid, FieldParsers.WellFormed, Opened, Denied, Marshal;
    FailureSaid(w.c.(status := GENERAL_FAILURE), GENERAL_FAILURE);
    MarshalSays(w.c.(status := GENERAL_FAILURE), Reply(GENERAL_FAILURE));
  }

  lemma MarshalSays(c: Conn, reply: seq<byte>)
    ensures var d := Marshal(c, reply);
      d == c.(writeBuffer := d.writeBuffer, log := c.log.(replies := d.log.replies))
  {
  }

  lemma ErrorToClientSays(w: World, s: byte)
    ensures ErrorToClient(w, s).c == Marshal(w.c, Reply(s))
  {
    hide FieldParsers.State.Valid, FieldParsers.WellFormed;
  }

  /** What connection says, and the status it leaves: nothing on success, the failure it returns otherwise. */
  lemma ConnectSays(w: World, id: nat, key: int, e: Env)
    ensures var (w', s) := Connect(w, id, key, e);
      && w'.c.hello == w.c.hello && w'.c.state == w.c.state && w'.c.log.sent == w.c.log.sent
      && w'.c.status == (if s == 0x00 then w.c.status else s)
      && w'.c.log.replies == (if s == 0x00 then w.c.log.replies else Marshal(w.c, Reply(s)).log.replies)
  {
    hide FieldParsers.State.Valid, FieldParsers.WellFormed, ErrorToClient, ConnectedAtOnce, ConnectionBegun, Marshal;
    if e.connect.Failed? || w.c.originFd == -1 {
      var s := ErrnoToSocks(if w.c.originFd == -1 then Other else e.connect.errno);
      FailureTells(w, s);
    } else if e.connect.AtOnce? {
      AtOnceSays(w, id, key);
    } else {
      BegunSays(w, id, key);
    }
  }

  /** What a failed attempt changes of what was said. */
  lemma FailureTells(w: World, s: byte)
    ensures var d := ErrorToClient(WithStatus(w, s), s).c;
      && d.hello == w.c.hello && d.state == w.c.state && d.log.sent == w.c.log.sent && d.status == s
      && d.log.replies == Marshal(w.c, Reply(s)).log.replies
  {
    hide FieldParsers.State.Valid, FieldParsers.WellFormed, ErrorToClient;
    ErrorToClientSays(WithStatus(w, s), s);
  }

  lemma AtOnceSays(w: World, id: nat, key: int)
    ensures var (w', s) := ConnectedAtOnce(w, id, key);
      && w'.c.hello == w.c.hello && w'.c.state == w.c.state && w'.c.log.sent == w.c.log.sent
      && w'.c.status == (if s == 0x00 then w.c.status else s)
      && w'.c.log.replies == (if s == 0x00 then w.c.log.replies else Marshal(w.c, Reply(s)).log.replies)
  {
    hide FieldParsers.State.Valid, FieldParsers.WellFormed, ErrorToClient, Reply;
    var w0 := w.(c := w.c.(references := w.c.references + 1));
    FailureTells(w0, GENERAL_FAILURE);
    FailureTells(Watch(w0, key, OP_READ), GENERAL_FAILURE);
  }

  lemma BegunSays(w: World, id: nat, key: int)
    ensures var (w', s) := ConnectionBegun(w, id, key);
      && w'.c.hello == w.c.hello && w'.c.state == w.c.state && w'.c.log.sent == w.c.log.sent
      && w'.c.status == (if s == 0x00 then w.c.status else s)
      && w'.c.log.replies == (if s == 0x00 then w.c.log.replies else Marshal(w.c, Reply(s)).log.replies)
  {
    hide FieldParsers.State.Valid, FieldParsers.WellFormed, ErrorToClient, Reply;
    FailureTells(w, GENERAL_FAILURE);
    FailureTells(Watch(w, key, OP_NOOP), GENERAL_FAILURE);
  }

  lemma TryNextSays(w: World, id: nat, key: int, e: Env)
    requires HasMore(w.c) && w.c.state == RequestConnecting && w.c.status != 0x00 && Roomy(w.c)
    requires (Opened(w.c.hello.chosen, w.c.log.replies) && w.c.writeBuffer.contents == [])
        || Denied(w.c.hello.chosen, w.c.log.replies)
    ensures var (w', p) := TryNext(w, id, key, e);
      Says(w'.c, p) && w'.c.state == RequestConnecting
  {
    var w1 := w.(c := w.c.(more := Some(w.c.more.value - 1)));
    var s := Connect(w1, id, key, e).1;
    ConnectSays(w1, id, key, e);
    if s != 0x00 {
      FailureSaid(w1.c, s);
    } else if Opened(w.c.hello.chosen, w.c.log.replies) {
      NothingFailedYet(w.c);
    }
    hide Connect, Opened, Denied, Marshal, FieldParsers.State.Valid, FieldParsers.WellFormed;
  }

  lemma AfterFailureSays(w: World, id: nat, key: int, e: Env)
    requires Roomy(w.c) && w.c.state == RequestConnecting && w.c.status != 0x00
        && Denied(w.c.hello.chosen, w.c.log.replies)
    ensures var (w', p) := AfterFailure(w, id, key, e);
      Says(w'.c, p)
  {
    hide Opened, Denied, Marshal, ErrorToClient, TryNext, Drop, Close, FieldParsers.State.Valid;
    hide FieldParsers.WellFormed;
    if HasMore(w.c) {
      TryNextSays(w, id, key, e);
    } else {
      var w1 := Close(Drop(w, id, w.c.originFd), id, w.c.originFd);
      DropSame(w, id, w.c.originFd);
      var w2 := w1.(c := w1.c.(originFd := -1));
      ErrorToClientSays(w2, w2.c.status);
      FailureSaid(w2.c, w2.c.status);
      MarshalSays(w2.c, Reply(w2.c.status));
    }
  }

  lemma ConnectingSays(w: World, id: nat, key: int, e: Env)
    requires Sane(w.c) && Spoken(w.c) && w.c.state == RequestConnecting
    ensures var (w', p) := OnConnecting(w, id, key, e);
      Says(w'.c, p)
  {
    AllSent(w.c);
    hide Progress, Streams, Opened, Denied, Marshal, ErrorToClient, AfterFailure, TryNext, FieldParsers.State.Valid;
    hide FieldParsers.WellFormed, Accepted;
    if w.c.status != 0x00 {
      AfterFailureSays(w, id, key, e);
    } else if e.soError.None? {
      OnlyFailure(w, GENERAL_FAILURE);
    } else if e.soError.value.None? {
      ConnectedSays(w, key);
    } else {
      var s := ErrnoToSocks(e.soError.value.value);
      OnlyFailure(w, s);
      if HasMore(w.c) {
        TryNextSays(WithStatus(w, s), id, key, e);
      }
    }
  }

  /** The only attempt has failed, and the client is told. */
  lemma OnlyFailure(w: World, s: byte)
    requires Sane(w.c) && Spoken(w.c) && w.c.state == RequestConnecting && w.c.status == 0x00 && s != 0x00
    ensures Says(ErrorToClient(WithStatus(w, s), s).c, RequestWrite)
  {
    AllSent(w.c);
    hide Progress, Streams, Opened, Denied, Marshal, ErrorToClient, FieldParsers.State.Valid, FieldParsers.WellFormed;
    ErrorToClientSays(WithStatus(w, s), s);
    FailureSaid(w.c.(status := s), s);
    MarshalSays(w.c.(status := s), Reply(s));
  }

  lemma ConnectedSays(w: World, key: int)
    requires Sane(w.c) && Spoken(w.c) && w.c.state == RequestConnecting && w.c.status == 0x00
    ensures var (w', p) := Connected(w, key);
      Says(w'.c, p)
  {
    AllSent(w.c);
    var a := w.c.log.replies;
    assert (a + Reply(0x00))[..|a + Reply(0x00)| - 10] == a
        && (a + Reply(0x00))[|a + Reply(0x00)| - 10..] == Reply(0x00);
    hide Progress, Streams, Opened, FieldParsers.State.Valid, FieldParsers.WellFormed;
  }

  lemma RequestWriteSays(w: World, key: int, e: Env)
    requires Spoken(w.c) && w.c.state == RequestWrite && CallsBounded(w.c, key, Writable, e)
    ensures var (w', p) := OnRequestWrite(w, key, e);
      Says(w'.c, p)
  {
    hide Accepted, Denied, FieldParsers.State.Valid, FieldParsers.WellFormed;
  }

  lemma CopySays(w: World, id: nat, key: int, event: Event, e: Env)
    requires Spoken(w.c) && w.c.state == Copy && CallsBounded(w.c, key, event, e) && Handle(w, id, key, event, e).Some?
    ensures var (w', p) := Handle(w, id, key, event, e).value;
      Says(w'.c, p)
  {
    hide Accepted, Denied, Relays.CopyRead, Relays.CopyWrite, FieldParsers.State.Valid, FieldParsers.WellFormed;
  }

  lemma HandleSays(w: World, id: nat, key: int, event: Event, e: Env)
    requires Sane(w.c) && Spoken(w.c) && CallsBounded(w.c, key, event, e) && Handle(w, id, key, event, e).Some?
    ensures var (w', p) := Handle(w, id, key, event, e).value;
      Says(w'.c, p)
  {
    hide Sane, Spoken, Says, OnHelloRead, OnHelloWrite, OnUserpassRead, OnUserpassWrite, OnRequestRead;
    hide OnResolved, OnConnecting, OnRequestWrite, OnCopyRead, OnCopyWrite;
    match w.c.state {
      case HelloRead => HelloReadSays(w, key, e);
      case HelloWrite => HelloWriteSays(w, key, e);
      case UserpassRead => UserpassReadSays(w, key, e);
      case UserpassWrite => UserpassWriteSays(w, key, e);
      case RequestRead => RequestReadSays(w, key, e);
      case RequestResolv => ResolvedSays(w, key);
      case RequestConnecting => ConnectingSays(w, id, key, e);
      case RequestWrite => RequestWriteSays(w, key, e);
      case Copy => CopySays(w, id, key, event, e);
    }
  }

  /** Arrival in CONNECTING: under way and nothing said, or a failure told. */
  lemma ConnectingInitSays(w: World, id: nat, key: int, e: Env)
    requires Roomy(w.c) && w.c.state == RequestConnecting && w.c.writeBuffer.contents == []
    requires Opened(w.c.hello.chosen, w.c.log.replies) && w.c.log.sent == w.c.log.replies
    ensures Spoken(ConnectingInit(w, id, key, e).c)
  {
    hide Connect, ErrorToClient, Opened, Denied, Marshal, FieldParsers.State.Valid, FieldParsers.WellFormed;
    var w0 := WithStatus(w, 0x00);
    if e.socket.None? {
      var w1 := w0.(c := w0.c.(originFd := -1, status := GENERAL_FAILURE));
      ErrorToClientSays(w1, GENERAL_FAILURE);
      FailureSaid(w1.c, GENERAL_FAILURE);
      MarshalSays(w1.c, Reply(GENERAL_FAILURE));
    } else {
      var w1 := w0.(c := w0.c.(originFd := e.socket.value), open := w0.open[e.socket.value := id]);
      if !e.nonBlocking {
        ErrorToClientSays(WithStatus(w1, GENERAL_FAILURE), GENERAL_FAILURE);
        FailureSaid(w1.c.(status := GENERAL_FAILURE), GENERAL_FAILURE);
        MarshalSays(w1.c.(status := GENERAL_FAILURE), Reply(GENERAL_FAILURE));
      } else {
        var s := Connect(w1, id, key, e).1;
        ConnectSays(w1, id, key, e);
        if s != 0x00 {
          FailureSaid(w1.c, s);
        }
      }
    }
  }

  lemma JumpSpoken(w: World, id: nat, key: int, p: Phase, e: Env)
    requires Streams(w.c) && InTurn(w.c.(state := p)) && Says(w.c, p) && Jump(w, id, key, p, e).Some?
    ensures Spoken(Jump(w, id, key, p, e).value.c)
  {
    hide ConnectingInit, OnCopyInit, Opened, Accepted, Denied, ClientWire.StartAuth;
    if p == RequestConnecting && w.c.state != RequestConnecting {
      AllSent(w.c);
      ConnectingInitSays(w.(c := w.c.(state := p)), id, key, e);
    } else if p == Copy && w.c.state != Copy {
      CopyInitSays(w.(c := w.c.(state := p)));
    }
  }

  lemma CopyInitSays(w: World)
    ensures OnCopyInit(w).Some? ==>
      var d := OnCopyInit(w).value.c;
      d.log == w.c.log && d.status == w.c.status && d.state == w.c.state && d.hello == w.c.hello
  {
  }

  lemma FirstSpoken(w: World, e: Env)
    requires Spoken(w.c) && Roomy(w.c) && !Terminal(w.c.state)
    requires w.c.started || w.c.state == HelloRead
    ensures var c := First(Idle(w), e).c;
      Spoken(c) && Roomy(c)
  {
  }

  lemma BeganIfBeyond(c: Conn)
    requires Progress(c) && !Terminal(c.state)
    ensures c.started || c.state == HelloRead
  {
  }

  lemma TerminalSpoken(c: Conn)
    requires Terminal(c.state)
    ensures Spoken(c)
  {
  }

  /** One event keeps it: whatever happens, the client is told the truth and nothing else. */
  lemma DispatchSpoken(w: World, id: nat, key: int, event: Event, e: Env)
    requires Streams(w.c) && Progress(w.c) && Roomy(w.c) && Spoken(w.c) && !Terminal(w.c.state)
    requires CallsBounded(w.c, key, event, e) && Dispatch(w, id, key, event, e).Some?
    requires e.authMethod == 0x00 || e.authMethod == 0x02
    ensures Spoken(Dispatch(w, id, key, event, e).value.c)
  {
    hide Handle, Jump, Finish, Progress, Says, Upstream, Downstream;
    var w0 := First(Idle(w), e);
    SameStreamsHold(w.c, w0.c);
    FirstProgress(Idle(w), e);
    BeganIfBeyond(w.c);
    FirstSpoken(w, e);
    hide Spoken;
    HandleSays(w0, id, key, event, e);
    HandleStreams(w0, id, key, event, e);
    var (w1, p) := Handle(w0, id, key, event, e).value;
    if Terminal(p) {
      DispatchState(w, id, key, event, e);
      TerminalSpoken(Dispatch(w, id, key, event, e).value.c);
    } else {
      JumpSpoken(w1, id, key, p, e);
    }
  }
}
