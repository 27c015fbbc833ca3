/**
 * What happens to a number that was leaked, closed while it was still registered, when the
 * kernel hands it out again: accept and connection find it in use, and the last failure of the
 * connection that got it gives the leaked registration back to whom it belonged.
 */
module ReusedNumbers {
  import opened Bytes
  import opened Selectors
  import opened Connections
  import opened ConnectionTables
  import opened ConnectionInvariants
  import opened Dialing
  import opened Proxies
  import ConnectionLogs
  import FieldParsers

  /** The origin's number is registered, for somebody else. */
  predicate Foreign(w: World, id: nat) {
    w.c.originFd in w.table && !Own(w.table, w.c.originFd, id)
  }

  /** A sound connection holds such a number only after a failure, with the client armed to be told or to try again. */
  lemma OnlyAfterFailure(w: World, id: nat)
    requires Sound(w, id) && Foreign(w, id)
    ensures w.c.state == RequestConnecting && w.c.status != 0
    ensures w.table[w.c.clientFd].interest == OP_WRITE && w.table[w.c.originFd].interest == OP_NOOP
  {
    hide FieldParsers.State.Valid, FieldParsers.WellFormed;
    assert w.c.originFd != -1;
  }

  /** A failure was reported with status s, and the origin's item left as it was. */
  predicate Unmoved(w: World, w': World, s: byte) {
    && s != 0 && w'.c.status == s && w'.c.log.leaked == w.c.log.leaked
    && w.c.originFd in w.table && w.c.originFd in w'.table && w'.table[w.c.originFd] == w.table[w.c.originFd]
  }

  /** The item of the origin's number, for somebody else, asks for nothing. */
  predicate Silent(w: World, id: nat) {
    && w.c.originFd in w.table && w.table[w.c.originFd].data != id && w.table[w.c.originFd].interest == OP_NOOP
    && w.c.originFd != w.c.clientFd && w.c.originFd != -1
  }

  /**
   * Whatever connect answers, connection fails on such a number and leaves its registration as it
   * was; when connect was under way, the descriptor is closed and forgotten, and nothing is leaked.
   */
  lemma AttemptRefused(w: World, id: nat, key: int, e: Env)
    requires Shape(w, id) && Foreign(w, id) && key == w.c.clientFd
    ensures var (w', s) := Connect(w, id, key, e);
      && Unmoved(w, w', s)
      && (if e.connect.InProgress? then w'.c.originFd == -1 && w.c.originFd !in w'.open
          else w'.c.originFd == w.c.originFd && w'.open == w.open)
  {
    assert Silent(w, id);
    hide Shape, ErrorToClient, ConnectionBegun, ConnectedAtOnce;
    if e.connect.Failed? {
      SilentKept(w, ErrnoToSocks(e.connect.errno));
    } else if e.connect.AtOnce? {
      AtOnceRefused(w, id, key);
    } else {
      BegunRefused(w, id, key);
    }
  }

  lemma AtOnceRefused(w: World, id: nat, key: int)
    requires Silent(w, id) && CanWatch(w, key) && key == w.c.clientFd
    ensures var (w', s) := ConnectedAtOnce(w, id, key);
      Unmoved(w, w', s) && w'.c.originFd == w.c.originFd && w'.open == w.open
  {
    hide ErrorToClient, FieldParsers.State.Valid, FieldParsers.WellFormed;
    SilentKept(Watch(w.(c := w.c.(references := w.c.references + 1)), key, OP_READ), GENERAL_FAILURE);
  }

  lemma BegunRefused(w: World, id: nat, key: int)
    requires Silent(w, id) && CanWatch(w, key) && key == w.c.clientFd
    ensures var (w', s) := ConnectionBegun(w, id, key);
      Unmoved(w, w', s) && w'.c.originFd == -1 && w.c.originFd !in w'.open
  {
    hide ErrorToClient, FieldParsers.State.Valid, FieldParsers.WellFormed;
    SilentKept(Watch(w, key, OP_NOOP), GENERAL_FAILURE);
  }

  /** Reporting a failure leaves the item of a silent origin as it is. */
  lemma SilentKept(w: World, s: byte)
    requires w.c.originFd in w.table && w.table[w.c.originFd].interest == OP_NOOP && w.c.originFd != w.c.clientFd
    ensures var w' := ErrorToClient(WithStatus(w, s), s);
      && w.c.originFd in w'.table && w'.table[w.c.originFd] == w.table[w.c.originFd]
      && w'.c.originFd == w.c.originFd && w'.open == w.open && w'.c.status == s && w'.c.log.leaked == w.c.log.leaked
  {
  }

  /** With no address left, the number is unregistered from its owner, closed and forgotten, and the client told. */
  lemma LastFailureReleases(w: World, id: nat, key: int, e: Env)
    requires Sound(w, id) && Foreign(w, id) && !HasMore(w.c) && !InvalidFd(w.c.originFd)
    requires CallsBounded(w.c, key, Writable, e)
    ensures var r := Connections.Dispatch(w, id, key, Writable, e);
      && r.Some? && r.value.c.state == RequestWrite && r.value.released == Some(w.c.originFd)
      && w.c.originFd !in r.value.table && w.c.originFd !in r.value.open
  {
    OnlyAfterFailure(w, id);
    assert w.c.originFd != w.c.clientFd;
    hide Shape, Armed, AfterFailure, Foreign, FieldParsers.State.Valid, FieldParsers.WellFormed;
    GivesUp(First(Idle(w), e), id, key, e);
  }

  lemma GivesUp(w: World, id: nat, key: int, e: Env)
    requires Foreign(w, id) && !HasMore(w.c) && !InvalidFd(w.c.originFd) && w.c.originFd != w.c.clientFd
    ensures var (w', p) := AfterFailure(w, id, key, e);
      && p == RequestWrite && w'.c.state == w.c.state && w'.released == Some(w.c.originFd)
      && w.c.originFd !in w'.table && w.c.originFd !in w'.open
  {
    var w1 := Close(Drop(w, id, w.c.originFd), id, w.c.originFd);
    var w2 := w1.(c := w1.c.(originFd := -1));
    ErrorToClientSame(w2, w2.c.status);
    NothingAdded(w2, w2.c.status);
    hide ErrorToClient, FieldParsers.State.Valid, FieldParsers.WellFormed;
  }

  lemma NothingAdded(w: World, s: byte)
    ensures forall fd :: fd in ErrorToClient(w, s).table <==> fd in w.table
  {
  }

  /** accept: a number still registered is refused, and the process is as it was. */
  lemma AcceptRefused(s: Proxy, fd: int, nonBlocking: bool)
    ensures fd in s.table ==> AcceptConn(s, fd, nonBlocking) == s
  {
  }

  /**
   * The last failure of a connection on a leaked number ends the leak: the connection that
   * leaked it holds one registration and one reference less, and is given back if it was over
   * and that was its last.
   */
  lemma LeakEnds(s: Proxy, key: int, e: Env, id: nat, other: nat)
    requires Inv(s) && Legal(s, Step.Dispatch(key, Writable, e)) && Own(s.table, key, id)
    requires id in s.conns && other in s.conns && other != id && !HasMore(s.conns[id])
    requires Own(s.table, s.conns[id].originFd, other)
    ensures var r := Proxies.Apply(s, Step.Dispatch(key, Writable, e));
      r.Some? && LeakEnded(s, r.value, s.conns[id].originFd, other)
  {
    var fd := s.conns[id].originFd;
    var w := WorldOf(s, id);
    LeakedElsewhere(s, id, key, other);
    hide Inv, Shape, Armed, Connections.Dispatch, LeakEnded, CallsBounded, Dials, FieldParsers.State.Valid;
    LastFailureReleases(w, id, key, EnvOf(s, e));
    var w' := Connections.Dispatch(w, id, key, Writable, EnvOf(s, e)).value;
    ReturnedEnds(s, id, w', other);
    assert Proxies.Apply(s, Step.Dispatch(key, Writable, e)) == Some(WithWorld(s, id, w'));
  }

  ghost predicate LeakEnded(s: Proxy, s': Proxy, fd: int, other: nat)
    requires other in s.conns
  {
    var c := s.conns[other];
    && fd in c.log.leaked && fd !in s'.table && fd !in s'.open
    && other in s'.conns && s'.conns[other].log.leaked == c.log.leaked - {fd}
    && (if Terminal(c.state) && c.log.leaked == {fd} then s'.conns[other].log.frees == 1
        else s'.conns[other].log.frees == 0 && s'.conns[other].references == c.references - 1)
  }

  lemma ReturnedEnds(s: Proxy, id: nat, w: World, other: nat)
    requires id in s.conns && other in s.conns && other != id
    requires w.released.Some? && Own(s.table, w.released.value, other)
    requires w.released.value !in w.table && w.released.value !in w.open
    requires var c := s.conns[other];
      && w.released.value in c.log.leaked && c.log.frees == 0
      && (Terminal(c.state) && c.log.leaked == {w.released.value} <==> c.references == 1)
    ensures LeakEnded(s, WithWorld(s, id, w), w.released.value, other)
  {
    hide FieldParsers.State.Valid, FieldParsers.WellFormed;
  }

  /** The owner of a number that is another connection's origin has leaked it. */
  lemma LeakedElsewhere(s: Proxy, id: nat, key: int, other: nat)
    requires Inv(s) && id in s.conns && other in s.conns && other != id
    requires Own(s.table, key, id) && s.table[key].interest.write
    requires Own(s.table, s.conns[id].originFd, other)
    ensures Sound(WorldOf(s, id), id) && s.conns[id].log.frees == 0 && !InvalidFd(s.conns[id].originFd)
    ensures var c, fd := s.conns[other], s.conns[id].originFd;
      && fd in c.log.leaked && c.log.frees == 0
      && (Terminal(c.state) && c.log.leaked == {fd} <==> c.references == 1)
  {
    assert ConnOk(WorldOf(s, id), id) && ConnOk(WorldOf(s, other), other);
    LiveWhenDue(WorldOf(s, id), id, key, Writable);
    hide Inv, ConnectionLogs.Streams, ConnectionLogs.Progress, Shape, Armed, Ended, FieldParsers.State.Valid;
    LeakHeld(WorldOf(s, id), id, s.conns[other], other);
  }

  lemma LeakHeld(w: World, id: nat, c: Conn, other: nat)
    requires Sound(w, id) && Upheld(w.(c := c), other) && other != id && Own(w.table, w.c.originFd, other)
    ensures w.c.originFd in c.log.leaked && c.log.frees == 0 && !InvalidFd(w.c.originFd)
    ensures Terminal(c.state) && c.log.leaked == {w.c.originFd} <==> c.references == 1
  {
    hide Armed, FieldParsers.State.Valid, FieldParsers.WellFormed;
    assert w.c.originFd in c.log.leaked;
    OneLeft(c.log.leaked, w.c.originFd);
  }

  lemma OneLeft(leaked: set<int>, fd: int)
    requires fd in leaked
    ensures |leaked| == 1 <==> leaked == {fd}
  {
    assert |leaked - {fd}| == |leaked| - 1;
    assert leaked == (leaked - {fd}) + {fd};
  }
}
