/** All that is kept of a connection between two events, and what one event does to it. */
module ConnectionInvariants {
  import opened Bytes
  import opened Selectors
  import opened Connections
  import opened ConnectionTables
  import opened ConnectionLogs
  import opened ConnectionReplies
  import opened Dialing

  ghost predicate ConnOk(w: World, id: nat) {
    Streams(w.c) && Progress(w.c) && Spoken(w.c) && Upheld(w, id)
  }

  /**
   * An event the selector and the kernel may bring: on the connection's own registration, of
   * interest, with system calls that answer what they can; and connect, called, does not
   * succeed at once.
   */
  ghost predicate Expected(w: World, id: nat, key: int, event: Event, e: Env) {
    && Own(w.table, key, id) && Due(w, key, event)
    && Plausible(w, e) && CallsBounded(w.c, key, event, e) && !(e.connect.AtOnce? && Dials(w, event, e))
  }

  lemma StreamsInTurn(c: Conn)
    requires Streams(c)
    ensures InTurn(c)
  {
  }

  lemma LiveWhenDue(w: World, id: nat, key: int, event: Event)
    requires ConnOk(w, id) && Own(w.table, key, id) && Due(w, key, event)
    ensures !Terminal(w.c.state) && w.c.log.frees == 0 && Roomy(w.c)
  {
  }

  lemma AnswersHold(w: World, e: Env)
    requires Streams(w.c) && Progress(w.c) && !Terminal(w.c.state) && (e.authMethod == 0x00 || e.authMethod == 0x02)
    ensures Answers(First(w, e).c, e)
  {
    StreamsInTurn(w.c);
    FirstProgress(w, e);
    hide Progress, InTurn, Streams;
    ProgressAnswers(First(w, e).c, e);
  }

  /** An expected event is survived, keeps all of it, and touches no other connection but for the leak it may end. */
  lemma EventKept(w: World, id: nat, key: int, event: Event, e: Env)
    requires ConnOk(w, id) && Expected(w, id, key, event, e)
    ensures var r := Dispatch(w, id, key, event, e);
      && r.Some? && Frame(Idle(w), r.value, id) && ConnOk(r.value, id)
      && r.value.c.clientFd == w.c.clientFd && (r.value.spawned <==> r.value.c.state == RequestResolv)
  {
    LiveWhenDue(w, id, key, event);
    hide Shape, Ended, Apart, Armed, Streams, Progress, Spoken;
    AnswersHold(w, e);
    DispatchSound(w, id, key, event, e);
    DispatchStreams(w, id, key, event, e);
    StreamsInTurn(w.c);
    DispatchProgress(w, id, key, event, e);
    DispatchSpoken(w, id, key, event, e);
  }
}
