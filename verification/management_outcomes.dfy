/**
 * What comes of every event of a management connection, from the octets its client has sent: what is
 * answered, what is changed of the proxy and what is waited for; and an administrator served.
 */
module ManagementOutcomes {
  import opened Bytes
  import opened Buffers
  import opened Selectors
  import opened ManagementReplies
  import opened MetricsCounters
  import opened Managements
  import ClientWire
  import FieldParsers
  import Hellos
  import Machines
  import Outcomes
  import Registries

  // ----- What the client has been told -----

  /** All that was marshalled is sent or waits to be; the handshake said what it had to and nothing else. */
  ghost predicate Told(m: Mng) {
    && m.log.sent + m.writeBuffer.contents == m.log.replies
    && match m.state
       case HelloRead => m.log.replies == []
       case HelloWrite => m.log.replies == [0x01, m.hello.chosen]
       case UserpassRead => m.log.replies == m.log.sent == [0x01, 0x02]
       case UserpassWrite =>
         && |m.log.replies| >= 2 && m.log.replies[..2] == [0x01, 0x02] && |m.log.sent| >= 2 && m.authentication <= 0x01
         && Repeats(m.log.replies[2..], [0x01, m.authentication])
       case ReadIndex => Opened(m.log.replies) && m.log.sent == m.log.replies
       case ReadParams => Opened(m.log.replies) && m.log.sent == m.log.replies
       case _ => true
  }

  /** The answers that make an administrator. */
  predicate Opened(s: seq<byte>) {
    |s| > 2 && s[..2] == [0x01, 0x02] && Repeats(s[2..], [0x01, 0x00])
  }

  /** Between two events: sound, and the client told what it should have been. */
  ghost predicate MngOk(m: Mng, admins: seq<Registries.User>) {
    Sound(m, admins) && Told(m)
  }

  /**
   * An event the selector may bring, with calls that answer what they can, and a listing, if that
   * is asked for, that fits.
   */
  ghost predicate Expected(m: Mng, e: Event, g: Globals) {
    && !Terminal(m.state) && Due(m, e) && CallsBounded(m, e) && GlobalsOk(g)
    && (Lists(m, e) ==> ListingSafe(g, BUFFER_SIZE))
  }

  lemma AllSent(m: Mng)
    requires m.log.sent + m.writeBuffer.contents == m.log.replies
    ensures m.log.sent == m.log.replies <==> m.writeBuffer.contents == []
    ensures |m.log.sent| + |m.writeBuffer.contents| == |m.log.replies|
  {
    if m.writeBuffer.contents == [] {
      assert m.log.sent + [] == m.log.sent;
    }
  }

  lemma SentTold(m: Mng, n: nat)
    requires m.log.sent + m.writeBuffer.contents == m.log.replies && n <= |m.writeBuffer.contents|
    ensures var d := Sent(m, n);
      && d.log.sent + d.writeBuffer.contents == d.log.replies == m.log.replies
      && d == m.(writeBuffer := d.writeBuffer, log := m.log.(sent := d.log.sent))
      && (d.writeBuffer.contents == [] <==> n == |m.writeBuffer.contents|)
  {
    var c := m.writeBuffer.contents;
    assert (m.log.sent + c[..n]) + c[n..] == m.log.sent + c;
  }

  lemma MarshalTold(m: Mng, reply: seq<byte>)
    requires m.log.sent + m.writeBuffer.contents == m.log.replies
    ensures var d := Marshal(m, reply);
      && d.log.sent + d.writeBuffer.contents == d.log.replies && d.log.sent == m.log.sent
      && d == m.(writeBuffer := d.writeBuffer, log := m.log.(replies := d.log.replies))
      && (|reply| <= m.writeBuffer.Room() ==>
            d.log.replies == m.log.replies + reply && d.writeBuffer.contents == m.writeBuffer.contents + reply)
  {
    assert (m.log.sent + m.writeBuffer.contents) + reply == m.log.sent + (m.writeBuffer.contents + reply);
  }

  // ----- The greeting -----

  /** A greeting so far and what comes of it. */
  ghost predicate GreetingHeard(heard: seq<byte>, d: Mng) {
    if heard == [] then false
    else if Hellos.Complete(0x01, heard) then
      var n := Hellos.MessageLength(heard);
      var m := if 0x02 in Hellos.Offered(heard) then 0x02 else 0xFF;
      && d.state == HelloWrite && d.interest == OP_WRITE
      && d.writeBuffer.contents == [0x01, m] && d.log.replies == [0x01, m] && d.hello.chosen == m
      && d.log.eatenHello == heard[..n] && d.readBuffer.contents == heard[n..]
    else if heard[0] == 0x01 then
      d.state == HelloRead && d.interest == OP_READ && d.log.replies == [] && d.log.eatenHello == heard
    else d.state == Error
  }

  lemma GreetingParsed(m: Mng)
    requires HelloFollows(m.hello, m.log.eatenHello) && !Hellos.IsDone(m.hello)
    ensures var d, heard := EatHello(m), m.log.eatenHello + m.readBuffer.contents;
      && Hellos.Take(Hellos.Start(0x01, 0x02), heard) == (d.hello, |d.log.eatenHello|) && |d.log.eatenHello| <= |heard|
      && d.log.eatenHello == heard[..|d.log.eatenHello|] && d.readBuffer.contents == heard[|d.log.eatenHello|..]
      && d == m.(hello := d.hello, readBuffer := d.readBuffer, log := m.log.(eatenHello := d.log.eatenHello))
  {
    Outcomes.Rejoined(Hellos.Feed, Hellos.IsDone, Hellos.Start(0x01, 0x02), m.hello, m.log.eatenHello,
                      m.readBuffer.contents);
    var n := Hellos.Take(m.hello, m.readBuffer.contents).1;
    Outcomes.Cut(m.log.eatenHello, m.readBuffer.contents, n);
    Outcomes.Popped(m.readBuffer, n);
    hide Machines.Consume;
  }

  lemma GreetingFacts(m: Mng, admins: seq<Registries.User>)
    requires MngOk(m, admins) && m.state == HelloRead && m.started
    ensures HelloFollows(m.hello, m.log.eatenHello) && !Hellos.IsDone(m.hello) && m.interest == OP_READ
    ensures m.writeBuffer.contents == [] && m.writeBuffer.Room() == BUFFER_SIZE && m.log.replies == m.log.sent == []
  {
    AllSent(m);
  }

  lemma GreetingHandled(m: Mng, admins: seq<Registries.User>)
    requires MngOk(m, admins) && m.state == HelloRead && m.started && m.readBuffer.contents != []
    ensures var (d, p) := OnHelloRead(m);
      GreetingHeard(m.log.eatenHello + m.readBuffer.contents, d.(state := p))
      && d.log.sent + d.writeBuffer.contents == d.log.replies && d.log.sent == []
  {
    hide MngOk, HelloFollows, EatHello, Hellos.Take, Marshal;
    GreetingFacts(m, admins);
    GreetingParsed(m);
    var heard, d := m.log.eatenHello + m.readBuffer.contents, EatHello(m);
    Hellos.TakeExact(0x01, 0x02, heard);
    MarshalTold(d, [0x01, d.hello.chosen]);
    assert heard[..|heard|] == heard && forall s: seq<byte> :: [] + s == s;
  }

  /** What an event leaves is what its handler left, in the state it answered. */
  lemma Reads(m: Mng, received: Option<seq<byte>>, g: Globals, admins: seq<Registries.User>)
    requires MngOk(m, admins) && Expected(m, Readable(received), g)
    ensures m.writeBuffer.Room() >= 0 && BuffersOk(m) && m.state in {HelloRead, UserpassRead, ReadIndex, ReadParams}
    ensures received.Some? ==> 0 < |received.value| <= m.readBuffer.Room()
    ensures MngOk(First(m), admins) && First(m).started && First(m).log == m.log && First(m).state == m.state
    ensures First(m).readBuffer == m.readBuffer && First(m).writeBuffer == m.writeBuffer
        && First(m).request == m.request
    ensures m.state != HelloRead ==> First(m) == m
    ensures var r, h := Dispatch(m, Readable(received), g, admins), OnReadable(First(m), received, g, admins);
      && r.Some? && h.Some? && Jump(h.value.0, h.value.2) == Some(r.value.0) && r.value.1 == h.value.1
      && Sound(r.value.0, admins)
  {
    hide Sound, Told, OnReadable, Jump, GlobalsOk, ListingSafe, Lists, Asked;
    DispatchIff(m, Readable(received), g, admins);
    FirstSound(m, admins);
    ReadsWhere(m, admins);
    Began(m, admins);
    AskedWithin(m);
    FirstTold(m);
  }

  lemma FirstTold(m: Mng)
    requires Told(m) && (m.started || m.state == HelloRead)
    ensures Told(First(m)) && First(m).log == m.log && First(m).readBuffer == m.readBuffer
    ensures First(m).writeBuffer == m.writeBuffer && First(m).request == m.request
  {
  }

  lemma Began(m: Mng, admins: seq<Registries.User>)
    requires Sound(m, admins) && !Terminal(m.state)
    ensures m.started || m.state == HelloRead
  {
  }

  lemma Writes(m: Mng, sent: Option<nat>, g: Globals, admins: seq<Registries.User>)
    requires MngOk(m, admins) && Expected(m, Writable(sent), g)
    ensures m.writeBuffer.Room() >= 0 && BuffersOk(m) && m.started && m.state in {HelloWrite, UserpassWrite, WriteReply}
    ensures var r, h := Dispatch(m, Writable(sent), g, admins), OnWritable(m, sent);
      && r.Some? && h.Some? && Jump(h.value.0, h.value.1) == Some(r.value.0) && r.value.1 == g
      && Sound(r.value.0, admins)
  {
    DispatchIff(m, Writable(sent), g, admins);
    WritesWhere(m, admins);
    hide Sound, OnWritable, Jump, GlobalsOk, ListingSafe, Lists, Offered;
  }

  lemma WritesWhere(m: Mng, admins: seq<Registries.User>)
    requires Sound(m, admins) && m.interest.write && !Terminal(m.state)
    ensures m.state in {HelloWrite, UserpassWrite, WriteReply} && m.started && BuffersOk(m)
  {
  }

  /** All that moving to another state changes. */
  lemma Jumped(m: Mng, p: Phase)
    requires Jump(m, p).Some?
    ensures var d := Jump(m, p).value;
      && d == m.(state := p, auth := d.auth, request := d.request, log := m.log.(admitted := d.log.admitted))
      && (p !in {UserpassRead, ReadIndex, ReadParams} || p == m.state ==> d == m.(state := p))
  {
  }

  /**
   * The greeting of a management client: whatever chunks it came in, the event that completes it is
   * answered 01 02 where passwords were offered and 01 FF where they were not, and no other version is
   * answered.
   */
  lemma GreetingOutcome(m: Mng, received: Option<seq<byte>>, g: Globals, admins: seq<Registries.User>)
    requires MngOk(m, admins) && m.state == HelloRead && Expected(m, Readable(received), g)
    ensures m.writeBuffer.Room() >= 0
    ensures var r := Dispatch(m, Readable(received), g, admins);
      && r.Some? && r.value.1 == g && MngOk(r.value.0, admins)
      && if received.None? then r.value.0.state == Error
         else GreetingHeard(m.log.eatenHello + (m.readBuffer.contents + received.value), r.value.0)
  {
    hide Sound, Dispatch, Due, Lists, ListingSafe, GlobalsOk, OnHelloRead, GreetingHeard, Told;
    Reads(m, received, g, admins);
    var m0 := First(m);
    if received.Some? {
      var d := Received(m0, received.value);
      MoreToRead(m0, received.value, admins);
      GreetingHandled(d, admins);
      var (h, p) := OnHelloRead(d);
      Jumped(h, p);
      var heard := m.log.eatenHello + (m.readBuffer.contents + received.value);
      GreetingLead(heard, h.(state := p));
      GreetingTold(heard, h.(state := p));
    } else {
      Jumped(m0, Error);
      EndTold(Jump(m0, Error).value, m0);
    }
  }

  lemma MoreToRead(m: Mng, chunk: seq<byte>, admins: seq<Registries.User>)
    requires MngOk(m, admins) && 0 < |chunk| <= m.readBuffer.Room()
    ensures MngOk(Received(m, chunk), admins) && Received(m, chunk).readBuffer.contents != []
  {
    ReceivedSound(m, chunk, admins);
    hide Sound;
  }

  lemma GreetingLead(heard: seq<byte>, d: Mng)
    requires GreetingHeard(heard, d)
    ensures d.state in {HelloRead, HelloWrite, Error}
  {
  }

  lemma GreetingTold(heard: seq<byte>, d: Mng)
    requires GreetingHeard(heard, d) && d.log.sent + d.writeBuffer.contents == d.log.replies
    ensures Told(d)
  {
  }

  lemma EndTold(d: Mng, m: Mng)
    requires Told(m) && Terminal(d.state) && d.log.sent == m.log.sent && d.log.replies == m.log.replies
    requires d.writeBuffer == m.writeBuffer
    ensures Told(d)
  {
  }

  /** Once the answer is out whole, a client that offered passwords is asked for one, and any other is done with. */
  lemma GreetingAnswered(m: Mng, sent: Option<nat>, g: Globals, admins: seq<Registries.User>)
    requires MngOk(m, admins) && m.state == HelloWrite && Expected(m, Writable(sent), g)
    ensures m.writeBuffer.Room() >= 0 && Hellos.Complete(0x01, m.log.eatenHello)
    ensures var r, offered := Dispatch(m, Writable(sent), g, admins), Hellos.Offered(m.log.eatenHello);
      && r.Some? && r.value.1 == g && MngOk(r.value.0, admins)
      && var d := r.value.0;
      && d.readBuffer == m.readBuffer && d.log.eatenAuth == m.log.eatenAuth && d.log.eatenHello == m.log.eatenHello
      && if sent.None? then d.state == Error
         else if sent.value < |m.writeBuffer.contents| then d.state == HelloWrite && d.interest == OP_WRITE
         else if 0x02 in offered then
           d.state == UserpassRead && d.interest == OP_READ && d.log.sent == [0x01, 0x02] && d.log.eatenAuth == []
         else d.state == Done && d.log.sent == [0x01, 0xFF]
  {
    hide Sound, Dispatch, Due, Lists, ListingSafe, GlobalsOk, Told, FieldParsers.State.Valid, FieldParsers.WellFormed;
    Writes(m, sent, g, admins);
    AnswerFacts(m, admins);
    if sent.Some? {
      SentTold(m, sent.value);
      AllSent(Sent(m, sent.value));
      Jumped(OnWritable(m, sent).value.0, OnWritable(m, sent).value.1);
      AnswerTold(Dispatch(m, Writable(sent), g, admins).value.0);
    } else {
      Jumped(m, Error);
      EndTold(Jump(m, Error).value, m);
    }
  }

  lemma AnswerFacts(m: Mng, admins: seq<Registries.User>)
    requires MngOk(m, admins) && m.state == HelloWrite
    ensures m.interest == OP_WRITE && m.log.sent + m.writeBuffer.contents == m.log.replies == [0x01, m.hello.chosen]
    ensures Hellos.Complete(0x01, m.log.eatenHello) && m.log.eatenAuth == []
    ensures m.hello.chosen == if 0x02 in Hellos.Offered(m.log.eatenHello) then 0x02 else 0xFF
  {
    ChosenMethod(m);
    hide FieldParsers.State.Valid, FieldParsers.WellFormed;
  }

  lemma AnswerTold(d: Mng)
    requires d.log.sent + d.writeBuffer.contents == d.log.replies == [0x01, d.hello.chosen]
    requires d.state in {HelloWrite, UserpassRead, Done}
    requires d.state == UserpassRead ==> d.writeBuffer.contents == [] && d.hello.chosen == 0x02
    ensures Told(d)
  {
    AllSent(d);
  }

  // ----- The credentials -----

  predicate Known(admins: seq<Registries.User>, s: seq<byte>)
    requires ClientWire.WholeCredentials(s)
  {
    Registries.Check(admins, CString(ClientWire.UserOf(s)), CString(ClientWire.PassOf(s))).Some?
  }

  /** Credentials so far and what comes of them. */
  ghost predicate CredentialsHeard(heard: seq<byte>, admins: seq<Registries.User>, d: Mng) {
    if heard == [] then false
    else if heard[0] != 0x01 then d.state == Error
    else if !ClientWire.WholeCredentials(heard) then
      d.state == UserpassRead && d.interest == OP_READ && d.log.eatenAuth == heard
    else
      var n := ClientWire.CredentialsSize(heard);
      && d.state == UserpassWrite && d.interest == OP_WRITE
      && d.authentication == (if Known(admins, heard) then 0x00 else 0x01)
      && d.log.eatenAuth == heard[..n] && d.readBuffer.contents == heard[n..]
  }

  lemma CredentialsParsed(m: Mng)
    requires AuthFollows(m.auth, m.log.eatenAuth) && !FieldParsers.IsDone(m.auth)
    ensures var d, heard := EatAuth(m), m.log.eatenAuth + m.readBuffer.contents;
      && FieldParsers.Take(ClientWire.StartAuth(), heard) == (d.auth, |d.log.eatenAuth|) && |d.log.eatenAuth| <= |heard|
      && d.log.eatenAuth == heard[..|d.log.eatenAuth|] && d.readBuffer.contents == heard[|d.log.eatenAuth|..]
      && d == m.(auth := d.auth, readBuffer := d.readBuffer, log := m.log.(eatenAuth := d.log.eatenAuth))
  {
    hide FieldParsers.State.Valid, FieldParsers.WellFormed, Machines.Consume, ClientWire.StartAuth;
    AuthStarts();
    Outcomes.Rejoined(FieldParsers.Feed, FieldParsers.IsDone, ClientWire.StartAuth(), m.auth, m.log.eatenAuth,
                      m.readBuffer.contents);
    var n := FieldParsers.Take(m.auth, m.readBuffer.contents).1;
    Outcomes.Cut(m.log.eatenAuth, m.readBuffer.contents, n);
    Outcomes.Popped(m.readBuffer, n);
  }

  lemma CredentialsFacts(m: Mng, admins: seq<Registries.User>)
    requires MngOk(m, admins) && m.state == UserpassRead
    ensures AuthFollows(m.auth, m.log.eatenAuth) && !FieldParsers.IsDone(m.auth) && m.interest == OP_READ
    ensures m.log.replies == m.log.sent == [0x01, 0x02] && m.writeBuffer.contents == []
  {
    AllSent(m);
    hide FieldParsers.State.Valid, FieldParsers.WellFormed;
  }

  lemma CredentialsHandled(m: Mng, admins: seq<Registries.User>)
    requires MngOk(m, admins) && m.state == UserpassRead && m.readBuffer.contents != []
    ensures var (d, p) := OnUserpassRead(m, admins);
      && CredentialsHeard(m.log.eatenAuth + m.readBuffer.contents, admins, d.(state := p))
      && d.log.replies == d.log.sent == [0x01, 0x02] && d.writeBuffer.contents == [] && d.state == UserpassRead
  {
    hide MngOk, AuthFollows, EatAuth, FieldParsers.Take, ClientWire.StartAuth, ClientWire.WholeCredentials;
    hide ClientWire.CredentialsSize, ClientWire.UserOf, ClientWire.PassOf, FieldParsers.State.Valid;
    CredentialsFacts(m, admins);
    CredentialsParsed(m);
    var heard := m.log.eatenAuth + m.readBuffer.contents;
    ClientWire.CredentialsDecided(heard);
    assert heard[..|heard|] == heard;
  }

  /** Credentials are looked up among the administrators at the event that completes them. */
  lemma CredentialsOutcome(m: Mng, received: Option<seq<byte>>, g: Globals, admins: seq<Registries.User>)
    requires MngOk(m, admins) && m.state == UserpassRead && Expected(m, Readable(received), g)
    ensures m.writeBuffer.Room() >= 0
    ensures var r := Dispatch(m, Readable(received), g, admins);
      && r.Some? && r.value.1 == g && MngOk(r.value.0, admins)
      && if received.None? then r.value.0.state == Error
         else CredentialsHeard(m.log.eatenAuth + (m.readBuffer.contents + received.value), admins, r.value.0)
              && r.value.0.log.sent == m.log.sent == r.value.0.log.replies
  {
    hide Sound, Dispatch, Due, Lists, ListingSafe, GlobalsOk, OnUserpassRead, CredentialsHeard, Told;
    Reads(m, received, g, admins);
    if received.Some? {
      var d := Received(m, received.value);
      MoreToRead(m, received.value, admins);
      CredentialsHandled(d, admins);
      CredentialsFacts(m, admins);
      var (h, p) := OnUserpassRead(d, admins);
      Jumped(h, p);
      var heard := m.log.eatenAuth + (m.readBuffer.contents + received.value);
      CredentialsTold(heard, admins, h.(state := p));
    } else {
      Jumped(m, Error);
      EndTold(Jump(m, Error).value, m);
    }
  }

  lemma CredentialsTold(heard: seq<byte>, admins: seq<Registries.User>, d: Mng)
    requires CredentialsHeard(heard, admins, d) && d.log.replies == d.log.sent == [0x01, 0x02]
    requires d.writeBuffer.contents == []
    ensures Told(d) && d.state in {UserpassRead, UserpassWrite, Error}
  {
    assert d.log.replies[2..] == [];
  }

  /**
   * Once their answer is out whole, an administrator is heard for a request, and anybody else is
   * done with.
   */
  lemma CredentialsAnswered(m: Mng, sent: Option<nat>, g: Globals, admins: seq<Registries.User>)
    requires MngOk(m, admins) && m.state == UserpassWrite && Expected(m, Writable(sent), g)
    ensures m.writeBuffer.Room() >= 0
    ensures ClientWire.WholeCredentials(m.log.eatenAuth)
        && ClientWire.CredentialsSize(m.log.eatenAuth) == |m.log.eatenAuth|
    ensures var r, right := Dispatch(m, Writable(sent), g, admins), Known(admins, m.log.eatenAuth);
      && r.Some? && r.value.1 == g && MngOk(r.value.0, admins)
      && var d := r.value.0;
      && d.readBuffer == m.readBuffer
      && d.log.replies == Marshal(m, [0x01, if right then 0x00 else 0x01]).log.replies
      && if sent.None? then d.state == Error
         else if sent.value < |Managements.Offered(m)| then d.state == UserpassWrite && d.interest == OP_WRITE
         else
           && d.log.sent == d.log.replies && |d.log.sent| > 2 && d.log.sent[..2] == [0x01, 0x02]
           && Repeats(d.log.sent[2..], [0x01, if right then 0x00 else 0x01])
           && if right then d.state == ReadIndex && d.interest == OP_READ else d.state == Done
  {
    hide Sound, Dispatch, Due, Lists, ListingSafe, GlobalsOk, Told, Known, Repeats, WithAuthReply, Marshal;
    hide FieldParsers.State.Valid, FieldParsers.WellFormed;
    Writes(m, sent, g, admins);
    OutcomeFacts(m, admins);
    var d := WithAuthReply(m);
    if sent.Some? {
      SentTold(d, sent.value);
      AllSent(Sent(d, sent.value));
      Jumped(OnWritable(m, sent).value.0, OnWritable(m, sent).value.1);
      OutcomeTold(Dispatch(m, Writable(sent), g, admins).value.0);
    } else {
      Jumped(d, Error);
      EndedTold(Jump(d, Error).value);
    }
  }

  lemma EndedTold(d: Mng)
    requires Terminal(d.state) && d.log.sent + d.writeBuffer.contents == d.log.replies
    ensures Told(d)
  {
  }

  /** The answer is the outcome of the lookup, and there is one to send. */
  lemma OutcomeFacts(m: Mng, admins: seq<Registries.User>)
    requires MngOk(m, admins) && m.state == UserpassWrite
    ensures m.interest == OP_WRITE && m.authentication <= 0x01
    ensures ClientWire.WholeCredentials(m.log.eatenAuth)
        && ClientWire.CredentialsSize(m.log.eatenAuth) == |m.log.eatenAuth|
    ensures m.authentication == 0x00 <==> Known(admins, m.log.eatenAuth)
    ensures var d := WithAuthReply(m);
      && d == m.(writeBuffer := d.writeBuffer, log := m.log.(replies := d.log.replies))
      && d.log.replies == Marshal(m, [0x01, m.authentication]).log.replies
      && d.log.sent + d.writeBuffer.contents == d.log.replies && |d.log.sent| >= 2
      && |d.log.replies| > 2 && d.log.replies[..2] == [0x01, 0x02]
      && Repeats(d.log.replies[2..], [0x01, m.authentication])
  {
    hide FieldParsers.Take, FieldParsers.State.Valid, FieldParsers.WellFormed;
    LookedUp(m, admins);
    OutcomeAppended(m, admins);
  }

  lemma LookedUp(m: Mng, admins: seq<Registries.User>)
    requires MngOk(m, admins) && m.state == UserpassWrite
    ensures ClientWire.WholeCredentials(m.log.eatenAuth)
        && ClientWire.CredentialsSize(m.log.eatenAuth) == |m.log.eatenAuth|
    ensures m.authentication == 0x00 <==> Known(admins, m.log.eatenAuth)
  {
    var s := m.log.eatenAuth;
    assert Vetted(m.auth, s, m.authentication, admins) && AuthFollows(m.auth, s);
    hide FieldParsers.Take, FieldParsers.State.Valid, FieldParsers.WellFormed, Sound, Told;
    if s == [] {
      AuthStarts();
    } else {
      ClientWire.CredentialsDecided(s);
    }
  }

  lemma OutcomeAppended(m: Mng, admins: seq<Registries.User>)
    requires MngOk(m, admins) && m.state == UserpassWrite
    ensures m.interest == OP_WRITE && m.authentication <= 0x01
    ensures var d := WithAuthReply(m);
      && d == m.(writeBuffer := d.writeBuffer, log := m.log.(replies := d.log.replies))
      && d.log.sent + d.writeBuffer.contents == d.log.replies && |d.log.sent| >= 2
      && |d.log.replies| > 2 && d.log.replies[..2] == [0x01, 0x02]
      && Repeats(d.log.replies[2..], [0x01, m.authentication])
  {
    var text := [0x01, m.authentication];
    AllSent(m);
    MarshalTold(m, text);
    RepeatsMore(m.log.replies[2..], text);
    assert (m.log.replies + text)[2..] == m.log.replies[2..] + text;
    hide FieldParsers.State.Valid, FieldParsers.WellFormed, Vetted;
  }

  lemma OutcomeTold(d: Mng)
    requires d.log.sent + d.writeBuffer.contents == d.log.replies && |d.log.sent| >= 2 && d.authentication <= 0x01
    requires |d.log.replies| > 2 && d.log.replies[..2] == [0x01, 0x02]
    requires Repeats(d.log.replies[2..], [0x01, d.authentication])
    requires d.state in {UserpassWrite, ReadIndex, Done}
    requires d.state == ReadIndex ==> d.writeBuffer.contents == [] && d.authentication == 0x00
    ensures Told(d)
  {
    AllSent(d);
  }

  // ----- The request -----

  /** What an index is answered, given the proxy as it is: the octets that wait to be sent. */
  ghost predicate IndexAnswered(index: byte, g: Globals, answer: seq<byte>)
    requires GlobalsOk(g)
  {
    var c := g.metrics;
    match index
    case 0x00 => answer == [0, 14, 0, 1, 2, 3, 4, 5, 6, 7, 8, 9, 10, 11, 12, 13]
    case 0x01 =>
      var names := Registries.Names(g.users);
      answer == if Affordable(names, Budget(BUFFER_SIZE)) then ListReply(names) else []
    case 0x02 => answer == UintReply(c.historicConnections)
    case 0x03 => answer == UintReply(c.concurrentConnections)
    case 0x04 => answer == UintReply(c.maxConcurrentConnections)
    case 0x05 => answer == UintReply(c.historicBytesTransferred)
    case 0x06 => answer == UintReply(c.historicAuthAttempts)
    case 0x07 => answer == UintReply(c.historicConnectionAttempts)
    case 0x08 => answer == UintReply(c.averageBytesPerRead)
    case 0x09 => answer == UintReply(c.averageBytesPerWrite)
    case _ => answer == [0x02]
  }

  /** An index, and what comes of it. */
  ghost predicate IndexHeard(m: Mng, index: byte, g: Globals, d: Mng)
    requires GlobalsOk(g)
  {
    && d.log.eatenRequest == [index]
    && d.log.sent == m.log.sent
    && if 0x0A <= index <= 0x0D then
         d.state == ReadParams && d.interest == OP_READ && d.index == index && d.log.replies == m.log.replies
       else
         && d.state == WriteReply && d.interest == OP_WRITE && IndexAnswered(index, g, d.writeBuffer.contents)
         && d.log.replies == m.log.replies + d.writeBuffer.contents
  }

  lemma IndexFacts(m: Mng, admins: seq<Registries.User>)
    requires MngOk(m, admins) && m.state == ReadIndex
    ensures m.request == ClientWire.StartIndex() && m.log.eatenRequest == [] && BuffersOk(m) && m.interest == OP_READ
    ensures m.writeBuffer.contents == [] && m.writeBuffer.Room() == BUFFER_SIZE && m.log.replies == m.log.sent
    ensures Opened(m.log.replies)
  {
    hide Sound, Told, Opened, ClientWire.StartIndex;
    ReadsIndex(m, admins);
    NothingWaits(m, admins);
    AdministratorTold(m);
    AllSent(m);
  }

  lemma NothingWaits(m: Mng, admins: seq<Registries.User>)
    requires Sound(m, admins) && (m.state == ReadIndex || m.state == ReadParams)
    ensures m.interest == OP_READ && m.writeBuffer.contents == [] && m.writeBuffer.Room() == BUFFER_SIZE && BuffersOk(m)
    ensures m.state == ReadIndex ==> m.log.eatenRequest == []
  {
    hide Vetted, AuthFollows, ParamsFollow, HelloFollows, ClientWire.StartIndex, ClientWire.StartParams;
  }

  lemma AdministratorTold(m: Mng)
    requires Told(m) && (m.state == ReadIndex || m.state == ReadParams)
    ensures Opened(m.log.replies) && m.log.sent == m.log.replies
    ensures m.log.sent + m.writeBuffer.contents == m.log.replies
  {
    hide Opened;
  }

  lemma IndexHandled(m: Mng, g: Globals, admins: seq<Registries.User>)
    requires MngOk(m, admins) && m.state == ReadIndex && m.readBuffer.contents != [] && GlobalsOk(g)
    requires !Overruns(m, g)
    ensures var (h, p) := OnReadIndex(m, g);
      && h.state == ReadIndex && h.readBuffer.contents == m.readBuffer.contents[1..]
      && h.log.sent + h.writeBuffer.contents == h.log.replies
      && IndexHeard(m, m.readBuffer.contents[0], g, h.(state := p))
      && (p == ReadParams ==> h.log == m.log.(eatenRequest := h.log.eatenRequest) && h.writeBuffer == m.writeBuffer)
      && (h.log.replies == m.log.replies + h.writeBuffer.contents || p == ReadParams)
  {
    hide MngOk, FieldParsers.Take, ClientWire.StartIndex, Field, ListingSafe, UintReply, ListReply, Affordable, Marshal;
    hide IndexHeard, Answer;
    IndexFacts(m, admins);
    IndexTaken(m);
    var d, i := EatRequest(m), m.readBuffer.contents[0];
    Outcomes.Popped(m.readBuffer, 1);
    assert [] + m.readBuffer.contents[..1] == [i];
    assert m.log.replies + [] == m.log.replies && forall s: seq<byte> :: [] + s == s;
    if Supported(i) {
      var e := d.(index := i);
      AnswerGiven(g, i);
      if Answer(g, i, BUFFER_SIZE).Some? {
        var answer := Answer(g, i, BUFFER_SIZE).value;
        AnswerFits(m, g, i);
        MarshalTold(e, answer);
        HeardSo(m, i, g, OnReadIndex(m, g).0.(state := WriteReply));
      } else {
        HeardOn(m, i, g, OnReadIndex(m, g).0.(state := ReadParams));
      }
    } else {
      MarshalTold(d, [0x02]);
      HeardSo(m, i, g, OnReadIndex(m, g).0.(state := WriteReply));
    }
  }

  lemma HeardSo(m: Mng, index: byte, g: Globals, d: Mng)
    requires GlobalsOk(g) && !(0x0A <= index <= 0x0D) && d.log.eatenRequest == [index]
    requires d.state == WriteReply && d.interest == OP_WRITE && IndexAnswered(index, g, d.writeBuffer.contents)
    requires d.log.replies == m.log.replies + d.writeBuffer.contents && d.log.sent == m.log.sent
    ensures IndexHeard(m, index, g, d)
  {
  }

  lemma HeardOn(m: Mng, index: byte, g: Globals, d: Mng)
    requires GlobalsOk(g) && 0x0A <= index <= 0x0D && d.log.eatenRequest == [index]
    requires d.state == ReadParams && d.interest == OP_READ && d.index == index
    requires d.log.replies == m.log.replies && d.log.sent == m.log.sent
    ensures IndexHeard(m, index, g, d)
  {
  }

  /** The answer of each index is the one that its number stands for. */
  lemma AnswerGiven(g: Globals, index: byte)
    requires GlobalsOk(g) && Supported(index)
    ensures Answer(g, index, BUFFER_SIZE).Some? <==> index <= 0x09
    ensures index <= 0x09 ==> IndexAnswered(index, g, Answer(g, index, BUFFER_SIZE).value)
  {
    hide UintReply, ListReply, Affordable;
  }

  lemma AnswerFits(m: Mng, g: Globals, index: byte)
    requires GlobalsOk(g) && m.request == ClientWire.StartIndex() && m.readBuffer.contents != [] && index <= 0x09
    requires index == m.readBuffer.contents[0] && m.writeBuffer.Room() == BUFFER_SIZE && !Overruns(m, g)
    ensures Answer(g, index, BUFFER_SIZE).Some? && |Answer(g, index, BUFFER_SIZE).value| <= BUFFER_SIZE
  {
    IndexTaken(m);
    hide FieldParsers.Take, ClientWire.StartIndex, ListReply, Affordable;
  }

  /**
   * An index. Each of the ten that need no parameters is answered with what it asks for: the indexes
   * there are, the users, or one of the eight counters; the four others have their parameters waited
   * for, and any other octet is turned down.
   */
  lemma IndexOutcome(m: Mng, received: Option<seq<byte>>, g: Globals, admins: seq<Registries.User>)
    requires MngOk(m, admins) && m.state == ReadIndex && Expected(m, Readable(received), g)
    ensures m.writeBuffer.Room() >= 0
    ensures var r := Dispatch(m, Readable(received), g, admins);
      && r.Some? && r.value.1 == g && MngOk(r.value.0, admins)
      && var d := r.value.0;
      && if m.readBuffer.Room() <= 0 then
           d.state == WriteReply && d.interest == OP_WRITE && d.writeBuffer.contents == [0x01]
         else if received.None? then d.state == Error
         else IndexHeard(m, (m.readBuffer.contents + received.value)[0], g, d)
              && d.readBuffer.contents == (m.readBuffer.contents + received.value)[1..]
  {
    hide Sound, Dispatch, Due, ListingSafe, GlobalsOk, OnReadIndex, IndexHeard, Told, Opened, Overruns, Jump;
    Reads(m, received, g, admins);
    IndexFacts(m, admins);
    if m.readBuffer.Room() <= 0 {
      MarshalTold(m, [0x01]);
      assert [] + [0x01 as byte] == [0x01];
      Jumped(ToWrite(m, [0x01]).0, WriteReply);
      LateTold(Dispatch(m, Readable(received), g, admins).value.0);
    } else if received.Some? {
      var d := Received(m, received.value);
      MoreToRead(m, received.value, admins);
      ListsOverruns(m, received.value, g);
      IndexHandled(d, g, admins);
      var (h, p) := OnReadIndex(d, g);
      Jumped(h, p);
      IndexLeads(d, d.readBuffer.contents[0], g, h.(state := p));
      IndexAs(d, m, d.readBuffer.contents[0], g, h.(state := p), Dispatch(m, Readable(received), g, admins).value.0);
      if p == WriteReply {
        LateTold(Dispatch(m, Readable(received), g, admins).value.0);
      } else {
        ParamsTold(Dispatch(m, Readable(received), g, admins).value.0);
      }
    } else {
      Jumped(m, Error);
      EndTold(Jump(m, Error).value, m);
    }
  }

  lemma LateTold(d: Mng)
    requires d.state == WriteReply && d.log.sent + d.writeBuffer.contents == d.log.replies
    ensures Told(d)
  {
  }

  lemma ParamsTold(d: Mng)
    requires d.state == ReadParams && Opened(d.log.replies) && d.log.sent == d.log.replies
        && d.writeBuffer.contents == []
    ensures Told(d)
  {
    AllSent(d.(log := d.log.(replies := d.log.sent)));
    assert d.log.sent + [] == d.log.sent;
  }

  lemma IndexLeads(m: Mng, index: byte, g: Globals, d: Mng)
    requires GlobalsOk(g) && IndexHeard(m, index, g, d)
    ensures d.state in {WriteReply, ReadParams}
  {
    hide IndexAnswered;
  }

  /** What was heard does not depend on what is yet to be parsed. */
  lemma IndexAs(a: Mng, b: Mng, index: byte, g: Globals, d: Mng, e: Mng)
    requires GlobalsOk(g) && IndexHeard(a, index, g, d) && a.log == b.log && e.state == d.state
    requires e.log == d.log.(admitted := e.log.admitted) && e.writeBuffer == d.writeBuffer && e.interest == d.interest
    requires e.index == d.index
    ensures IndexHeard(b, index, g, e)
  {
    hide IndexAnswered;
  }

  // ----- The parameters -----

  /** Parameters so far, and what comes of them and of the proxy. */
  ghost predicate ParamsHeard(m: Mng, heard: seq<byte>, g: Globals, d: Mng, g': Globals) {
    && ClientWire.Params(m.index).Some?
    && var (p, n) := FieldParsers.Take(ClientWire.StartParams(m.index), heard);
    && n <= |heard| && d.log.eatenRequest == [m.index] + heard[..n] && d.log.sent == m.log.sent
    && if FieldParsers.IsDone(p) then
         && d.state == WriteReply && d.interest == OP_WRITE && d.readBuffer.contents == heard[n..]
         && |d.writeBuffer.contents| == 1 && d.log.replies == m.log.replies + d.writeBuffer.contents
         && Applied(m.index, heard[..n], g, g', d.writeBuffer.contents[0])
       else d.state == ReadParams && d.interest == OP_READ && n == |heard| && g' == g && d.log.replies == m.log.replies
  }

  lemma ParamsFacts(m: Mng, admins: seq<Registries.User>)
    requires MngOk(m, admins) && m.state == ReadParams
    ensures m.interest == OP_READ && m.writeBuffer.contents == [] && m.writeBuffer.Room() == BUFFER_SIZE && BuffersOk(m)
    ensures m.log.eatenRequest != [] && m.log.eatenRequest[0] == m.index && !FieldParsers.IsDone(m.request)
    ensures ParamsFollow(m.index, m.request, m.log.eatenRequest[1..])
    ensures Opened(m.log.replies) && m.log.sent == m.log.replies
  {
    hide Told, Opened, Vetted, AuthFollows, ParamsFollow, HelloFollows, ClientWire.StartIndex, ClientWire.StartParams;
    NothingWaits(m, admins);
    AdministratorTold(m);
  }

  lemma ParamsParsed(m: Mng)
    requires m.log.eatenRequest != [] && ParamsFollow(m.index, m.request, m.log.eatenRequest[1..])
    requires !FieldParsers.IsDone(m.request) && m.log.eatenRequest[0] == m.index
    ensures var d, heard := EatRequest(m), m.log.eatenRequest[1..] + m.readBuffer.contents;
      var r := FieldParsers.Take(ClientWire.StartParams(m.index), heard);
      && r.0 == d.request && r.1 <= |heard| && d.log.eatenRequest == [m.index] + heard[..r.1]
      && d.readBuffer.contents == heard[r.1..] && (!FieldParsers.IsDone(r.0) ==> r.1 == |heard|)
      && d == m.(request := d.request, readBuffer := d.readBuffer, log := m.log.(eatenRequest := d.log.eatenRequest))
  {
    hide FieldParsers.State.Valid, FieldParsers.WellFormed, Machines.Consume, ClientWire.StartParams;
    var eaten, b := m.log.eatenRequest[1..], m.readBuffer.contents;
    ParamsStart(m.index);
    Outcomes.Rejoined(FieldParsers.Feed, FieldParsers.IsDone, ClientWire.StartParams(m.index), m.request, eaten, b);
    Machines.ConsumeSplit(FieldParsers.Feed, FieldParsers.IsDone, ClientWire.StartParams(m.index), eaten + b, []);
    var n := FieldParsers.Take(m.request, b).1;
    Outcomes.Cut(eaten, b, n);
    Outcomes.Popped(m.readBuffer, n);
    assert m.log.eatenRequest + b[..n] == [m.index] + (eaten + b[..n]);
    assert (eaten + b)[..|eaten + b|] == eaten + b;
  }

  lemma ParamsHandled(m: Mng, chunk: seq<byte>, g: Globals, admins: seq<Registries.User>)
    requires MngOk(m, admins) && m.state == ReadParams && m.started && 0 < |chunk| <= m.readBuffer.Room()
        && GlobalsOk(g)
    ensures m.log.eatenRequest != []
    ensures var (h, g', p) := OnReadParams(Received(m, chunk), g);
      && h.state == ReadParams
      && ParamsHeard(m, m.log.eatenRequest[1..] + (m.readBuffer.contents + chunk), g, h.(state := p), g')
      && h.log.sent + h.writeBuffer.contents == h.log.replies && (p == ReadParams ==> h.writeBuffer == m.writeBuffer)
  {
    hide MngOk, FieldParsers.Take, ClientWire.StartParams, Process, Applied, EatRequest, Marshal, ParamsFollow;
    var d := Received(m, chunk);
    MoreToRead(m, chunk, admins);
    ParamsFacts(d, admins);
    ParamsFacts(m, admins);
    ParamsParsed(d);
    ParamsIndex(m.index, m.request, m.log.eatenRequest[1..]);
    var heard, e := m.log.eatenRequest[1..] + (m.readBuffer.contents + chunk), EatRequest(d);
    ClientWire.ParamsNeverRejected(m.index, heard);
    MarshalTold(e, [Process(e, g).1]);
    assert forall s: seq<byte> :: [] + s == s && s + [] == s;
    if FieldParsers.IsDone(e.request) {
      RequestTaken(m.index, e.request, heard);
      ParamsApplied(e, g, heard[..FieldParsers.Take(ClientWire.StartParams(m.index), heard).1]);
    }
  }

  lemma ParamsIndex(index: byte, p: FieldParsers.Parser, eaten: seq<byte>)
    requires ParamsFollow(index, p, eaten)
    ensures ClientWire.Params(index).Some?
  {
  }

  /** A finished parser has eaten its message, and makes the same of it alone. */
  lemma RequestTaken(index: byte, p: FieldParsers.Parser, heard: seq<byte>)
    requires ClientWire.Params(index).Some? && FieldParsers.Take(ClientWire.StartParams(index), heard).0 == p
    requires FieldParsers.IsDone(p)
    ensures ParamsFollow(index, p, heard[..FieldParsers.Take(ClientWire.StartParams(index), heard).1])
  {
    hide FieldParsers.State.Valid, FieldParsers.WellFormed, Machines.Consume, ClientWire.StartParams;
    var start, n := ClientWire.StartParams(index), FieldParsers.Take(ClientWire.StartParams(index), heard).1;
    Machines.ConsumeTaken(FieldParsers.Feed, FieldParsers.IsDone, start, heard);
  }

  /**
   * Parameters. However they are cut, the event that completes them has the users, the required
   * method or the dissectors changed as they say, and nothing else, and answers with their status;
   * until then nothing changes and nothing is said.
   */
  lemma ParamsOutcome(m: Mng, received: Option<seq<byte>>, g: Globals, admins: seq<Registries.User>)
    requires MngOk(m, admins) && m.state == ReadParams && Expected(m, Readable(received), g)
    ensures m.writeBuffer.Room() >= 0 && m.log.eatenRequest != []
    ensures var r := Dispatch(m, Readable(received), g, admins);
      && r.Some? && MngOk(r.value.0, admins)
      && if received.None? then r.value.0.state == Error && r.value.1 == g
         else
           ParamsHeard(m, m.log.eatenRequest[1..] + (m.readBuffer.contents + received.value), g, r.value.0, r.value.1)
  {
    hide Sound, Dispatch, Due, Lists, ListingSafe, GlobalsOk, OnReadParams, ParamsHeard, Told, Opened;
    Reads(m, received, g, admins);
    ParamsFacts(m, admins);
    if received.Some? {
      ParamsHandled(m, received.value, g, admins);
      var heard := m.log.eatenRequest[1..] + (m.readBuffer.contents + received.value);
      var (h, g', p) := OnReadParams(Received(m, received.value), g);
      Jumped(h, p);
      ParamsLead(m, heard, g, h.(state := p), g');
      if p == WriteReply {
        LateTold(h.(state := p));
      } else {
        ParamsTold(h.(state := p));
      }
    } else {
      Jumped(m, Error);
      EndTold(Jump(m, Error).value, m);
    }
  }

  lemma ParamsLead(m: Mng, heard: seq<byte>, g: Globals, d: Mng, g': Globals)
    requires ParamsHeard(m, heard, g, d, g') && m.log.sent == m.log.replies
    ensures d.state in {WriteReply, ReadParams}
    ensures d.state == ReadParams ==> d.log.replies == m.log.replies && d.log.sent == m.log.sent
  {
    hide FieldParsers.Take, Applied;
  }

  /** The answer to a request is sent whole before the connection is over. */
  lemma ReplyOutcome(m: Mng, sent: Option<nat>, g: Globals, admins: seq<Registries.User>)
    requires MngOk(m, admins) && m.state == WriteReply && Expected(m, Writable(sent), g)
    ensures m.writeBuffer.Room() >= 0
    ensures var r := Dispatch(m, Writable(sent), g, admins);
      && r.Some? && r.value.1 == g && MngOk(r.value.0, admins)
      && var d := r.value.0;
      && d.log.replies == m.log.replies
      && if sent.None? then d.state == Error
         else if sent.value < |m.writeBuffer.contents| then
           d.state == WriteReply && d.writeBuffer.contents == m.writeBuffer.contents[sent.value..]
         else d.state == Done && d.log.sent == m.log.replies
  {
    hide Sound, Dispatch, Due, Lists, ListingSafe, GlobalsOk, FieldParsers.State.Valid, FieldParsers.WellFormed;
    Writes(m, sent, g, admins);
    if sent.Some? {
      SentTold(m, sent.value);
      AllSent(Sent(m, sent.value));
      Outcomes.Popped(m.writeBuffer, sent.value);
    }
  }

  // ----- Clients served -----

  /** An event, when it may be expected. */
  ghost function After(m: Mng, e: Event, g: Globals, admins: seq<Registries.User>): Option<(Mng, Globals)> {
    if Expected(m, e, g) && m.writeBuffer.Room() >= 0 then Dispatch(m, e, g, admins) else None
  }

  lemma NewMngOk(admins: seq<Registries.User>)
    ensures MngOk(NewMng(), admins)
  {
    NewMngSound(admins);
    var none: seq<byte> := [];
    assert none + none == none;
  }

  /** A connection with a request to make, and one of its octets read so far. */
  ghost predicate Heard(m: Mng, p: Phase, admins: seq<Registries.User>) {
    MngOk(m, admins) && m.state == p && m.readBuffer.contents == []
  }

  lemma MayRead(m: Mng, chunk: seq<byte>, g: Globals, admins: seq<Registries.User>)
    requires MngOk(m, admins) && m.state in {HelloRead, UserpassRead, ReadParams} && m.readBuffer.contents == []
    requires 0 < |chunk| <= BUFFER_SIZE && GlobalsOk(g)
    ensures Expected(m, Readable(Some(chunk)), g) && m.writeBuffer.Room() >= 0 && CallsBounded(m, Readable(Some(chunk)))
  {
    hide Told, Vetted, AuthFollows, ParamsFollow, HelloFollows, ClientWire.StartIndex;
  }

  lemma MayWrite(m: Mng, g: Globals, admins: seq<Registries.User>)
    requires MngOk(m, admins) && m.state in {HelloWrite, UserpassWrite, WriteReply} && GlobalsOk(g)
    ensures var e := Writable(Some(|Managements.Offered(m)|));
      Expected(m, e, g) && m.writeBuffer.Room() >= 0 && CallsBounded(m, e)
  {
    hide Told, Vetted, AuthFollows, ParamsFollow, HelloFollows, ClientWire.StartIndex;
  }

  /** A management client's whole greeting. */
  predicate Greeting(s: seq<byte>) {
    Hellos.Complete(0x01, s) && |s| == Hellos.MessageLength(s)
  }

  lemma Greeted(s: seq<byte>, g: Globals, admins: seq<Registries.User>) returns (r: Mng)
    requires Greeting(s) && GlobalsOk(g)
    ensures After(NewMng(), Readable(Some(s)), g, admins) == Some((r, g))
    ensures var m := if 0x02 in Hellos.Offered(s) then 0x02 else 0xFF;
      Heard(r, HelloWrite, admins) && r.writeBuffer.contents == [0x01, m] && r.log.eatenHello == s
  {
    hide MngOk, Dispatch, Expected, FieldParsers.State.Valid, FieldParsers.WellFormed;
    NewMngOk(admins);
    MayRead(NewMng(), s, g, admins);
    GreetingOutcome(NewMng(), Some(s), g, admins);
    assert [] + ([] + s) == s && s[..|s|] == s && s[|s|..] == [];
    r := Dispatch(NewMng(), Readable(Some(s)), g, admins).value.0;
  }

  lemma Answered(m: Mng, g: Globals, admins: seq<Registries.User>) returns (r: Mng)
    requires Heard(m, HelloWrite, admins) && |m.writeBuffer.contents| == 2 && GlobalsOk(g)
    requires Hellos.Complete(0x01, m.log.eatenHello) && 0x02 in Hellos.Offered(m.log.eatenHello)
    ensures After(m, Writable(Some(2)), g, admins) == Some((r, g))
    ensures Heard(r, UserpassRead, admins) && r.log.sent == [0x01, 0x02] && r.log.eatenAuth == []
  {
    hide MngOk, Dispatch, Expected, FieldParsers.State.Valid, FieldParsers.WellFormed;
    MayWrite(m, g, admins);
    GreetingAnswered(m, Some(2), g, admins);
    r := Dispatch(m, Writable(Some(2)), g, admins).value.0;
  }

  lemma CredentialsSent(m: Mng, user: seq<byte>, pass: seq<byte>, g: Globals, admins: seq<Registries.User>)
      returns (r: Mng)
    requires Heard(m, UserpassRead, admins) && m.log.eatenAuth == [] && |user| <= 255 && |pass| <= 255 && GlobalsOk(g)
    requires m.log.sent == [0x01, 0x02]
    ensures After(m, Readable(Some(ClientWire.Credentials(user, pass))), g, admins) == Some((r, g))
    ensures Heard(r, UserpassWrite, admins) && r.log.eatenAuth == ClientWire.Credentials(user, pass)
    ensures r.log.replies == r.log.sent == [0x01, 0x02]
  {
    hide MngOk, Dispatch, Expected, FieldParsers.State.Valid, FieldParsers.WellFormed, ClientWire.WholeCredentials;
    hide ClientWire.CredentialsSize, ClientWire.UserOf, ClientWire.PassOf, GlobalsOk;
    var message := ClientWire.Credentials(user, pass);
    MayRead(m, message, g, admins);
    CredentialsOutcome(m, Some(message), g, admins);
    ClientWire.SpelledWhole(user, pass, []);
    assert message + [] == message && [] + ([] + message) == message && message[..|message|] == message;
    r := Dispatch(m, Readable(Some(message)), g, admins).value.0;
  }

  lemma CredentialsSettled(m: Mng, user: seq<byte>, pass: seq<byte>, g: Globals, admins: seq<Registries.User>)
      returns (r: Mng)
    requires Heard(m, UserpassWrite, admins) && |user| <= 255 && |pass| <= 255 && GlobalsOk(g)
    requires m.log.eatenAuth == ClientWire.Credentials(user, pass) && m.log.replies == m.log.sent == [0x01, 0x02]
    ensures After(m, Writable(Some(2)), g, admins) == Some((r, g))
    ensures var right := Registries.Check(admins, CString(user), CString(pass)).Some?;
      && Heard(r, if right then ReadIndex else Done, admins)
      && r.log.sent == [0x01, 0x02, 0x01, if right then 0x00 else 0x01]
  {
    hide MngOk, Dispatch, Expected, FieldParsers.State.Valid, FieldParsers.WellFormed, ClientWire.WholeCredentials;
    hide ClientWire.CredentialsSize, ClientWire.UserOf, ClientWire.PassOf, GlobalsOk, Repeats;
    OneAnswer(m, admins);
    MayWrite(m, g, admins);
    CredentialsAnswered(m, Some(2), g, admins);
    ClientWire.SpelledWhole(user, pass, []);
    assert ClientWire.Credentials(user, pass) + [] == ClientWire.Credentials(user, pass);
    r := Dispatch(m, Writable(Some(2)), g, admins).value.0;
  }

  lemma OneAnswer(m: Mng, admins: seq<Registries.User>)
    requires MngOk(m, admins) && m.state == UserpassWrite && m.log.replies == m.log.sent
    ensures |Managements.Offered(m)| == 2 && m.writeBuffer.Room() >= 2
  {
    AllSent(m);
    hide Vetted, AuthFollows, HelloFollows;
  }

  /**
   * An administrator is heard, and nobody else. A client that offers passwords and sends a name and a
   * password is sent 01 02, then 01 00 and heard for its request if that pair is an administrator's,
   * and 01 01 and nothing more if it is not.
   */
  lemma AdministratorHeard(s: seq<byte>, user: seq<byte>, pass: seq<byte>, g: Globals, admins: seq<Registries.User>)
      returns (r: Mng)
    requires Greeting(s) && 0x02 in Hellos.Offered(s) && |user| <= 255 && |pass| <= 255 && GlobalsOk(g)
    ensures var m1 := After(NewMng(), Readable(Some(s)), g, admins);
      && m1.Some? && var m2 := After(m1.value.0, Writable(Some(2)), g, admins);
      && m2.Some? && var m3 := After(m2.value.0, Readable(Some(ClientWire.Credentials(user, pass))), g, admins);
      && m3.Some? && After(m3.value.0, Writable(Some(2)), g, admins) == Some((r, g))
    ensures var right := Registries.Check(admins, CString(user), CString(pass)).Some?;
      && Heard(r, if right then ReadIndex else Done, admins)
      && r.log.sent == [0x01, 0x02, 0x01, if right then 0x00 else 0x01]
  {
    hide After, Heard, GlobalsOk;
    var m1 := Greeted(s, g, admins);
    HeardParts(m1, HelloWrite, admins);
    var m2 := Answered(m1, g, admins);
    var m3 := CredentialsSent(m2, user, pass, g, admins);
    r := CredentialsSettled(m3, user, pass, g, admins);
  }

  lemma HeardParts(m: Mng, p: Phase, admins: seq<Registries.User>)
    requires Heard(m, p, admins)
    ensures MngOk(m, admins) && m.state == p
  {
  }

  /**
   * A request that changes something is served. An administrator that sends one of the four indexes
   * and then its whole parameters has the proxy changed as they say, is sent the status of that and
   * nothing else, and is done with.
   */
  lemma RequestServed(m: Mng, index: byte, params: seq<byte>, g: Globals, admins: seq<Registries.User>)
      returns (r: Mng, g': Globals, status: byte)
    requires Heard(m, ReadIndex, admins) && ClientWire.Params(index).Some? && GlobalsOk(g)
    requires 0 < |params| <= BUFFER_SIZE
    requires var t := FieldParsers.Take(ClientWire.StartParams(index), params);
      FieldParsers.IsDone(t.0) && t.1 == |params|
    ensures var m1 := After(m, Readable(Some([index])), g, admins);
      && m1.Some? && m1.value.1 == g && var m2 := After(m1.value.0, Readable(Some(params)), g, admins);
      && m2.Some? && m2.value.1 == g' && After(m2.value.0, Writable(Some(1)), g', admins) == Some((r, g'))
    ensures Applied(index, params, g, g', status) && GlobalsOk(g')
    ensures r.state == Done && r.log.sent == m.log.sent + [status]
  {
    hide MngOk, Dispatch, Expected, FieldParsers.Take, FieldParsers.State.Valid, FieldParsers.WellFormed, Applied;
    hide ClientWire.StartParams, Opened, GlobalsOk;
    IndexFacts(m, admins);
    var m1 := IndexSent(m, index, g, admins);
    ParamsFacts(m1, admins);
    MayRead(m1, params, g, admins);
    ParamsOutcome(m1, Some(params), g, admins);
    assert [index][1..] == [] && [] + ([] + params) == params && params[..|params|] == params;
    var (m2, after) := Dispatch(m1, Readable(Some(params)), g, admins).value;
    g', status := after, m2.writeBuffer.contents[0];
    assert m2.writeBuffer.contents == [status];
    AppliedOk(index, params, g, g', status);
    MayWrite(m2, g', admins);
    ReplyOutcome(m2, Some(1), g', admins);
    r := Dispatch(m2, Writable(Some(1)), g', admins).value.0;
  }

  /** A request leaves the proxy's names short enough to be listed. */
  lemma AppliedOk(index: byte, params: seq<byte>, g: Globals, g': Globals, status: byte)
    requires Applied(index, params, g, g', status) && GlobalsOk(g)
    ensures GlobalsOk(g')
  {
    if index == 0x0A {
      AddedOk(params, g, g', status);
    }
  }

  lemma AddedOk(params: seq<byte>, g: Globals, g': Globals, status: byte)
    requires Applied(0x0A, params, g, g', status) && GlobalsOk(g)
    ensures GlobalsOk(g')
  {
    var name, pass :| |name| <= 255 && |pass| <= 255 && params == ClientWire.UserAndPass(name, pass)
      && g' == g.(users := Registries.Add(g.users, Registries.User(CString(name), CString(pass))));
    NoLonger(name);
  }

  lemma {:induction false} NoLonger(s: seq<byte>)
    ensures |CString(s)| <= |s|
    decreases |s|
  {
    if s != [] && s[0] != 0 {
      NoLonger(s[1..]);
    }
  }

  lemma IndexSent(m: Mng, index: byte, g: Globals, admins: seq<Registries.User>) returns (r: Mng)
    requires Heard(m, ReadIndex, admins) && ClientWire.Params(index).Some? && GlobalsOk(g)
    ensures After(m, Readable(Some([index])), g, admins) == Some((r, g))
    ensures Heard(r, ReadParams, admins) && r.index == index && r.log.eatenRequest == [index]
        && r.log.sent == m.log.sent
  {
    hide MngOk, Dispatch, FieldParsers.Take, FieldParsers.State.Valid, FieldParsers.WellFormed, ListingSafe, GlobalsOk;
    IndexFacts(m, admins);
    assert [] + [index] == [index];
    assert Expected(m, Readable(Some([index])), g);
    IndexOutcome(m, Some([index]), g, admins);
    r := Dispatch(m, Readable(Some([index])), g, admins).value.0;
    ParamsFacts(r, admins);
  }

  /** A question is answered: an administrator that sends any other index is sent what it asks for, and is done with. */
  lemma QueryServed(m: Mng, index: byte, g: Globals, admins: seq<Registries.User>) returns (r: Mng, answer: seq<byte>)
    requires Heard(m, ReadIndex, admins) && !(0x0A <= index <= 0x0D) && GlobalsOk(g)
    requires index == 0x01 ==> ListingSafe(g, BUFFER_SIZE)
    ensures var m1 := After(m, Readable(Some([index])), g, admins);
      && m1.Some? && m1.value.1 == g && After(m1.value.0, Writable(Some(|answer|)), g, admins) == Some((r, g))
    ensures IndexAnswered(index, g, answer) && r.state == Done && r.log.sent == m.log.sent + answer
  {
    hide MngOk, Dispatch, FieldParsers.State.Valid, FieldParsers.WellFormed, ListingSafe, GlobalsOk, IndexAnswered;
    IndexFacts(m, admins);
    assert [] + [index] == [index];
    assert Expected(m, Readable(Some([index])), g);
    IndexOutcome(m, Some([index]), g, admins);
    var m1 := Dispatch(m, Readable(Some([index])), g, admins).value.0;
    answer := m1.writeBuffer.contents;
    MayWrite(m1, g, admins);
    ReplyOutcome(m1, Some(|answer|), g, admins);
    r := Dispatch(m1, Writable(Some(|answer|)), g, admins).value.0;
  }
}
