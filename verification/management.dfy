/**
 * A management connection (src/management.c, src/management_request.c). Its greeting and its
 * credentials run through the handlers of the SOCKS machine; then it makes one request, which
 * may change the users, the required method or the dissectors of the whole proxy.
 */
module Managements {
  import opened Bytes
  import opened Buffers
  import opened Selectors
  import opened ManagementReplies
  import opened MetricsCounters
  import opened ProxySettings
  import ClientWire
  import FieldParsers
  import Hellos
  import Machines
  import Registries

  datatype Phase =
    | HelloRead | HelloWrite | UserpassRead | UserpassWrite
    | ReadIndex | ReadParams | WriteReply
    | Done | Error

  /** What a management request reads or changes. */
  datatype Globals = Globals(users: Registries.Roster, authMethod: byte, dissectors: byte, metrics: Counters)

  predicate GlobalsOk(g: Globals) {
    forall j :: 0 <= j < |g.users| ==> |g.users[j].name| <= 255
  }

  /** A listing that the size test accepts fits the room. Otherwise it is written past the end of the buffer. */
  predicate ListingSafe(g: Globals, room: nat)
    requires GlobalsOk(g)
  {
    var names := Registries.Names(g.users);
    Affordable(names, Budget(room)) ==> |ListReply(names)| <= room
  }

  /** What each parser has eaten, what has been marshalled for the client and what send has taken of it. */
  datatype Log = Log(
    eatenHello: seq<byte>,
    eatenAuth: seq<byte>,
    eatenRequest: seq<byte>,
    admitted: bool,
    replies: seq<byte>,
    sent: seq<byte>)

  datatype Mng = Mng(
    state: Phase,
    started: bool,
    interest: Interest,
    hello: Hellos.Hello,
    auth: FieldParsers.Parser,
    authentication: byte,
    request: FieldParsers.Parser,
    index: byte,
    readBuffer: Fifo,
    writeBuffer: Fifo,
    log: Log)

  const BUFFER_SIZE := 2048
  const MNG_AUTH_METHOD: byte := 0x02

  /** mng_new, registered for reading. */
  function NewMng(): Mng {
    Mng(HelloRead, false, OP_READ, Hellos.Start(Hellos.MNG_VERSION, MNG_AUTH_METHOD), FieldParsers.EMPTY, 0,
        FieldParsers.EMPTY, 0,
        EmptyFifo(BUFFER_SIZE), EmptyFifo(BUFFER_SIZE), Log([], [], [], false, [], []))
  }

  function Marshal(m: Mng, reply: seq<byte>): Mng {
    if m.writeBuffer.Room() < |reply| then m
    else m.(writeBuffer := m.writeBuffer.Push(reply), log := m.log.(replies := m.log.replies + reply))
  }

  // ----- The handlers shared with the SOCKS machine -----

  function EatHello(m: Mng): Mng {
    var r := Hellos.Take(m.hello, m.readBuffer.contents);
    m.(hello := r.0, readBuffer := m.readBuffer.Pop(r.1),
        log := m.log.(eatenHello := m.log.eatenHello + m.readBuffer.contents[..r.1]))
  }

  function EatAuth(m: Mng): Mng {
    var r := FieldParsers.Take(m.auth, m.readBuffer.contents);
    m.(auth := r.0, readBuffer := m.readBuffer.Pop(r.1),
        log := m.log.(eatenAuth := m.log.eatenAuth + m.readBuffer.contents[..r.1]))
  }

  function EatRequest(m: Mng): Mng {
    var r := FieldParsers.Take(m.request, m.readBuffer.contents);
    m.(request := r.0, readBuffer := m.readBuffer.Pop(r.1),
        log := m.log.(eatenRequest := m.log.eatenRequest + m.readBuffer.contents[..r.1]))
  }

  /** hello_read, with the management version. */
  function OnHelloRead(m: Mng): (Mng, Phase) {
    var d := EatHello(m);
    if !Hellos.IsDone(d.hello) then (d, HelloRead)
    else
      var reply := [Hellos.MNG_VERSION, d.hello.chosen];
      (Marshal(d, reply).(interest := OP_WRITE),
       if d.writeBuffer.Room() < 2 || d.hello.phase == Hellos.UnsupportedVersion then Error else HelloWrite)
  }

  /** hello_write, once the reply is out; REQUEST_READ, its other way on, is the number of ReadIndex here. */
  function OnHelloWritten(m: Mng): (Mng, Phase) {
    if m.hello.chosen == Hellos.NO_ACCEPTABLE_METHODS then (m, Done)
    else (m.(interest := OP_READ),
          if m.hello.chosen == Hellos.USERNAME_PASSWORD then UserpassRead
          else if m.hello.chosen == Hellos.NO_AUTHENTICATION then ReadIndex
          else HelloWrite)
  }

  function Field(p: FieldParsers.Parser, i: nat): seq<byte> {
    if i < |p.results| then p.results[i] else []
  }

  /** auth_read, with checkMngCredentials. */
  function OnUserpassRead(m: Mng, admins: seq<Registries.User>): (Mng, Phase) {
    var d := EatAuth(m);
    if !FieldParsers.IsDone(d.auth) then (d, UserpassRead)
    else if d.auth.phase == FieldParsers.Phase.Error then (d.(interest := OP_WRITE), Error)
    else
      var found := Registries.Check(admins, CString(Field(d.auth, 2)), CString(Field(d.auth, 4)));
      (d.(interest := OP_WRITE, authentication := if found.Some? then 0x00 else 0x01), UserpassWrite)
  }

  /** auth_write appends its reply on every call. */
  function WithAuthReply(m: Mng): Mng {
    Marshal(m, [ClientWire.USERPASS_VERSION, m.authentication])
  }

  function OnUserpassWritten(m: Mng): (Mng, Phase) {
    if m.authentication != 0x00 then (m, Done) else (m.(interest := OP_READ), ReadIndex)
  }

  // ----- Requests -----

  /** The counter an index asks for. */
  function Counter(c: Counters, index: byte): nat
    requires 0x02 <= index <= 0x09
  {
    match index
    case 0x02 => c.historicConnections
    case 0x03 => c.concurrentConnections
    case 0x04 => c.maxConcurrentConnections
    case 0x05 => c.historicBytesTransferred
    case 0x06 => c.historicAuthAttempts
    case 0x07 => c.historicConnectionAttempts
    case 0x08 => c.averageBytesPerRead
    case _ => c.averageBytesPerWrite
  }

  /** process_mng_index: the answer, or None where parameters follow. */
  function Answer(g: Globals, index: byte, room: nat): (r: Option<seq<byte>>)
    requires GlobalsOk(g)
  {
    if index == 0x00 then Some(if room < 18 then [] else SUPPORTED_REPLY)
    else if index == 0x01 then
      Some(if Affordable(Registries.Names(g.users), Budget(room)) then ListReply(Registries.Names(g.users)) else [])
    else if index <= 0x09 then Some(if room < 5 then [] else UintReply(Counter(g.metrics, index)))
    else None
  }

  function ToWrite(m: Mng, reply: seq<byte>): (Mng, Phase) {
    (Marshal(m, reply).(interest := OP_WRITE), WriteReply)
  }

  /** mng_request_index_read, after its recv. */
  function OnReadIndex(m: Mng, g: Globals): (Mng, Phase)
    requires GlobalsOk(g) && m.writeBuffer.Room() >= 0
  {
    var d := EatRequest(m);
    if !FieldParsers.IsDone(d.request) then (d, ReadIndex)
    else if d.request.phase == FieldParsers.Phase.Error then ToWrite(d, [INDEX_NOT_SUPPORTED])
    else
      var index := if Field(d.request, 0) == [] then 0 else Field(d.request, 0)[0];
      var e := d.(index := index);
      var answer := Answer(g, index, e.writeBuffer.Room());
      if answer.Some? then ToWrite(e, answer.value) else (e.(interest := OP_READ), ReadParams)
  }

  /** disableAuth and disablePasswordDissectors look at one octet. */
  function OptionOf(p: FieldParsers.Parser): byte {
    if Field(p, 0) == [] then 0 else Field(p, 0)[0]
  }

  /** process_mng_params_request: the globals afterwards, and the status. */
  function Process(m: Mng, g: Globals): (Globals, byte) {
    if m.index == ClientWire.ADD_USER then
      if |g.users| == Registries.MAX_USERS then (g, MAX_USERS_REACHED)
      else (g.(users := Registries.Add(g.users,
        Registries.User(CString(Field(m.request, 1)), CString(Field(m.request, 3))))), SUCCEEDED)
    else if m.index == ClientWire.DELETE_USER then
      (g.(users := Registries.Delete(g.users, CString(Field(m.request, 1)))), SUCCEEDED)
    else if m.index == ClientWire.DISABLE_AUTH then
      (g.(authMethod := if OptionOf(m.request) == 0x00 then Hellos.USERNAME_PASSWORD else Hellos.NO_AUTHENTICATION),
          SUCCEEDED)
    else if m.index == ClientWire.DISABLE_DISSECTORS then
      (g.(dissectors := OptionOf(m.request)), SUCCEEDED)
    else (g, SERVER_ERROR)
  }

  /** mng_request_read, after its recv. */
  function OnReadParams(m: Mng, g: Globals): (Mng, Globals, Phase) {
    var d := EatRequest(m);
    if !FieldParsers.IsDone(d.request) then (d, g, ReadParams)
    else if d.request.phase == FieldParsers.Phase.Error then (d.(interest := OP_WRITE), g, Error)
    else
      var (g', status) := Process(d, g);
      (ToWrite(d, [status]).0, g', WriteReply)
  }

  /** The index is that of the listing, and its reply would be written past the end of the buffer. */
  predicate Overruns(m: Mng, g: Globals)
    requires GlobalsOk(g) && m.writeBuffer.Room() >= 0
  {
    Field(EatRequest(m).request, 0) == [0x01] && !ListingSafe(g, m.writeBuffer.Room())
  }

  // ----- The machine -----

  function Received(m: Mng, chunk: seq<byte>): Mng
    requires |chunk| <= m.readBuffer.Room()
  {
    m.(readBuffer := m.readBuffer.Push(chunk))
  }

  /** send from the write buffer. */
  function Sent(m: Mng, n: nat): Mng
    requires n <= |m.writeBuffer.contents|
  {
    m.(writeBuffer := m.writeBuffer.Pop(n), log := m.log.(sent := m.log.sent + m.writeBuffer.contents[..n]))
  }

  /** How many octets the state's recv asks for. */
  function Asked(m: Mng): int {
    if m.state == ReadIndex then (if m.readBuffer.Room() < 1 then m.readBuffer.Room() else 1) else m.readBuffer.Room()
  }

  /** What the state's send is given. */
  function Offered(m: Mng): seq<byte> {
    if m.state == UserpassWrite then WithAuthReply(m).writeBuffer.contents else m.writeBuffer.contents
  }

  /** handle_first. */
  function First(m: Mng): Mng {
    if m.started then m else m.(started := true, hello := Hellos.Start(Hellos.MNG_VERSION, MNG_AUTH_METHOD))
  }

  /** jump: the parsers are made on arrival; asking for parameters of an index that has none aborts. */
  function Jump(m: Mng, p: Phase): Option<Mng> {
    if p == m.state then Some(m)
    else
      var d := m.(state := p);
      match p
      case UserpassRead => Some(d.(auth := ClientWire.StartAuth()))
      case ReadIndex => Some(d.(request := ClientWire.StartIndex(), log := d.log.(admitted := true)))
      case ReadParams =>
        if ClientWire.Params(m.index).None? then None
        else Some(d.(request := ClientWire.StartParams(m.index)))
      case _ => Some(d)
  }

  datatype Event = Readable(received: Option<seq<byte>>) | Writable(sent: Option<nat>)

  predicate CallsBounded(m: Mng, e: Event) {
    match e
    case Readable(received) => received.Some? ==> 0 < |received.value| <= Asked(m)
    case Writable(sent) => sent.Some? ==> sent.value <= |Offered(m)|
  }

  /** A read handler on what recv answered. */
  function OnReadable(m: Mng, received: Option<seq<byte>>, g: Globals,
      admins: seq<Registries.User>): Option<(Mng, Globals, Phase)>
    requires GlobalsOk(g) && m.writeBuffer.Room() >= 0 && (received.Some? ==> |received.value| <= m.readBuffer.Room())
  {
    if m.state == ReadIndex && m.readBuffer.Room() <= 0 then
      var (d, p) := ToWrite(m, [SERVER_ERROR]);
      Some((d, g, p))
    else if m.state !in {HelloRead, UserpassRead, ReadIndex, ReadParams} then None
    else if received.None? then Some((m, g, Error))
    else
      var d := Received(m, received.value);
      match m.state
      case HelloRead => var r := OnHelloRead(d); Some((r.0, g, r.1))
      case UserpassRead => var r := OnUserpassRead(d, admins); Some((r.0, g, r.1))
      case ReadIndex => if Overruns(d, g) then None else var r := OnReadIndex(d, g); Some((r.0, g, r.1))
      case ReadParams => Some(OnReadParams(d, g))
  }

  /** A write handler on what send answered. */
  function OnWritable(m: Mng, sent: Option<nat>): Option<(Mng, Phase)>
    requires sent.Some? ==> sent.value <= |Offered(m)|
  {
    var d := if m.state == UserpassWrite then WithAuthReply(m) else m;
    if m.state !in {HelloWrite, UserpassWrite, WriteReply} then None
    else if sent.None? then Some((d, Error))
    else
      var w := Sent(d, sent.value);
      if w.writeBuffer.contents != [] then Some((w, m.state))
      else
        match m.state
        case HelloWrite => Some(OnHelloWritten(w))
        case UserpassWrite => Some(OnUserpassWritten(w))
        case WriteReply => Some((w, Done))
  }

  /** mng_read and mng_write; None is the end of the process, by abort() or by an overrun. */
  function Dispatch(m: Mng, e: Event, g: Globals, admins: seq<Registries.User>): Option<(Mng, Globals)>
    requires GlobalsOk(g) && CallsBounded(m, e) && m.writeBuffer.Room() >= 0
  {
    var m0 := First(m);
    match e
    case Readable(received) =>
      var r := OnReadable(m0, received, g, admins);
      if r.None? then None
      else
        var j := Jump(r.value.0, r.value.2);
        if j.None? then None else Some((j.value, r.value.1))
    case Writable(sent) =>
      var r := OnWritable(m0, sent);
      if r.None? then None
      else
        var j := Jump(r.value.0, r.value.1);
        if j.None? then None else Some((j.value, g))
  }

  // ----- The invariant -----

  predicate Terminal(p: Phase) {
    p == Done || p == Error
  }

  predicate HelloFollows(p: Hellos.Hello, eaten: seq<byte>) {
    p.wanted == MNG_AUTH_METHOD && Hellos.Take(Hellos.Start(Hellos.MNG_VERSION, MNG_AUTH_METHOD), eaten) == (p, |eaten|)
  }

  ghost predicate AuthFollows(p: FieldParsers.Parser, eaten: seq<byte>) {
    FieldParsers.Take(ClientWire.StartAuth(), eaten) == (p, |eaten|)
  }

  predicate Greeted(m: Mng) {
    m.started && HelloFollows(m.hello, m.log.eatenHello) && m.hello.phase == Hellos.Done
  }

  /** Whole credentials, and the outcome of looking them up. */
  ghost predicate Vetted(auth: FieldParsers.Parser, eaten: seq<byte>, answer: byte, admins: seq<Registries.User>) {
    && AuthFollows(auth, eaten) && auth.phase == FieldParsers.Done
    && (answer == 0x00 <==> Registries.Check(admins, CString(Field(auth, 2)), CString(Field(auth, 4))).Some?)
  }

  ghost predicate Examined(m: Mng, admins: seq<Registries.User>) {
    Greeted(m) && m.hello.chosen == MNG_AUTH_METHOD && Vetted(m.auth, m.log.eatenAuth, m.authentication, admins)
  }

  ghost predicate ParamsFollow(index: byte, p: FieldParsers.Parser, eaten: seq<byte>) {
    ClientWire.Params(index).Some? && FieldParsers.Take(ClientWire.StartParams(index), eaten) == (p, |eaten|)
  }

  predicate BuffersOk(m: Mng) {
    m.readBuffer.Valid() && m.writeBuffer.Valid() && m.readBuffer.limit == BUFFER_SIZE
        && m.writeBuffer.limit == BUFFER_SIZE
  }

  /** Interests, parsers and admission, state by state. */
  ghost predicate Sound(m: Mng, admins: seq<Registries.User>) {
    && BuffersOk(m) && (m.log.admitted ==> Examined(m, admins) && m.authentication == 0x00)
    && (m.state in {HelloRead, HelloWrite, UserpassRead, UserpassWrite} ==> m.log.eatenRequest == [])
    && match m.state
       case HelloRead =>
         m.interest == OP_READ && !m.log.admitted && m.log.eatenAuth == [] &&
         if m.started then HelloFollows(m.hello, m.log.eatenHello) && !Hellos.IsDone(m.hello)
         else m.log.eatenHello == []
       case HelloWrite => m.interest == OP_WRITE && !m.log.admitted && m.log.eatenAuth == [] && Greeted(m)
       case UserpassRead =>
         m.interest == OP_READ && !m.log.admitted && Greeted(m) && m.hello.chosen == MNG_AUTH_METHOD
         && AuthFollows(m.auth, m.log.eatenAuth) && !FieldParsers.IsDone(m.auth)
       case UserpassWrite => m.interest == OP_WRITE && !m.log.admitted && Examined(m, admins)
       case ReadIndex =>
         m.interest == OP_READ && m.log.admitted && m.writeBuffer.contents == []
         && m.request == ClientWire.StartIndex() && m.log.eatenRequest == []
       case ReadParams =>
         m.interest == OP_READ && m.log.admitted && m.writeBuffer.contents == []
         && m.log.eatenRequest != [] && m.log.eatenRequest[0] == m.index
         && ParamsFollow(m.index, m.request, m.log.eatenRequest[1..]) && !FieldParsers.IsDone(m.request)
       case WriteReply => m.interest == OP_WRITE && m.log.admitted
       case Done => true
       case Error => true
  }

  /** The selector only dispatches what is registered. */
  predicate Due(m: Mng, e: Event) {
    if e.Readable? then m.interest.read else m.interest.write
  }

  /** A handler leaves the connection so that the move to state p is possible and sound. */
  ghost predicate Ready(m: Mng, p: Phase, admins: seq<Registries.User>) {
    Jump(m, p).Some? && Sound(Jump(m, p).value, admins)
  }

  // ----- The handlers -----

  lemma {:induction false} TakeKeepsWanted(p: Hellos.Hello, input: seq<byte>)
    ensures Hellos.Take(p, input).0.wanted == p.wanted
    decreases |input|
  {
    if input != [] && !Hellos.IsDone(Hellos.Feed(p, input[0])) {
      TakeKeepsWanted(Hellos.Feed(p, input[0]), input[1..]);
    }
  }

  lemma EatHelloFollows(m: Mng)
    requires HelloFollows(m.hello, m.log.eatenHello) && !Hellos.IsDone(m.hello) && BuffersOk(m)
    ensures var d := EatHello(m);
      && HelloFollows(d.hello, d.log.eatenHello) && BuffersOk(d)
      && d == m.(hello := d.hello, readBuffer := d.readBuffer, log := m.log.(eatenHello := d.log.eatenHello))
  {
    var input := m.readBuffer.contents;
    Machines.ConsumeMore(Hellos.Feed, Hellos.IsDone, Hellos.Start(Hellos.MNG_VERSION, MNG_AUTH_METHOD), m.hello,
        m.log.eatenHello, input);
    TakeKeepsWanted(m.hello, input);
  }

  lemma EatAuthFollows(m: Mng)
    requires AuthFollows(m.auth, m.log.eatenAuth) && !FieldParsers.IsDone(m.auth) && BuffersOk(m)
    ensures var d := EatAuth(m);
      && AuthFollows(d.auth, d.log.eatenAuth) && BuffersOk(d)
      && d == m.(auth := d.auth, readBuffer := d.readBuffer, log := m.log.(eatenAuth := d.log.eatenAuth))
  {
    hide FieldParsers.Take, FieldParsers.Feed;
    FieldParsers.TakeMore(ClientWire.StartAuth(), m.auth, m.log.eatenAuth, m.readBuffer.contents);
  }

  lemma EatParamsFollows(m: Mng)
    requires m.log.eatenRequest != [] && ParamsFollow(m.index, m.request, m.log.eatenRequest[1..])
    requires !FieldParsers.IsDone(m.request) && BuffersOk(m)
    ensures var d := EatRequest(m);
      && ParamsFollow(m.index, d.request, d.log.eatenRequest[1..]) && BuffersOk(d)
      && d.log.eatenRequest != [] && d.log.eatenRequest[0] == m.log.eatenRequest[0]
      && d == m.(request := d.request, readBuffer := d.readBuffer, log := m.log.(eatenRequest := d.log.eatenRequest))
  {
    hide FieldParsers.Take, FieldParsers.Feed;
    var eaten, input := m.log.eatenRequest, m.readBuffer.contents;
    var n := FieldParsers.Take(m.request, input).1;
    FieldParsers.TakeMore(ClientWire.StartParams(m.index), m.request, eaten[1..], input);
    assert (eaten + input[..n])[1..] == eaten[1..] + input[..n];
  }

  lemma MarshalOk(m: Mng, reply: seq<byte>)
    requires BuffersOk(m)
    ensures var d := Marshal(m, reply);
      BuffersOk(d) && d == m.(writeBuffer := d.writeBuffer, log := m.log.(replies := d.log.replies))
  {
  }

  lemma HelloReadReady(m: Mng, admins: seq<Registries.User>)
    requires Sound(m, admins) && m.state == HelloRead && m.started
    ensures Ready(OnHelloRead(m).0, OnHelloRead(m).1, admins)
  {
    hide AuthFollows, ParamsFollow, ClientWire.StartAuth, ClientWire.StartIndex, ClientWire.StartParams;
    EatHelloFollows(m);
    MarshalOk(EatHello(m), [Hellos.MNG_VERSION, EatHello(m).hello.chosen]);
    hide HelloFollows, EatHello, Marshal;
  }

  lemma ChosenMethod(m: Mng)
    requires HelloFollows(m.hello, m.log.eatenHello) && m.hello.phase == Hellos.Done
    ensures Hellos.Complete(Hellos.MNG_VERSION, m.log.eatenHello)
    ensures m.hello.chosen
         == if MNG_AUTH_METHOD in Hellos.Offered(m.log.eatenHello) then MNG_AUTH_METHOD
             else Hellos.NO_ACCEPTABLE_METHODS
  {
    Hellos.TakeExact(Hellos.MNG_VERSION, MNG_AUTH_METHOD, m.log.eatenHello);
  }

  lemma AuthStarts()
    ensures AuthFollows(ClientWire.StartAuth(), []) && !FieldParsers.IsDone(ClientWire.StartAuth())
  {
  }

  lemma ParamsStart(index: byte)
    requires ClientWire.Params(index).Some?
    ensures ParamsFollow(index, ClientWire.StartParams(index), [])
        && !FieldParsers.IsDone(ClientWire.StartParams(index))
  {
  }

  /** A write handler, once its octets are out. */
  lemma HelloWrittenReady(m: Mng, admins: seq<Registries.User>)
    requires Sound(m, admins) && m.state == HelloWrite
    ensures Ready(OnHelloWritten(m).0, OnHelloWritten(m).1, admins)
  {
    ChosenMethod(m);
    AuthStarts();
    hide AuthFollows, ParamsFollow, ClientWire.StartAuth, ClientWire.StartIndex, ClientWire.StartParams, HelloFollows;
  }

  lemma UserpassReadReady(m: Mng, admins: seq<Registries.User>)
    requires Sound(m, admins) && m.state == UserpassRead
    ensures Ready(OnUserpassRead(m, admins).0, OnUserpassRead(m, admins).1, admins)
  {
    EatAuthFollows(m);
    var d := EatAuth(m);
    hide AuthFollows, ParamsFollow, ClientWire.StartAuth, ClientWire.StartIndex, ClientWire.StartParams, HelloFollows;
    hide EatAuth;
    if FieldParsers.IsDone(d.auth) && d.auth.phase != FieldParsers.Phase.Error {
      CheckedReady(d, admins);
      hide Ready, Sound;
    }
  }

  lemma CheckedReady(d: Mng, admins: seq<Registries.User>)
    requires d.state == UserpassRead && BuffersOk(d) && !d.log.admitted && d.log.eatenRequest == []
    requires Greeted(d) && d.hello.chosen == MNG_AUTH_METHOD
    requires AuthFollows(d.auth, d.log.eatenAuth) && d.auth.phase == FieldParsers.Done
    ensures var found := Registries.Check(admins, CString(Field(d.auth, 2)), CString(Field(d.auth, 4)));
      Ready(d.(interest := OP_WRITE, authentication := if found.Some? then 0x00 else 0x01), UserpassWrite, admins)
  {
  }

  lemma UserpassWrittenReady(m: Mng, admins: seq<Registries.User>)
    requires Sound(m, admins) && m.state == UserpassWrite && m.writeBuffer.contents == []
    ensures Ready(OnUserpassWritten(m).0, OnUserpassWritten(m).1, admins)
  {
    hide Vetted, AuthFollows, ParamsFollow, ClientWire.StartAuth, ClientWire.StartIndex, ClientWire.StartParams;
    hide HelloFollows;
  }

  /** What the index parser makes of its one octet. */
  lemma IndexTaken(m: Mng)
    requires m.request == ClientWire.StartIndex() && m.readBuffer.contents != []
    ensures var r := FieldParsers.Take(m.request, m.readBuffer.contents);
      && r.1 == 1 && FieldParsers.IsDone(r.0)
      && (Field(r.0, 0) == [0x01] <==> m.readBuffer.contents[0] == 0x01)
      && (r.0.phase == FieldParsers.Phase.Error <==> !Supported(m.readBuffer.contents[0]))
      && (Supported(m.readBuffer.contents[0]) ==> Field(r.0, 0) == [m.readBuffer.contents[0]])
  {
  }

  /** An admitted connection can always be given an answer. */
  lemma ToWriteReady(m: Mng, d: Mng, reply: seq<byte>, admins: seq<Registries.User>)
    requires Sound(m, admins) && (m.state == ReadIndex || m.state == ReadParams) && BuffersOk(d)
    requires d == m.(request := d.request, index := d.index, readBuffer := d.readBuffer,
        log := m.log.(eatenRequest := d.log.eatenRequest))
    ensures Ready(ToWrite(d, reply).0, WriteReply, admins)
  {
    hide Vetted, AuthFollows, ParamsFollow, ClientWire.StartAuth, ClientWire.StartIndex, ClientWire.StartParams;
    hide HelloFollows;
    MarshalOk(d, reply);
    var n, j := Marshal(d, reply), Jump(ToWrite(d, reply).0, WriteReply).value;
    assert j == n.(interest := OP_WRITE, state := WriteReply);
    hide Marshal, ToWrite, Jump;
    assert Sound(j, admins);
  }

  lemma ErrorReady(m: Mng, d: Mng, admins: seq<Registries.User>)
    requires Sound(m, admins) && (m.state == ReadIndex || m.state == ReadParams) && BuffersOk(d)
    requires d == m.(request := d.request, interest := d.interest, readBuffer := d.readBuffer,
        log := m.log.(eatenRequest := d.log.eatenRequest))
    ensures Ready(d, Error, admins)
  {
    hide Vetted, AuthFollows, ParamsFollow, ClientWire.StartAuth, ClientWire.StartIndex, ClientWire.StartParams;
    hide HelloFollows;
  }

  lemma EatIndex(m: Mng)
    requires m.request == ClientWire.StartIndex() && m.readBuffer.contents != [] && BuffersOk(m)
        && m.log.eatenRequest == []
    ensures var d := EatRequest(m);
      && BuffersOk(d) && d.log.eatenRequest == [m.readBuffer.contents[0]]
      && d == m.(request := d.request, readBuffer := d.readBuffer, log := m.log.(eatenRequest := d.log.eatenRequest))
  {
  }

  lemma ToParamsReady(m: Mng, d: Mng, admins: seq<Registries.User>)
    requires Sound(m, admins) && m.state == ReadIndex && BuffersOk(d) && ClientWire.Params(d.index).Some?
    requires d == m.(request := d.request, index := d.index, readBuffer := d.readBuffer,
        log := m.log.(eatenRequest := d.log.eatenRequest))
    requires d.log.eatenRequest == [d.index]
    ensures Ready(d.(interest := OP_READ), ReadParams, admins)
  {
    hide Vetted, AuthFollows, ClientWire.StartAuth, ClientWire.StartIndex, HelloFollows;
    var r, j := ClientWire.StartParams(d.index), Jump(d.(interest := OP_READ), ReadParams).value;
    assert j == d.(interest := OP_READ, state := ReadParams, request := r);
    ParamsStart(d.index);
    hide ParamsFollow, ClientWire.StartParams, ClientWire.Params, Jump, Registries.Check, CString;
    assert d.log.eatenRequest[1..] == [];
    assert Sound(j, admins);
  }

  lemma ReadIndexReady(m: Mng, g: Globals, admins: seq<Registries.User>)
    requires Sound(m, admins) && m.state == ReadIndex && m.readBuffer.contents != [] && GlobalsOk(g)
    ensures Ready(OnReadIndex(m, g).0, OnReadIndex(m, g).1, admins)
  {
    var b, d := m.readBuffer.contents, EatRequest(m);
    IndexTaken(m);
    EatIndex(m);
    assert d.request == FieldParsers.Take(m.request, b).0;
    hide FieldParsers.Take, Sound, Ready, EatRequest, Answer, Marshal, ToWrite;
    if d.request.phase == FieldParsers.Phase.Error {
      ToWriteReady(m, d, [INDEX_NOT_SUPPORTED], admins);
    } else {
      var e := d.(index := b[0]);
      var answer := Answer(g, b[0], e.writeBuffer.Room());
      if answer.Some? {
        ToWriteReady(m, e, answer.value, admins);
      } else {
        ParamsWanted(g, b[0], e.writeBuffer.Room());
        ToParamsReady(m, e, admins);
      }
    }
  }

  lemma ParamsWanted(g: Globals, index: byte, room: nat)
    requires GlobalsOk(g) && Supported(index)
    ensures Answer(g, index, room).None? <==> ClientWire.Params(index).Some?
  {
  }

  lemma StillReading(m: Mng, d: Mng, admins: seq<Registries.User>)
    requires Sound(m, admins) && m.state == ReadParams && BuffersOk(d)
    requires d == m.(request := d.request, readBuffer := d.readBuffer,
        log := m.log.(eatenRequest := d.log.eatenRequest))
    requires d.log.eatenRequest != [] && d.log.eatenRequest[0] == m.log.eatenRequest[0]
    requires ParamsFollow(d.index, d.request, d.log.eatenRequest[1..]) && !FieldParsers.IsDone(d.request)
    ensures Ready(d, ReadParams, admins)
  {
    hide Vetted, AuthFollows, ParamsFollow, ClientWire.StartAuth, ClientWire.StartIndex, ClientWire.StartParams;
    hide HelloFollows;
  }

  lemma ReadParamsReady(m: Mng, g: Globals, admins: seq<Registries.User>)
    requires Sound(m, admins) && m.state == ReadParams
    ensures Ready(OnReadParams(m, g).0, OnReadParams(m, g).2, admins)
  {
    EatParamsFollows(m);
    var d := EatRequest(m);
    hide Sound, Ready, EatRequest, Process, Marshal, ParamsFollow;
    if !FieldParsers.IsDone(d.request) {
      StillReading(m, d, admins);
    } else if d.request.phase == FieldParsers.Phase.Error {
      ErrorReady(m, d.(interest := OP_WRITE), admins);
    } else {
      ToWriteReady(m, d, [Process(d, g).1], admins);
    }
  }

  // ----- Dispatch -----

  lemma FirstSound(m: Mng, admins: seq<Registries.User>)
    requires Sound(m, admins) && !Terminal(m.state)
    ensures Sound(First(m), admins) && First(m).started && First(m).state == m.state && First(m).interest == m.interest
    ensures m.writeBuffer.Room() >= 0 && First(m).writeBuffer == m.writeBuffer
    ensures Asked(First(m)) == Asked(m) && Offered(First(m)) == Offered(m)
  {
  }

  lemma ReceivedSound(m: Mng, chunk: seq<byte>, admins: seq<Registries.User>)
    requires Sound(m, admins) && 0 < |chunk| <= m.readBuffer.Room()
    ensures Sound(Received(m, chunk), admins) && Received(m, chunk).readBuffer.contents != []
  {
  }

  lemma ReadFailed(m: Mng, admins: seq<Registries.User>)
    requires Sound(m, admins)
    ensures Ready(m, Error, admins)
  {
  }

  /** The event has the users listed: it completes an index, which is that of the listing. */
  predicate Lists(m: Mng, e: Event) {
    && m.state == ReadIndex && e.Readable? && e.received.Some?
    && var input := m.readBuffer.contents + e.received.value;
    input != [] && input[0] == 0x01
  }

  /** Before an index is read, its parser has read nothing. */
  lemma ReadsIndex(m: Mng, admins: seq<Registries.User>)
    requires Sound(m, admins) && m.state == ReadIndex
    ensures m.interest.read && m.request == ClientWire.StartIndex() && BuffersOk(m)
  {
    hide Vetted, AuthFollows, ParamsFollow, HelloFollows, ClientWire.StartIndex;
  }

  lemma ListsOverruns(m: Mng, chunk: seq<byte>, g: Globals)
    requires m.state == ReadIndex && m.request == ClientWire.StartIndex() && 0 < |chunk| && GlobalsOk(g)
    requires |chunk| <= m.readBuffer.Room() && m.writeBuffer.Room() == BUFFER_SIZE
    ensures Overruns(Received(m, chunk), g) <==> Lists(m, Readable(Some(chunk))) && !ListingSafe(g, BUFFER_SIZE)
  {
    IndexTaken(Received(m, chunk));
    hide ListingSafe, GlobalsOk, FieldParsers.Take, ClientWire.StartIndex, Field;
  }

  lemma ChunkReady(m: Mng, chunk: seq<byte>, g: Globals, admins: seq<Registries.User>)
    requires Sound(m, admins) && m.started && m.state in {HelloRead, UserpassRead, ReadIndex, ReadParams}
    requires 0 < |chunk| <= m.readBuffer.Room() && GlobalsOk(g)
    requires m.state == ReadIndex ==> m.writeBuffer.Room() == BUFFER_SIZE
    requires m.writeBuffer.Room() >= 0
    ensures var r := OnReadable(m, Some(chunk), g, admins);
      && (r.None? <==> Lists(m, Readable(Some(chunk))) && !ListingSafe(g, BUFFER_SIZE))
      && (r.Some? ==> Ready(r.value.0, r.value.2, admins))
  {
    hide Sound, Ready, ListingSafe, OnHelloRead, OnUserpassRead, OnReadIndex, OnReadParams, EatRequest, GlobalsOk;
    ReceivedSound(m, chunk, admins);
    var d := Received(m, chunk);
    match m.state {
      case HelloRead => HelloReadReady(d, admins);
      case UserpassRead => UserpassReadReady(d, admins);
      case ReadIndex =>
        ReadsIndex(m, admins);
        ListsOverruns(m, chunk, g);
        hide Overruns, Lists;
        ReadIndexReady(d, g, admins);
      case ReadParams => ReadParamsReady(d, g, admins);
    }
  }

  lemma ReadableReady(m: Mng, received: Option<seq<byte>>, g: Globals, admins: seq<Registries.User>)
    requires Sound(m, admins) && m.started && m.interest.read && !Terminal(m.state) && GlobalsOk(g)
    requires received.Some? ==> 0 < |received.value| <= Asked(m)
    ensures m.writeBuffer.Room() >= 0
    ensures var r := OnReadable(m, received, g, admins);
      && (r.None? <==> Lists(m, Readable(received)) && !ListingSafe(g, BUFFER_SIZE))
      && (r.Some? ==> Ready(r.value.0, r.value.2, admins))
  {
    hide Sound, Ready, ListingSafe, GlobalsOk, ToWrite;
    ReadsWhere(m, admins);
    ReadFailed(m, admins);
    if m.state == ReadIndex && m.readBuffer.Room() <= 0 {
      ToWriteReady(m, m, [SERVER_ERROR], admins);
      ToWriteNext(m, [SERVER_ERROR]);
    } else if received.Some? {
      hide OnReadable, Lists;
      ChunkReady(m, received.value, g, admins);
    }
  }

  lemma ToWriteNext(m: Mng, reply: seq<byte>)
    ensures ToWrite(m, reply).1 == WriteReply
  {
  }

  /** Where a connection reads; before an index is read, nothing waits to be written. */
  lemma ReadsWhere(m: Mng, admins: seq<Registries.User>)
    requires Sound(m, admins) && m.interest.read && !Terminal(m.state)
    ensures m.state in {HelloRead, UserpassRead, ReadIndex, ReadParams} && BuffersOk(m)
    ensures m.state == ReadIndex ==> m.writeBuffer.Room() == BUFFER_SIZE
  {
    hide Vetted, AuthFollows, ParamsFollow, HelloFollows, ClientWire.StartIndex;
  }

  lemma PoppedSound(m: Mng, n: nat, admins: seq<Registries.User>)
    requires Sound(m, admins) && n <= |m.writeBuffer.contents| && m.interest.write
    ensures Sound(Sent(m, n), admins)
  {
  }

  lemma RepliedSound(m: Mng, admins: seq<Registries.User>)
    requires Sound(m, admins) && m.state == UserpassWrite
    ensures Sound(WithAuthReply(m), admins) && WithAuthReply(m).state == m.state
        && WithAuthReply(m).interest == m.interest
  {
  }

  lemma WritableReady(m: Mng, sent: Option<nat>, admins: seq<Registries.User>)
    requires Sound(m, admins) && m.started && m.interest.write && !Terminal(m.state)
    requires sent.Some? ==> sent.value <= |Offered(m)|
    ensures var r := OnWritable(m, sent);
      r.Some? && Ready(r.value.0, r.value.1, admins)
  {
    assert m.state in {HelloWrite, UserpassWrite, WriteReply};
    if m.state == UserpassWrite {
      RepliedSound(m, admins);
    }
    var d := if m.state == UserpassWrite then WithAuthReply(m) else m;
    ReadFailed(d, admins);
    if sent.Some? {
      PoppedSound(d, sent.value, admins);
      var w := Sent(d, sent.value);
      StayReady(w, admins);
      DoneReady(w, admins);
      hide Sound, Ready, WithAuthReply;
      if w.writeBuffer.contents == [] {
        match m.state {
          case HelloWrite => HelloWrittenReady(w, admins);
          case UserpassWrite => UserpassWrittenReady(w, admins);
          case WriteReply =>
        }
      }
    }
  }

  lemma StayReady(m: Mng, admins: seq<Registries.User>)
    requires Sound(m, admins)
    ensures Ready(m, m.state, admins)
  {
  }

  lemma DoneReady(m: Mng, admins: seq<Registries.User>)
    requires Sound(m, admins)
    ensures Ready(m, Done, admins)
  {
  }

  /**
   * When a management connection ends the process: every event that is due finds its handler,
   * and the process is lost exactly when the event has the users listed and the listing, which
   * the size test lets through, does not fit the empty write buffer.
   */
  lemma DispatchIff(m: Mng, e: Event, g: Globals, admins: seq<Registries.User>)
    requires Sound(m, admins) && !Terminal(m.state) && Due(m, e) && CallsBounded(m, e) && GlobalsOk(g)
    ensures m.writeBuffer.Room() >= 0
    ensures var r := Dispatch(m, e, g, admins);
      && (r.None? <==> Lists(m, e) && !ListingSafe(g, BUFFER_SIZE))
      && (r.Some? ==> Sound(r.value.0, admins))
  {
    hide Sound, First, OnReadable, OnWritable, Jump, Asked, Offered, ListingSafe, GlobalsOk, Ready;
    FirstSound(m, admins);
    var m0 := First(m);
    FirstLists(m, e);
    hide Lists;
    match e
    case Readable(received) =>
      AskedWithin(m0);
      ReadableReady(m0, received, g, admins);
      var r := OnReadable(m0, received, g, admins);
      if r.Some? {
        JumpReady(r.value.0, r.value.2, admins);
      }
    case Writable(sent) =>
      WritableReady(m0, sent, admins);
      var r := OnWritable(m0, sent).value;
      JumpReady(r.0, r.1, admins);
  }

  lemma AskedWithin(m: Mng)
    ensures Asked(m) <= m.readBuffer.Room()
  {
  }

  lemma FirstLists(m: Mng, e: Event)
    ensures Lists(First(m), e) == Lists(m, e)
    ensures e.Writable? ==> !Lists(m, e)
  {
  }

  /** Such a listing: the registry is full of names of eight letters, and an administrator asks for it. */
  lemma FullRegistryLost(m: Mng, g: Globals, admins: seq<Registries.User>)
    requires Sound(m, admins) && m.state == ReadIndex && m.readBuffer.contents == [] && GlobalsOk(g)
    requires Registries.Names(g.users) == Copies(255, EIGHT_LETTERS)
    ensures CallsBounded(m, Readable(Some([0x01]))) && m.writeBuffer.Room() >= 0
    ensures Dispatch(m, Readable(Some([0x01])), g, admins).None?
  {
    hide Sound, Dispatch, Affordable, ListReply;
    FullRegistryMissed();
    ReadsIndex(m, admins);
    assert !ListingSafe(g, BUFFER_SIZE);
    hide ListingSafe;
    assert [] + [0x01 as byte] == [0x01];
    DispatchIff(m, Readable(Some([0x01])), g, admins);
  }

  lemma JumpReady(m: Mng, p: Phase, admins: seq<Registries.User>)
    requires Ready(m, p, admins)
    ensures Jump(m, p).Some? && Sound(Jump(m, p).value, admins)
  {
  }

  // ----- Runs -----

  /** Events, each under whatever globals other connections have left. */
  type Steps = seq<(Event, Globals)>

  ghost predicate Legal(m: Mng, steps: Steps, admins: seq<Registries.User>)
    decreases |steps|
  {
    steps == [] ||
    var (e, g) := steps[0];
    && !Terminal(m.state) && Due(m, e) && CallsBounded(m, e) && GlobalsOk(g)
    && (Lists(m, e) ==> ListingSafe(g, BUFFER_SIZE)) && m.writeBuffer.Room() >= 0
    && (Dispatch(m, e, g, admins).Some? ==> Legal(Dispatch(m, e, g, admins).value.0, steps[1..], admins))
  }

  ghost function Run(m: Mng, steps: Steps, admins: seq<Registries.User>): Option<Mng>
    requires Legal(m, steps, admins)
    decreases |steps|
  {
    if steps == [] then Some(m)
    else
      var r := Dispatch(m, steps[0].0, steps[0].1, admins);
      if r.None? then None else Run(r.value.0, steps[1..], admins)
  }

  lemma {:induction false} RunSound(m: Mng, steps: Steps, admins: seq<Registries.User>)
    requires Sound(m, admins) && Legal(m, steps, admins)
    ensures Run(m, steps, admins).Some? && Sound(Run(m, steps, admins).value, admins)
    decreases |steps|
  {
    hide Sound, Dispatch, ListingSafe, Lists;
    if steps != [] {
      DispatchIff(m, steps[0].0, steps[0].1, admins);
      RunSound(Dispatch(m, steps[0].0, steps[0].1, admins).value.0, steps[1..], admins);
    }
  }

  lemma NewMngSound(admins: seq<Registries.User>)
    ensures Sound(NewMng(), admins)
  {
  }

  /**
   * A management connection gets to its request only as an administrator: over every run, it
   * was greeted by a complete message that offered passwords, and then sent, as its whole
   * credentials message, the name and password of an administrator.
   */
  lemma OnlyAdministrators(steps: Steps, admins: seq<Registries.User>)
    requires Legal(NewMng(), steps, admins)
    requires var r := Run(NewMng(), steps, admins);
      r.Some? && (r.value.log.admitted || r.value.state in {ReadIndex, ReadParams, WriteReply})
    ensures var log := Run(NewMng(), steps, admins).value.log;
      && Hellos.Complete(Hellos.MNG_VERSION, log.eatenHello) && MNG_AUTH_METHOD in Hellos.Offered(log.eatenHello)
      && exists user, pass :: ClientWire.CredentialsOf(log.eatenAuth, user, pass)
           && Registries.Check(admins, CString(user), CString(pass)).Some?
  {
    hide Run, Legal;
    NewMngSound(admins);
    RunSound(NewMng(), steps, admins);
    var m := Run(NewMng(), steps, admins).value;
    ChosenMethod(m);
    hide FieldParsers.Take;
    assert FieldParsers.Take(ClientWire.StartAuth(), m.log.eatenAuth) == (m.auth, |m.log.eatenAuth|);
    ClientWire.SchemasWellFormed();
    ClientWire.CredentialsSound(m.log.eatenAuth);
    assert m.log.eatenAuth[..|m.log.eatenAuth|] == m.log.eatenAuth;
    assert ClientWire.CredentialsOf(m.log.eatenAuth, m.auth.results[2], m.auth.results[4]);
  }

  /**
   * The proxy's globals change only at the hands of an admitted connection, when the parameters of
   * its request are whole.
   */
  lemma GlobalsGuarded(m: Mng, e: Event, g: Globals, admins: seq<Registries.User>)
    requires Sound(m, admins) && GlobalsOk(g) && CallsBounded(m, e) && m.writeBuffer.Room() >= 0
    requires Dispatch(m, e, g, admins).Some? && Dispatch(m, e, g, admins).value.1 != g
    ensures m.log.admitted && m.state == ReadParams && Dispatch(m, e, g, admins).value.0.state == WriteReply
  {
    hide Sound, EatRequest, EatAuth, EatHello, Process, Answer, Marshal, ListingSafe;
    assert m.state == ReadParams;
    ReadParamsAdmitted(m, admins);
  }

  lemma ReadParamsAdmitted(m: Mng, admins: seq<Registries.User>)
    requires Sound(m, admins) && m.state == ReadParams
    ensures m.log.admitted
  {
  }

  // ----- Requests that change the globals -----

  /**
   * The globals after a whole request, and its status, as the octets of its parameters say; what is
   * not spoken of does not change.
   */
  ghost predicate Applied(index: byte, params: seq<byte>, g: Globals, g': Globals, status: byte) {
    match index
    case 0x0A =>
      exists name, pass :: |name| <= 255 && |pass| <= 255 && params == ClientWire.UserAndPass(name, pass)
        && g' == g.(users := Registries.Add(g.users, Registries.User(CString(name), CString(pass))))
        && status == if |g.users| == 255 then 0x03 else 0x00
    case 0x0B =>
      exists name :: |name| <= 255 && params == [|name|] + name
        && g' == g.(users := Registries.Delete(g.users, CString(name))) && status == 0x00
    case 0x0C =>
      |params| == 1 && status == 0x00
      && g' == g.(authMethod := if params[0] == 0x00 then 0x02 else 0x00)
    case 0x0D => |params| == 1 && status == 0x00 && g' == g.(dissectors := params[0])
    case _ => false
  }

  lemma AddApplied(m: Mng, g: Globals, params: seq<byte>)
    requires m.index == ClientWire.ADD_USER
        && FieldParsers.Take(ClientWire.StartParams(m.index), params) == (m.request, |params|)
    requires m.request.phase == FieldParsers.Done
    ensures Applied(m.index, params, g, Process(m, g).0, Process(m, g).1)
  {
    ClientWire.AddParamsSound(params);
    hide FieldParsers.Take;
    var name, pass := m.request.results[1], m.request.results[3];
    assert params == ClientWire.UserAndPass(name, pass);
    assert Process(m, g).0
        == g.(users := Registries.Add(g.users, Registries.User(CString(name), CString(pass))));
  }

  lemma DeleteApplied(m: Mng, g: Globals, params: seq<byte>)
    requires m.index == ClientWire.DELETE_USER
        && FieldParsers.Take(ClientWire.StartParams(m.index), params) == (m.request, |params|)
    requires m.request.phase == FieldParsers.Done
    ensures Applied(m.index, params, g, Process(m, g).0, Process(m, g).1)
  {
    ClientWire.DeleteParamsSound(params);
    hide FieldParsers.Take;
    var name := m.request.results[1];
    assert params == [|name|] + name;
  }

  lemma OptionApplied(m: Mng, g: Globals, params: seq<byte>)
    requires m.index == ClientWire.DISABLE_AUTH || m.index == ClientWire.DISABLE_DISSECTORS
    requires FieldParsers.Take(ClientWire.StartParams(m.index), params) == (m.request, |params|)
    requires m.request.phase == FieldParsers.Done
    ensures Applied(m.index, params, g, Process(m, g).0, Process(m, g).1)
  {
    ClientWire.OptionParamsSound(m.index, params);
    hide FieldParsers.Take;
    assert m.request.results == [params];
  }

  /**
   * What a request does is what its octets say, however they were cut into chunks: at the event that
   * ends it, the parameters eaten since the index octet are a user's, a name or an option, the
   * globals become what that makes of them, and the client is left the matching status.
   */
  lemma RequestApplied(m: Mng, chunk: seq<byte>, g: Globals, admins: seq<Registries.User>)
    requires Sound(m, admins) && m.state == ReadParams && m.started
    requires 0 < |chunk| <= m.readBuffer.Room() && GlobalsOk(g)
    requires OnReadParams(Received(m, chunk), g).2 == WriteReply
    ensures var (m', g', _) := OnReadParams(Received(m, chunk), g);
      && m'.log.eatenRequest != [] && m'.log.eatenRequest[0] == m.index && |m'.writeBuffer.contents| == 1
      && Applied(m.index, m'.log.eatenRequest[1..], g, g', m'.writeBuffer.contents[0])
  {
    hide FieldParsers.Take;
    ReceivedSound(m, chunk, admins);
    var d := Received(m, chunk);
    EatParamsFollows(d);
    var e := EatRequest(d);
    StatusLeft(e, Process(e, g).1);
    hide Sound, EatRequest, Applied, ToWrite, Received;
    ParamsApplied(e, g, e.log.eatenRequest[1..]);
    hide Process;
  }

  lemma ParamsApplied(m: Mng, g: Globals, params: seq<byte>)
    requires ParamsFollow(m.index, m.request, params) && m.request.phase == FieldParsers.Done
    ensures Applied(m.index, params, g, Process(m, g).0, Process(m, g).1)
  {
    hide FieldParsers.Take, Process, Applied;
    if m.index == ClientWire.ADD_USER {
      AddApplied(m, g, params);
    } else if m.index == ClientWire.DELETE_USER {
      DeleteApplied(m, g, params);
    } else {
      OptionApplied(m, g, params);
    }
  }

  /** A status is all there is to send after a request. */
  lemma StatusLeft(m: Mng, status: byte)
    requires BuffersOk(m) && m.writeBuffer.contents == []
    ensures var n := ToWrite(m, [status]).0;
      n.writeBuffer.contents == [status] && n.log == m.log.(replies := n.log.replies)
  {
  }

  // ----- The request on the server's own objects -----

  ghost function GlobalsNow(settings: Settings, registry: Registries.Registry, metrics: Metrics): Globals
    requires registry.Valid()
    reads settings, registry, registry.users, metrics
  {
    Globals(registry.Value(), settings.authMethod, settings.dissectors, metrics.Value())
  }

  /** process_mng_index, marshalling into the write buffer; None where the listing is written past its end. */
  method ProcessIndex(index: byte, wb: Buffer, settings: Settings, registry: Registries.Registry, metrics: Metrics)
      returns (ret: Option<Phase>)
    requires wb.Valid() && registry.Valid() && GlobalsOk(GlobalsNow(settings, registry, metrics))
    modifies wb, wb.data
    ensures wb.Valid()
    ensures ret.None? <==>
              && index == 0x01
              && !ListingSafe(old(GlobalsNow(settings, registry, metrics)), old(wb.Value().Room()))
    ensures var answer := Answer(old(GlobalsNow(settings, registry, metrics)), index, old(wb.Value().Room()));
      ret.Some? ==>
      && ret.value == (if answer.Some? then WriteReply else if Supported(index) then ReadParams else Error)
      && wb.Value() == if answer.Some? then old(wb.Value()).Push(answer.value) else old(wb.Value())
  {
    assert wb.Value().contents + [] == wb.Value().contents;
    if index == 0x00 {
      MarshalSupported(wb);
      return Some(WriteReply);
    } else if index == 0x01 {
      var overran := MarshalList(wb, registry);
      return if overran then None else Some(WriteReply);
    } else if index == 0x02 {
      MarshalUint(wb, metrics.historicConnections);
      return Some(WriteReply);
    } else if index == 0x03 {
      MarshalUint(wb, SizeT(metrics.concurrentConnections));
      return Some(WriteReply);
    } else if index == 0x04 {
      MarshalUint(wb, metrics.maxConcurrentConnections);
      return Some(WriteReply);
    } else if index == 0x05 {
      MarshalUint(wb, metrics.historicByteTransfer);
      return Some(WriteReply);
    } else if index == 0x06 {
      MarshalUint(wb, metrics.historicAuthAttempts);
      return Some(WriteReply);
    } else if index == 0x07 {
      MarshalUint(wb, metrics.historicConnectionsAttempts);
      return Some(WriteReply);
    } else if index == 0x08 {
      MarshalUint(wb, metrics.averageBytesPerRead);
      return Some(WriteReply);
    } else if index == 0x09 {
      MarshalUint(wb, metrics.averageBytesPerWrite);
      return Some(WriteReply);
    } else if index <= 0x0D {
      return Some(ReadParams);
    }
    ret := Some(Error);
  }

  /** process_mng_params_request, on a parser that is done. */
  method ProcessParams(m: Mng, wb: Buffer, settings: Settings, registry: Registries.Registry, metrics: Metrics)
    requires wb.Valid() && registry.Valid()
    modifies wb, wb.data, settings, registry, registry.users
    ensures wb.Valid() && registry.Valid()
    ensures var (g, status) := Process(m, old(GlobalsNow(settings, registry, metrics)));
      && GlobalsNow(settings, registry, metrics) == g
      && wb.Value() == if old(wb.Value().Room()) < 1 then old(wb.Value()) else old(wb.Value()).Push([status])
  {
    if m.index == ClientWire.ADD_USER {
      if registry.nusers == Registries.MAX_USERS {
        MarshalStatus(wb, MAX_USERS_REACHED);
      } else {
        registry.AddUser(Field(m.request, 1), Field(m.request, 3));
        MarshalStatus(wb, SUCCEEDED);
      }
    } else if m.index == ClientWire.DELETE_USER {
      registry.DeleteUser(Field(m.request, 1));
      MarshalStatus(wb, SUCCEEDED);
    } else if m.index == ClientWire.DISABLE_AUTH {
      settings.authMethod := if OptionOf(m.request) == 0x00 then Hellos.USERNAME_PASSWORD else Hellos.NO_AUTHENTICATION;
      MarshalStatus(wb, SUCCEEDED);
    } else if m.index == ClientWire.DISABLE_DISSECTORS {
      settings.dissectors := OptionOf(m.request);
      MarshalStatus(wb, SUCCEEDED);
    } else {
      MarshalStatus(wb, SERVER_ERROR);
    }
  }
}
