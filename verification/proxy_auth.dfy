/**
 * Authentication over whole runs of the proxy: which method a connection was held to, which
 * users its credentials were looked up among, and that nobody else is ever listened to.
 */
module ProxyAuthentication {
  import opened Bytes
  import opened Selectors
  import opened Connections
  import opened ConnectionInvariants
  import opened ConnectionLogs
  import opened Proxies
  import ClientWire
  import Hellos
  import Registries

  /** A connection has its first event. */
  predicate Starts(s: Proxy, s': Proxy, id: nat) {
    && id in s'.conns && s'.conns[id].started
    && !(id in s.conns && s.conns[id].started)
  }

  /** A connection's credentials are looked up: it goes from reading them to answering them. */
  predicate Checks(s: Proxy, s': Proxy, id: nat) {
    && id in s.conns && s.conns[id].state == UserpassRead
    && id in s'.conns && s'.conns[id].state == UserpassWrite
  }

  /** The method the server required at the very step of a connection's first event. */
  ghost function MethodAtStart(s: Proxy, steps: seq<Step>, id: nat): Option<byte>
    requires LegalRun(s, steps)
    decreases |steps|
  {
    if steps == [] || Apply(s, steps[0]).None? then None
    else
      var s' := Apply(s, steps[0]).value;
      if Starts(s, s', id) then Some(s.authMethod) else MethodAtStart(s', steps[1..], id)
  }

  /** The users registered at the very step a connection's credentials were looked up, the last time they were. */
  ghost function RosterAtCheck(s: Proxy, steps: seq<Step>, id: nat): Option<seq<Registries.User>>
    requires LegalRun(s, steps)
    decreases |steps|
  {
    if steps == [] || Apply(s, steps[0]).None? then None
    else
      var s' := Apply(s, steps[0]).value;
      var later := RosterAtCheck(s', steps[1..], id);
      if later.None? && Checks(s, s', id) then Some(s.users) else later
  }

  /** What one step does to what a connection is held to. */
  ghost predicate Traced(s: Proxy, s': Proxy, id: nat) {
    && (id in s.conns ==> id in s'.conns)
    && (id in s'.conns && id !in s.conns ==> !s'.conns[id].started && s'.conns[id].log.checkedOver == [])
    && (id in s.conns && id in s'.conns ==>
          var c, d := s.conns[id], s'.conns[id];
          && (c.started ==> d.started && d.hello.wanted == c.hello.wanted)
          && (!c.started && d.started ==> d.hello.wanted == s.authMethod)
          && d.log.checkedOver == if Checks(s, s', id) then s.users else c.log.checkedOver)
  }

  lemma HandlerTraced(s: Proxy, key: int, event: Event, e: Env, id: nat)
    requires Owned(s, key) ==> CallsBounded(s.conns[Owner(s, key)], key, event, EnvOf(s, e))
    ensures var r := RunHandler(s, key, event, EnvOf(s, e));
      r.Some? ==> Traced(s, r.value, id)
  {
    hide Connections.Dispatch, CallsBounded;
    if RunHandler(s, key, event, EnvOf(s, e)).Some? {
      var own: nat := Owner(s, key);
      DispatchSources(WorldOf(s, own), own, key, event, EnvOf(s, e));
    }
  }

  lemma NextUnused(s: Proxy)
    requires Inv(s)
    ensures s.next !in s.conns
  {
  }

  lemma StepTraced(s: Proxy, step: Step, id: nat)
    requires Legal(s, step) && Inv(s)
    ensures Apply(s, step).Some? ==> Traced(s, Apply(s, step).value, id)
  {
    hide Inv, RunHandler, CallsBounded;
    NextUnused(s);
    match step
    case Accept(_, _) =>
    case Dispatch(key, event, e) => HandlerTraced(s, key, event, e, id);
    case Resolve(r, found) =>
    case Notify(e) =>
      if s.jobs[0] in s.table {
        HandlerTraced(s.(jobs := s.jobs[1..]), s.jobs[0], Block, e, id);
      }
    case Configure(_, _) =>
  }

  /** Over a run, the method is the one at the first event, and the roster the one at the check. */
  lemma {:induction false} RunTraced(s: Proxy, steps: seq<Step>, id: nat)
    requires Inv(s) && LegalRun(s, steps) && Run(s, steps).Some? && id in Run(s, steps).value.conns
    ensures var d := Run(s, steps).value.conns[id];
      && (d.started ==>
            if id in s.conns && s.conns[id].started then d.hello.wanted == s.conns[id].hello.wanted
            else MethodAtStart(s, steps, id) == Some(d.hello.wanted))
      && d.log.checkedOver == (if RosterAtCheck(s, steps, id).Some? then RosterAtCheck(s, steps, id).value
                               else if id in s.conns then s.conns[id].log.checkedOver else [])
    decreases |steps|
  {
    hide Inv, Legal, Apply;
    if steps != [] {
      StepInv(s, steps[0]);
      StepTraced(s, steps[0], id);
      RunTraced(Apply(s, steps[0]).value, steps[1..], id);
    }
  }

  /** The greeting, and the credentials where they were required, that earn a client a hearing. */
  ghost predicate Authenticated(log: Log, required: Option<byte>, roster: Option<seq<Registries.User>>) {
    && Hellos.Complete(Hellos.SOCKS_VERSION, log.eatenHello)
    && required.Some? && required.value in Hellos.Offered(log.eatenHello)
    && (required.value == Hellos.USERNAME_PASSWORD ==>
          roster.Some? && exists user, pass ::
            ClientWire.CredentialsOf(log.eatenAuth, user, pass)
            && Registries.Check(roster.value, CString(user), CString(pass)).Some?)
    && (required.value == Hellos.USERNAME_PASSWORD || required.value == Hellos.NO_AUTHENTICATION)
  }

  lemma AdmittedAuthenticated(c: Conn, roster: Option<seq<Registries.User>>)
    requires Progress(c) && c.log.admitted && c.log.checkedOver == if roster.Some? then roster.value else []
    ensures c.started && Authenticated(c.log, Some(c.hello.wanted), roster)
  {
    assert c.started;
    hide Progress, ClientWire.CredentialsOf;
    AdmittedOnlyAuthenticated(c);
  }

  /**
   * Authentication safety over every run. A connection whose requests were ever listened to
   * completed the greeting and offered the method the server required at the connection's first
   * event; and if that was passwords, it sent, as its whole credentials message, a name and a
   * password of a user registered at the very step they were looked up.
   */
  lemma OnlyAuthenticatedServed(users: seq<Registries.User>, authMethod: byte, steps: seq<Step>, id: nat)
    requires authMethod == Hellos.NO_AUTHENTICATION || authMethod == Hellos.USERNAME_PASSWORD
    requires LegalRun(Boot(users, authMethod), steps)
    requires var r := Run(Boot(users, authMethod), steps);
      r.Some? && id in r.value.conns && r.value.conns[id].log.admitted
    ensures var s := Boot(users, authMethod);
      Authenticated(Run(s, steps).value.conns[id].log, MethodAtStart(s, steps, id), RosterAtCheck(s, steps, id))
  {
    var s := Boot(users, authMethod);
    BootInv(users, authMethod);
    assert id !in s.conns;
    hide Authenticated, Run, LegalRun, Boot, MethodAtStart, RosterAtCheck, Progress, Streams;
    RunSurvives(s, steps);
    RunTraced(s, steps, id);
    var s' := Run(s, steps).value;
    assert ConnOk(WorldOf(s', id), id);
    AdmittedAuthenticated(s'.conns[id], RosterAtCheck(s, steps, id));
  }
}
