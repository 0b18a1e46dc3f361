/**
 * Agent admission against credential changes: every interleaving of handshakes, credential mutations, enrolments
 * and the invalidations that the mutations owe. Each event is one section run under a single lock, or one socket event.
 */
module Admission {
  import opened Common
  import opened Credentials
  import opened CredentialRuns
  import opened AgentServer

  const MINIMUM_TOKEN_BYTES := 32

  /** A handshake, and then the connection it becomes. */
  datatype Phase = Waiting | Authenticated(token: string) | Registered(token: string) | Leaving

  datatype Connection = Connection(id: string, epoch: nat, phase: Phase, closed: bool)

  /** What a credential change still owes: to start the invalidation, or to close the connections it collected. */
  datatype Invalidation = Owed(target: Option<string>) | Closing(connections: set<ConnectionId>)

  /** CreateAgentToken holds the manager's lock from the reservation until it has released it. */
  datatype Creating = Reserved(id: string, request: string) | Published(id: string)

  datatype State = State(
    world: World,
    registry: Registry,
    connections: map<ConnectionId, Connection>,
    next: ConnectionId,
    owed: map<nat, Invalidation>,
    creating: Option<Creating>)

  datatype Event =
    | Begin(id: string)
    | Lookup(c: ConnectionId, presented: string)
    | Abandon(c: ConnectionId)
    | Add(c: ConnectionId)
    | Remove(c: ConnectionId)
    | Exit(c: ConnectionId)
    | Mutate(handler: nat, request: Request, outcome: Outcome)
    | CreateStart(newId: string, enrollment: string, early: Outcome)
    | CreatePublish(minted: string, late: Outcome)
    | CreateRelease
    | Invalidate(handler: nat)
    | CloseSocket(handler: nat, c: ConnectionId)
    | Settle(handler: nat)

  /** The identities whose connections a successful mutation must invalidate; None when there are none. */
  function Target(q: Request): Option<Option<string>> {
    match q
    case IssueToken(id, _) => Some(Some(id))
    case RevokeToken(id) => Some(Some(id))
    case UnenrollToken(id) => Some(Some(id))
    case ChangeMode(_) => Some(None)
    case _ => None
  }

  function Enter(s: State, c: ConnectionId, phase: Phase): State
    requires c in s.connections
  {
    s.(connections := s.connections[c := s.connections[c].(phase := phase)])
  }

  predicate Enabled(s: State, e: Event) {
    match e
    case Begin(id) => id !in s.registry.enrolling
    case Lookup(c, _) => c in s.connections && s.connections[c].phase.Waiting? && s.creating.None?
    case Abandon(c) => c in s.connections && (s.connections[c].phase.Waiting? || s.connections[c].phase.Authenticated?)
    case Add(c) => c in s.connections && s.connections[c].phase.Authenticated?
    case Remove(c) => c in s.connections && s.connections[c].phase.Registered?
    case Exit(c) => c in s.connections && s.connections[c].phase.Leaving?
    case Mutate(h, q, _) => h !in s.owed && !q.CreateToken? && s.creating.None?
    case CreateStart(_, _, _) => s.creating.None?
    case CreatePublish(_, _) => s.creating.Some? && s.creating.value.Reserved?
    case CreateRelease => s.creating.Some? && s.creating.value.Published?
    case Invalidate(h) => h in s.owed && s.owed[h].Owed?
    case CloseSocket(h, c) => h in s.owed && s.owed[h].Closing? && c in s.owed[h].connections
    case Settle(h) => h in s.owed && s.owed[h] == Closing({})
  }

  ghost function Next(s: State, e: Event, wire: Wire): State
    requires Enabled(s, e)
  {
    match e
    case Begin(id) =>
      s.(registry := Begun(s.registry, id).value,
         connections := s.connections[s.next := Connection(id, s.registry.credentialEpoch, Waiting, false)],
         next := s.next + 1)
    case Lookup(c, presented) =>
      var found := TokenForAgent(s.world.manager, s.connections[c].id);
      Enter(s, c, if found == Ok(presented) && |presented| >= MINIMUM_TOKEN_BYTES then Authenticated(presented) else Leaving)
    case Abandon(c) => Enter(s, c, Leaving)
    case Add(c) =>
      var k := s.connections[c];
      if Addable(s.registry, k.id, k.epoch)
      then Enter(s, c, Registered(k.phase.token)).(registry := s.registry.(agents := s.registry.agents[k.id := c]))
      else Enter(s, c, Leaving)
    case Remove(c) => Enter(s, c, Leaving).(registry := Removed(s.registry, s.connections[c].id, c))
    case Exit(c) => s.(registry := Ended(s.registry, s.connections[c].id), connections := s.connections - {c})
    case Mutate(h, q, o) =>
      var r := Serve(s.world, q, o, wire);
      var owes := !r.1.Failed? && r.1 != Done(false) && Target(q).Some?;
      s.(world := r.0, owed := if owes then s.owed[h := Owed(Target(q).value)] else s.owed)
    case CreateStart(id, request, o) =>
      var r := CreateEarly(s.world, id, request, o);
      if r.1.None? && Reservable(s.registry, id)
      then s.(world := r.0, creating := Some(Reserved(id, request)), registry := s.registry.(enrolling := s.registry.enrolling + {id}))
      else s.(world := r.0)
    case CreatePublish(minted, o) =>
      var k := s.creating.value;
      s.(world := CreateLate(s.world, k.id, k.request, minted, o, wire).0, creating := Some(Published(k.id)))
    case CreateRelease => s.(creating := None, registry := s.registry.(enrolling := s.registry.enrolling - {s.creating.value.id}))
    case Invalidate(h) =>
      s.(registry := s.registry.(credentialEpoch := s.registry.credentialEpoch + 1),
         owed := s.owed[h := Closing(Covered(s.registry, s.owed[h].target))])
    case CloseSocket(h, c) =>
      s.(owed := s.owed[h := Closing(s.owed[h].connections - {c})],
         connections := if c in s.connections then s.connections[c := s.connections[c].(closed := true)] else s.connections)
    case Settle(h) => s.(owed := s.owed - {h})
  }

  // ---------------------------------------------------------------- the invariant

  /** The token an identity may authenticate with, pending publications aside. */
  function CurrentToken(c: Document, id: string): Option<string> {
    if id in c.tokens then (if c.tokens[id] == "" then None else Some(c.tokens[id]))
    else if c.mode == Transition && |c.agentToken| >= 32 then Some(c.agentToken)
    else None
  }

  function ConnectionsOf(s: State, id: string): set<ConnectionId> {
    set c | c in s.connections && s.connections[c].id == id
  }

  ghost predicate StillOwed(s: State, id: string) {
    exists h :: h in s.owed && s.owed[h].Owed? && Covers(s.owed[h].target, id)
  }

  ghost predicate AboutToClose(s: State, c: ConnectionId) {
    exists h :: h in s.owed && s.owed[h].Closing? && c in s.owed[h].connections
  }

  /** The credentials of a connection are current, or an invalidation covering it is still owed. */
  ghost predicate Entitled(s: State, c: ConnectionId)
    requires c in s.connections
  {
    var k := s.connections[c];
    match k.phase
    case Authenticated(token) =>
      k.epoch == s.registry.credentialEpoch ==> CurrentToken(s.world.manager.credential, k.id) == Some(token) || StillOwed(s, k.id)
    case Registered(token) =>
      k.closed || CurrentToken(s.world.manager.credential, k.id) == Some(token) || StillOwed(s, k.id) || AboutToClose(s, c)
    case _ => true
  }

  predicate HoldsToken(k: Connection) {
    k.phase.Authenticated? || k.phase.Registered?
  }

  ghost predicate RegistryInv(s: State) {
    && (forall c | c in s.connections :: c < s.next && s.connections[c].epoch <= s.registry.credentialEpoch)
    && (forall id | id in s.registry.agents ::
          var c := s.registry.agents[id];
          c in s.connections && s.connections[c].id == id && s.connections[c].phase.Registered?)
    && (forall c | c in s.connections && s.connections[c].phase.Registered? ::
          s.connections[c].id in s.registry.agents && s.registry.agents[s.connections[c].id] == c)
    && CountsInv(s)
  }

  /** The admission counter of an identity counts its handshakes and connections, from the first lock to the last. */
  ghost predicate CountsInv(s: State) {
    forall id :: Admitting(s.registry, id) == |ConnectionsOf(s, id)|
  }

  /** While an identity is being created nothing of it connects, and no connection of a pending identity holds a token. */
  ghost predicate EnrollmentInv(s: State) {
    && s.registry.enrolling == (if s.creating.Some? then {s.creating.value.id} else {})
    && (s.creating.Some? ==> forall c | c in s.connections :: s.connections[c].id != s.creating.value.id)
    && (s.creating.Some? && s.creating.value.Reserved? ==>
          && PendingDocument(s.world.manager).None?
          && s.creating.value.id !in s.world.manager.credential.tokens
          && s.creating.value.id !in s.world.manager.credential.enrollments
          && !RequestTaken(s.world.manager.credential, Sha256(s.creating.value.request)))
    && (s.world.manager.pendingEnrollment.Some? ==>
          forall c | c in s.connections && HoldsToken(s.connections[c]) ::
            s.connections[c].id in s.world.manager.pendingEnrollment.value.enrollments ==>
            s.connections[c].id in s.world.manager.credential.enrollments)
  }

  ghost predicate AdmissionInv(s: State, wire: Wire) {
    && Inv(s.world, wire)
    && RegistryInv(s)
    && EnrollmentInv(s)
    && (forall c | c in s.connections :: Entitled(s, c))
  }

  // ---------------------------------------------------------------- events that change the credentials

  /** A mutation that changes the token of an identity owes an invalidation covering it. */
  lemma MutationOwesWhatItChanges(w: World, q: Request, o: Outcome, wire: Wire, id: string)
    requires !q.CreateToken?
    ensures var r := Serve(w, q, o, wire); var c, d := w.manager.credential, r.0.manager.credential;
            var owes := !r.1.Failed? && r.1 != Done(false) && Target(q).Some?;
            CurrentToken(d, id) == CurrentToken(c, id) || (owes && Covers(Target(q).value, id))
  {
    hide ValidDocument;
    MutationOutcome(w, q, o, wire);
  }

  lemma MutationKeepsEnrollment(w: World, q: Request, o: Outcome, wire: Wire)
    requires !q.CreateToken?
    ensures var m, n := w.manager, Serve(w, q, o, wire).0.manager;
            n.pendingEnrollment.Some? ==> n.pendingEnrollment == m.pendingEnrollment && n.credential == m.credential
  {
    hide ValidDocument;
    MutationOutcome(w, q, o, wire);
  }

  lemma MutateKeepsEnrollmentInv(s: State, h: nat, q: Request, o: Outcome, wire: Wire)
    requires EnrollmentInv(s) && Enabled(s, Mutate(h, q, o))
    ensures EnrollmentInv(Next(s, Mutate(h, q, o), wire))
  {
    MutationKeepsEnrollment(s.world, q, o, wire);
    hide Serve;
  }

  lemma MutateKeepsEntitled(s: State, h: nat, q: Request, o: Outcome, wire: Wire, c: ConnectionId)
    requires Enabled(s, Mutate(h, q, o)) && c in s.connections && Entitled(s, c)
    ensures Entitled(Next(s, Mutate(h, q, o), wire), c)
  {
    hide Serve;
    var t := Next(s, Mutate(h, q, o), wire);
    MutationOwesWhatItChanges(s.world, q, o, wire, t.connections[c].id);
    OwedGrows(s, t, c);
    if h in t.owed {
      assert t.owed[h] == Owed(Target(q).value);
    }
  }

  lemma MutateKeepsInv(s: State, h: nat, q: Request, o: Outcome, wire: Wire)
    requires AdmissionInv(s, wire) && Enabled(s, Mutate(h, q, o))
    ensures AdmissionInv(Next(s, Mutate(h, q, o), wire), wire)
  {
    hide Inv, Serve, Entitled, EnrollmentInv, RegistryInv;
    var t := Next(s, Mutate(h, q, o), wire);
    ServeKeepsInv(s.world, q, o, wire);
    MutateKeepsEnrollmentInv(s, h, q, o, wire);
    SameConnectionsKeepRegistry(s, t);
    forall c | c in t.connections ensures Entitled(t, c) {
      MutateKeepsEntitled(s, h, q, o, wire, c);
    }
  }

  lemma SameConnectionsKeepRegistry(s: State, t: State)
    requires RegistryInv(s) && t.connections == s.connections && t.next == s.next
    requires t.registry.agents == s.registry.agents && t.registry.admitting == s.registry.admitting
    requires t.registry.credentialEpoch >= s.registry.credentialEpoch
    ensures RegistryInv(t)
  {
    forall id ensures Admitting(t.registry, id) == |ConnectionsOf(t, id)| {
      assert ConnectionsOf(t, id) == ConnectionsOf(s, id);
    }
  }

  lemma OwedGrows(s: State, t: State, c: ConnectionId)
    requires forall h | h in s.owed :: h in t.owed && t.owed[h] == s.owed[h]
    requires c in s.connections
    ensures StillOwed(s, s.connections[c].id) ==> StillOwed(t, s.connections[c].id)
    ensures AboutToClose(s, c) ==> AboutToClose(t, c)
  {
  }

  /** The start of CreateAgentToken: it may adopt the pending enrolment, whose identity nothing connected holds a token of. */
  lemma AdoptionTouchesOnlyTheNewIdentity(w: World, wire: Wire, id: string)
    requires Inv(w, wire) && w.manager.pendingEnrollment.Some?
    requires id in w.manager.pendingEnrollment.value.enrollments ==> id in w.manager.credential.enrollments
    ensures CurrentToken(Resumed(w).manager.credential, id) == CurrentToken(w.manager.credential, id)
    ensures Resumed(w).manager.pendingEnrollment.None?
  {
    hide Load, ValidDocument;
  }

  lemma CreateStartKeepsEntitled(s: State, id: string, request: string, o: Outcome, wire: Wire, c: ConnectionId)
    requires Inv(s.world, wire) && EnrollmentInv(s) && Enabled(s, CreateStart(id, request, o))
    requires c in s.connections && Entitled(s, c)
    ensures Entitled(Next(s, CreateStart(id, request, o), wire), c)
  {
    hide CreateEarly, Inv;
    var t := Next(s, CreateStart(id, request, o), wire);
    CreateEarlyOutcome(s.world, id, request, o);
    OwedGrows(s, t, c);
    if HoldsToken(s.connections[c]) && s.world.manager.pendingEnrollment.Some? {
      AdoptionTouchesOnlyTheNewIdentity(s.world, wire, s.connections[c].id);
    }
  }

  lemma NoneOf(s: State, id: string)
    requires RegistryInv(s) && Admitting(s.registry, id) == 0
    ensures forall c | c in s.connections :: s.connections[c].id != id
  {
    assert |ConnectionsOf(s, id)| == 0;
    forall c | c in s.connections ensures s.connections[c].id != id {
      assert c !in ConnectionsOf(s, id);
    }
  }

  lemma CreateStartKeepsEnrollmentInv(s: State, id: string, request: string, o: Outcome, wire: Wire)
    requires Inv(s.world, wire) && RegistryInv(s) && EnrollmentInv(s) && Enabled(s, CreateStart(id, request, o))
    ensures EnrollmentInv(Next(s, CreateStart(id, request, o), wire))
  {
    hide CreateEarly, Inv;
    CreateEarlyOutcome(s.world, id, request, o);
    if Reservable(s.registry, id) {
      NoneOf(s, id);
    }
  }

  lemma CreateStartKeepsInv(s: State, id: string, request: string, o: Outcome, wire: Wire)
    requires AdmissionInv(s, wire) && Enabled(s, CreateStart(id, request, o))
    ensures AdmissionInv(Next(s, CreateStart(id, request, o), wire), wire)
  {
    hide Inv, CreateEarly, Entitled, EnrollmentInv, RegistryInv;
    var t := Next(s, CreateStart(id, request, o), wire);
    CreateEarlyKeepsInv(s.world, id, request, o, wire);
    CreateStartKeepsEnrollmentInv(s, id, request, o, wire);
    SameConnectionsKeepRegistry(s, t);
    forall c | c in t.connections ensures Entitled(t, c) {
      CreateStartKeepsEntitled(s, id, request, o, wire, c);
    }
  }

  lemma CreateLateOutcome(w: World, id: string, request: string, minted: string, o: Outcome, wire: Wire)
    ensures var m, n := w.manager, CreateLate(w, id, request, minted, o, wire).0.manager;
            var d := Enrolled(m.credential, id, Sha256(request), minted);
            n == m || n == m.(credential := d) || n == m.(pendingEnrollment := Some(d))
  {
    hide ValidDocument;
  }

  /** Publishing, or failing to publish, the reserved identity: nothing of it is connected. */
  lemma EnrolledKeepsInv(s: State, n: Credentials.Manager, minted: string)
    requires EnrollmentInv(s) && s.creating.Some? && s.creating.value.Reserved?
    requires var m, k := s.world.manager, s.creating.value;
             var d := Enrolled(m.credential, k.id, Sha256(k.request), minted);
             n == m || n == m.(credential := d) || n == m.(pendingEnrollment := Some(d))
    ensures forall t: State | t == s.(world := t.world, creating := Some(Published(s.creating.value.id))) && t.world.manager == n ::
              && EnrollmentInv(t)
              && (forall c | c in s.connections && Entitled(s, c) :: Entitled(t, c))
  {
    hide RequestTaken;
    forall t: State | t == s.(world := t.world, creating := Some(Published(s.creating.value.id))) && t.world.manager == n
      ensures forall c | c in s.connections && Entitled(s, c) :: Entitled(t, c)
    {
      forall c | c in s.connections && Entitled(s, c) ensures Entitled(t, c) {
        OwedGrows(s, t, c);
      }
    }
  }

  lemma CreatePublishKeepsInv(s: State, minted: string, o: Outcome, wire: Wire)
    requires AdmissionInv(s, wire) && Enabled(s, CreatePublish(minted, o))
    ensures AdmissionInv(Next(s, CreatePublish(minted, o), wire), wire)
  {
    hide Serve, CreateEarly, CreateLate, TokenForAgent, Covered, Reservable, RequestTaken, Inv, Entitled, RegistryInv;
    var k := s.creating.value;
    var w := CreateLate(s.world, k.id, k.request, minted, o, wire).0;
    var t := s.(world := w, creating := Some(Published(k.id)));
    assert t == Next(s, CreatePublish(minted, o), wire);
    CreateLateKeepsInv(s.world, k.id, k.request, minted, o, wire);
    CreateLateOutcome(s.world, k.id, k.request, minted, o, wire);
    hide EnrollmentInv, Next;
    EnrolledKeepsInv(s, w.manager, minted);
    SameConnectionsKeepRegistry(s, t);
  }

  // ---------------------------------------------------------------- events of the registry and the sockets

  predicate IsConnectionEvent(e: Event) {
    e.Begin? || e.Lookup? || e.Abandon? || e.Add? || e.Remove? || e.Exit?
  }

  lemma BeginAddsOne(s: State, agent: string, wire: Wire, id: string)
    requires Enabled(s, Begin(agent)) && s.next !in s.connections
    ensures var t := Next(s, Begin(agent), wire);
            && ConnectionsOf(t, id) == (if id == agent then ConnectionsOf(s, id) + {s.next} else ConnectionsOf(s, id))
            && Admitting(t.registry, id) == Admitting(s.registry, id) + if id == agent then 1 else 0
  {
    hide Serve, CreateEarly, CreateLate, TokenForAgent, Covered, Reservable;
    var t := Next(s, Begin(agent), wire);
    assert t.connections == s.connections[s.next := Connection(agent, s.registry.credentialEpoch, Waiting, false)];
    assert t.registry.admitting == s.registry.admitting[agent := Admitting(s.registry, agent) + 1];
  }

  lemma BeginCounts(s: State, agent: string, wire: Wire, id: string)
    requires CountsInv(s) && Enabled(s, Begin(agent)) && s.next !in s.connections
    ensures var t := Next(s, Begin(agent), wire); Admitting(t.registry, id) == |ConnectionsOf(t, id)|
  {
    hide Next;
    BeginAddsOne(s, agent, wire, id);
    assert s.next !in ConnectionsOf(s, id);
  }

  lemma ExitCounts(s: State, c: ConnectionId, wire: Wire, id: string)
    requires CountsInv(s) && Enabled(s, Exit(c))
    ensures var t := Next(s, Exit(c), wire); Admitting(t.registry, id) == |ConnectionsOf(t, id)|
  {
    hide Serve, CreateEarly, CreateLate, TokenForAgent, Covered, Reservable;
    var t := Next(s, Exit(c), wire);
    var agent := s.connections[c].id;
    assert c in ConnectionsOf(s, agent) && Admitting(s.registry, agent) == |ConnectionsOf(s, agent)|;
    assert ConnectionsOf(t, id) == if id == agent then ConnectionsOf(s, id) - {c} else ConnectionsOf(s, id);
  }

  lemma ConnectionEventKeepsCounts(s: State, e: Event, wire: Wire)
    requires CountsInv(s) && IsConnectionEvent(e) && Enabled(s, e) && s.next !in s.connections
    ensures CountsInv(Next(s, e, wire))
  {
    hide Serve, CreateEarly, CreateLate, TokenForAgent, Covered, Reservable;
    var t := Next(s, e, wire);
    forall id ensures Admitting(t.registry, id) == |ConnectionsOf(t, id)| {
      if e.Begin? {
        BeginCounts(s, e.id, wire, id);
      } else if e.Exit? {
        ExitCounts(s, e.c, wire, id);
      } else {
        assert ConnectionsOf(t, id) == ConnectionsOf(s, id);
      }
    }
  }

  lemma ConnectionEventKeepsRegistry(s: State, e: Event, wire: Wire)
    requires RegistryInv(s) && IsConnectionEvent(e) && Enabled(s, e)
    ensures RegistryInv(Next(s, e, wire))
  {
    hide Serve, CreateEarly, CreateLate, TokenForAgent, Covered, Reservable, CountsInv;
    ConnectionEventKeepsCounts(s, e, wire);
  }

  /** The identity is created by an enrolment that is not confirmed yet. */
  predicate AwaitsEnrolment(m: Credentials.Manager, id: string) {
    id !in m.credential.enrollments && m.pendingEnrollment.Some? && id in m.pendingEnrollment.value.enrollments
  }

  /** A valid identity that is not being enrolled is given its current token if it has one, and is refused otherwise. */
  lemma TokenForAgentIff(m: Credentials.Manager, id: string)
    ensures TokenForAgent(m, id) ==
            if ValidAgentId(id) && AwaitsEnrolment(m, id) then Err(CredentialPending)
            else if ValidAgentId(id) && CurrentToken(m.credential, id).Some? then Ok(CurrentToken(m.credential, id).value)
            else Err(AgentCredential)
  {
  }

  lemma ConnectionEventKeepsEnrollmentInv(s: State, e: Event, wire: Wire)
    requires EnrollmentInv(s) && IsConnectionEvent(e) && Enabled(s, e)
    ensures EnrollmentInv(Next(s, e, wire))
  {
    if e.Lookup? {
      TokenForAgentIff(s.world.manager, s.connections[e.c].id);
      hide TokenForAgent;
    }
  }

  lemma ConnectionEventKeepsEntitled(s: State, e: Event, wire: Wire, c: ConnectionId)
    requires IsConnectionEvent(e) && Enabled(s, e) && c in Next(s, e, wire).connections
    requires c in s.connections ==> Entitled(s, c)
    ensures Entitled(Next(s, e, wire), c)
  {
    hide TokenForAgent;
    if e.Lookup? {
      TokenForAgentIff(s.world.manager, s.connections[e.c].id);
    }
    if c in s.connections {
      OwedGrows(s, Next(s, e, wire), c);
    }
  }

  lemma ConnectionEventKeepsInv(s: State, e: Event, wire: Wire)
    requires AdmissionInv(s, wire) && IsConnectionEvent(e) && Enabled(s, e)
    ensures AdmissionInv(Next(s, e, wire), wire)
  {
    ConnectionEventKeepsRegistry(s, e, wire);
    ConnectionEventKeepsEnrollmentInv(s, e, wire);
    assert Next(s, e, wire).world == s.world;
    hide Inv, Entitled, EnrollmentInv, RegistryInv, Next;
    var t := Next(s, e, wire);
    forall c | c in t.connections ensures Entitled(t, c) {
      ConnectionEventKeepsEntitled(s, e, wire, c);
    }
  }

  /** Starting an invalidation covers every registered connection it was owed to, and outdates every handshake. */
  lemma InvalidateKeepsEntitled(s: State, h: nat, wire: Wire, c: ConnectionId)
    requires RegistryInv(s) && Enabled(s, Invalidate(h)) && c in s.connections && Entitled(s, c)
    ensures Entitled(Next(s, Invalidate(h), wire), c)
  {
    var t := Next(s, Invalidate(h), wire);
    var k := s.connections[c];
    forall g | g in s.owed && g != h ensures g in t.owed && t.owed[g] == s.owed[g] {}
    if k.phase.Registered? && Covers(s.owed[h].target, k.id) {
      assert c in t.owed[h].connections;
    }
  }

  lemma CloseSocketKeepsEntitled(s: State, h: nat, d: ConnectionId, wire: Wire, c: ConnectionId)
    requires Enabled(s, CloseSocket(h, d)) && c in s.connections && Entitled(s, c)
    ensures Entitled(Next(s, CloseSocket(h, d), wire), c)
  {
    var t := Next(s, CloseSocket(h, d), wire);
    forall g | g in s.owed && g != h ensures g in t.owed && t.owed[g] == s.owed[g] {}
    if c != d && c in s.owed[h].connections {
      assert c in t.owed[h].connections;
    }
  }

  lemma SettleKeepsEntitled(s: State, h: nat, wire: Wire, c: ConnectionId)
    requires Enabled(s, Settle(h)) && c in s.connections && Entitled(s, c)
    ensures Entitled(Next(s, Settle(h), wire), c)
  {
    var t := Next(s, Settle(h), wire);
    forall g | g in s.owed && g != h ensures g in t.owed && t.owed[g] == s.owed[g] {}
  }

  lemma InvalidationKeepsInv(s: State, e: Event, wire: Wire)
    requires AdmissionInv(s, wire) && Enabled(s, e)
    requires e.Invalidate? || e.CloseSocket? || e.Settle? || e.CreateRelease?
    ensures AdmissionInv(Next(s, e, wire), wire)
  {
    hide Inv, Entitled, Serve, CreateEarly, CreateLate, TokenForAgent, Reservable;
    var t := Next(s, e, wire);
    assert CountsInv(t) by {
      assert forall id :: ConnectionsOf(t, id) == ConnectionsOf(s, id);
    }
    hide CountsInv;
    forall c | c in t.connections ensures Entitled(t, c) {
      match e
      case Invalidate(h) => InvalidateKeepsEntitled(s, h, wire, c);
      case CloseSocket(h, d) => CloseSocketKeepsEntitled(s, h, d, wire, c);
      case Settle(h) => SettleKeepsEntitled(s, h, wire, c);
      case CreateRelease => CreateReleaseKeepsEntitled(s, wire, c);
    }
  }

  lemma CreateReleaseKeepsEntitled(s: State, wire: Wire, c: ConnectionId)
    requires Enabled(s, CreateRelease) && c in s.connections && Entitled(s, c)
    ensures Entitled(Next(s, CreateRelease, wire), c)
  {
    OwedGrows(s, Next(s, CreateRelease, wire), c);
  }

  lemma NextKeepsInv(s: State, e: Event, wire: Wire)
    requires AdmissionInv(s, wire) && Enabled(s, e)
    ensures AdmissionInv(Next(s, e, wire), wire)
  {
    hide AdmissionInv;
    match e
    case Mutate(h, q, o) => MutateKeepsInv(s, h, q, o, wire);
    case CreateStart(id, request, o) => CreateStartKeepsInv(s, id, request, o, wire);
    case CreatePublish(minted, o) => CreatePublishKeepsInv(s, minted, o, wire);
    case Invalidate(_) => InvalidationKeepsInv(s, e, wire);
    case CloseSocket(_, _) => InvalidationKeepsInv(s, e, wire);
    case Settle(_) => InvalidationKeepsInv(s, e, wire);
    case CreateRelease => InvalidationKeepsInv(s, e, wire);
    case _ => ConnectionEventKeepsInv(s, e, wire);
  }

  // ---------------------------------------------------------------- whole runs

  ghost predicate IsRun(ss: seq<State>, es: seq<Event>, wire: Wire) {
    && |ss| == |es| + 1
    && (forall i {:trigger es[i]} | 0 <= i < |es| :: Enabled(ss[i], es[i]) && ss[i + 1] == Next(ss[i], es[i], wire))
  }

  ghost predicate Started(s: State, wire: Wire) {
    && Booted(s.world, wire)
    && s.registry == Registry(map[], map[], {}, 0)
    && s.connections == map[] && s.next == 0 && s.owed == map[] && s.creating == None
  }

  lemma StartedKeepsInv(s: State, wire: Wire)
    requires Started(s, wire)
    ensures AdmissionInv(s, wire)
  {
    LoadIsCanonical(s.world.file, wire(s.world.file));
    assert forall id :: ConnectionsOf(s, id) == {};
  }

  lemma {:induction false} RunKeepsAdmission(ss: seq<State>, es: seq<Event>, wire: Wire, i: nat)
    requires IsRun(ss, es, wire) && Started(ss[0], wire) && i < |ss|
    ensures AdmissionInv(ss[i], wire)
  {
    hide AdmissionInv, Next, Enabled, Started;
    if i == 0 {
      StartedKeepsInv(ss[0], wire);
    } else {
      RunKeepsAdmission(ss, es, wire, i - 1);
      NextKeepsInv(ss[i - 1], es[i - 1], wire);
    }
  }

  /**
   * Along every run, each registered and open connection was authenticated with the token that is current for its
   * identity, or an invalidation covering it is still owed: not started, or started and about to close it.
   */
  lemma ConnectionsAreEntitled(ss: seq<State>, es: seq<Event>, wire: Wire, i: nat, c: ConnectionId)
    requires IsRun(ss, es, wire) && Started(ss[0], wire) && i < |ss|
    requires c in ss[i].connections && ss[i].connections[c].phase.Registered? && !ss[i].connections[c].closed
    ensures var k := ss[i].connections[c];
            || CurrentToken(ss[i].world.manager.credential, k.id) == Some(k.phase.token)
            || StillOwed(ss[i], k.id)
            || AboutToClose(ss[i], c)
  {
    hide RegistryInv, EnrollmentInv, Inv, Next, Enabled;
    RunKeepsAdmission(ss, es, wire, i);
    assert Entitled(ss[i], c);
  }

  /** Once nothing is owed, no open connection rests on a superseded credential. */
  lemma SettledConnectionsAreCurrent(ss: seq<State>, es: seq<Event>, wire: Wire, i: nat, c: ConnectionId)
    requires IsRun(ss, es, wire) && Started(ss[0], wire) && i < |ss| && ss[i].owed == map[]
    requires c in ss[i].connections && ss[i].connections[c].phase.Registered? && !ss[i].connections[c].closed
    ensures CurrentToken(ss[i].world.manager.credential, ss[i].connections[c].id) == Some(ss[i].connections[c].phase.token)
  {
    ConnectionsAreEntitled(ss, es, wire, i, c);
  }

  /** A handshake whose captured epoch is behind, or one that has ended, and that is not registered. */
  predicate Outdated(s: State, c: ConnectionId) {
    c < s.next && (c in s.connections ==> s.connections[c].epoch < s.registry.credentialEpoch && !s.connections[c].phase.Registered?)
  }

  lemma OutdatedStays(s: State, e: Event, wire: Wire, c: ConnectionId)
    requires Enabled(s, e) && Outdated(s, c)
    ensures Outdated(Next(s, e, wire), c)
  {
    hide Serve, CreateEarly, CreateLate, TokenForAgent;
  }

  /** No handshake that was under way when an invalidation took effect ever registers afterwards. */
  lemma {:induction false} InvalidationOutdatesHandshakes(ss: seq<State>, es: seq<Event>, wire: Wire, i: nat, j: nat, c: ConnectionId)
    requires IsRun(ss, es, wire) && Started(ss[0], wire) && i < j < |ss| && es[i].Invalidate?
    requires c in ss[i].connections && !ss[i].connections[c].phase.Registered?
    ensures Outdated(ss[j], c)
  {
    hide AdmissionInv, Started;
    if j == i + 1 {
      RunKeepsAdmission(ss, es, wire, i);
      KnownConnectionsAreEarlier(ss[i], wire, c);
    } else {
      hide Next, Enabled, Outdated;
      InvalidationOutdatesHandshakes(ss, es, wire, i, j - 1, c);
      OutdatedStays(ss[j - 1], es[j - 1], wire, c);
    }
  }

  lemma KnownConnectionsAreEarlier(s: State, wire: Wire, c: ConnectionId)
    requires AdmissionInv(s, wire) && c in s.connections
    ensures c < s.next && s.connections[c].epoch <= s.registry.credentialEpoch
  {
  }

  /** A created identity has no handshake and no connection, from its reservation until its release. */
  lemma CreatedIdentityIsUnconnected(ss: seq<State>, es: seq<Event>, wire: Wire, i: nat, c: ConnectionId)
    requires IsRun(ss, es, wire) && Started(ss[0], wire) && i < |ss|
    requires ss[i].creating.Some? && c in ss[i].connections
    ensures ss[i].connections[c].id != ss[i].creating.value.id
  {
    hide RegistryInv, Entitled, Inv, Next, Enabled;
    RunKeepsAdmission(ss, es, wire, i);
  }

  // ---------------------------------------------------------------- a token opens the door

  /** What the administrator is answered is what the Agent must present from then on. */
  lemma AnsweredTokenIsCurrent(w: World, q: Request, o: Outcome, wire: Wire)
    requires q.IssueToken? || q.CreateToken?
    requires Serve(w, q, o, wire).1.Token? && Serve(w, q, o, wire).1.token != ""
    ensures TokenForAgent(Serve(w, q, o, wire).0.manager, q.id) == Ok(Serve(w, q, o, wire).1.token)
    ensures Serve(w, q, o, wire).0.manager.credential.tokens[q.id] == Serve(w, q, o, wire).1.token
  {
    hide ValidDocument, ValidAgentId, RequestTaken, Trimmed;
  }

  /** An issue answers with the token minted for it, unless it repeats an unconfirmed one: then with the token minted first. */
  lemma IssueAnswersWhatWasMinted(w: World, id: string, minted: string, again: string, o: Outcome, wire: Wire)
    requires PendingDocument(w.manager).None?
    ensures var r := Serve(w, IssueToken(id, minted), o, wire);
            && (r.1.Token? ==> r.1.token == minted && r.0.file.tokens == w.manager.credential.tokens[id := minted])
            && (PendingDocument(r.0.manager).Some? ==>
                 var retried := Serve(r.0, IssueToken(id, again), Confirmed, wire);
                 retried.1 == Token(minted) && retried.0.file.tokens == w.manager.credential.tokens[id := minted])
  {
    hide ValidDocument, ValidAgentId;
  }

  /** A revoked identity is refused; an unenrolled one falls back on the shared token; under scoped credentials no one does. */
  lemma WithdrawnTokens(w: World, q: Request, o: Outcome, wire: Wire, id: string)
    requires !q.CreateToken? && Serve(w, q, o, wire).1.Done?
    ensures var n := Serve(w, q, o, wire).0.manager;
            && (q == RevokeToken(id) ==> TokenForAgent(n, id) == Err(AgentCredential))
            && (q == UnenrollToken(id) ==>
                 TokenForAgent(n, id) == if |n.credential.agentToken| < 32 then Err(AgentCredential) else Ok(n.credential.agentToken))
            && (q == ChangeMode(Scoped) && id !in n.credential.tokens ==> TokenForAgent(n, id).Err?)
  {
    hide ValidDocument, ValidAgentId;
  }

  /** The lookup of a handshake: it goes on exactly with the current token of an identity that is not being enrolled. */
  lemma LookupAuthenticatesIff(s: State, c: ConnectionId, presented: string, wire: Wire)
    requires Enabled(s, Lookup(c, presented))
    ensures var k, m := Next(s, Lookup(c, presented), wire).connections[c], s.world.manager;
            && (k.phase == Authenticated(presented) <==>
                 && ValidAgentId(k.id) && !AwaitsEnrolment(m, k.id)
                 && CurrentToken(m.credential, k.id) == Some(presented) && |presented| >= MINIMUM_TOKEN_BYTES)
            && (k.phase != Authenticated(presented) ==> k.phase.Leaving?)
            && k == s.connections[c].(phase := k.phase)
  {
    TokenForAgentIff(s.world.manager, s.connections[c].id);
    hide TokenForAgent;
  }

  /** An authenticated handshake becomes the connection of its identity exactly if no invalidation came in between and there is no other. */
  lemma AddRegistersIff(s: State, c: ConnectionId, wire: Wire)
    requires Enabled(s, Add(c))
    ensures var t, k := Next(s, Add(c), wire), s.connections[c];
            && (t.connections[c].phase == Registered(k.phase.token) <==>
                 k.epoch == s.registry.credentialEpoch && k.id !in s.registry.agents)
            && (t.connections[c].phase.Registered? ==> t.registry.agents == s.registry.agents[k.id := c])
            && (!t.connections[c].phase.Registered? ==> t.connections[c].phase.Leaving? && t.registry == s.registry)
  {
  }

  /** An Agent of the identity that begins a handshake and presents the token becomes its registered connection. */
  ghost predicate Connects(s: State, id: string, presented: string, wire: Wire) {
    && Enabled(s, Begin(id))
    && var begun := Next(s, Begin(id), wire);
    && Enabled(begun, Lookup(s.next, presented))
    && var found := Next(begun, Lookup(s.next, presented), wire);
    && Enabled(found, Add(s.next)) && found.connections[s.next].phase == Authenticated(presented)
    && var added := Next(found, Add(s.next), wire);
    && added.connections == s.connections[s.next := Connection(id, s.registry.credentialEpoch, Registered(presented), false)]
    && added.registry.agents == s.registry.agents[id := s.next]
  }

  /** With the token it is given an Agent connects, unless it is connected already. */
  lemma TokenConnects(s: State, id: string, presented: string, wire: Wire)
    requires AdmissionInv(s, wire) && s.creating.None? && id !in s.registry.agents
    requires TokenForAgent(s.world.manager, id) == Ok(presented) && |presented| >= MINIMUM_TOKEN_BYTES
    ensures Connects(s, id, presented, wire)
  {
    hide Inv, RegistryInv, Entitled, TokenForAgent;
  }

  lemma MutateLeavesRegistry(s: State, h: nat, q: Request, o: Outcome, wire: Wire)
    requires Enabled(s, Mutate(h, q, o))
    ensures var t := Next(s, Mutate(h, q, o), wire);
            t.creating.None? && t.registry == s.registry && t.world == Serve(s.world, q, o, wire).0
  {
    hide Serve;
  }

  /** A token just issued connects its Agent. */
  lemma IssuedTokenConnects(s: State, h: nat, id: string, minted: string, o: Outcome, wire: Wire)
    requires AdmissionInv(s, wire) && Enabled(s, Mutate(h, IssueToken(id, minted), o)) && id !in s.registry.agents
    requires Serve(s.world, IssueToken(id, minted), o, wire).1 == Token(minted) && |minted| >= MINIMUM_TOKEN_BYTES
    ensures Connects(Next(s, Mutate(h, IssueToken(id, minted), o), wire), id, minted, wire)
  {
    MutateLeavesRegistry(s, h, IssueToken(id, minted), o, wire);
    hide *;
    MutateKeepsInv(s, h, IssueToken(id, minted), o, wire);
    AnsweredTokenIsCurrent(s.world, IssueToken(id, minted), o, wire);
    TokenConnects(Next(s, Mutate(h, IssueToken(id, minted), o), wire), id, minted, wire);
  }

  /** A create reserves its identity if and only if nothing of that identity is connecting or connected. */
  lemma CreateReservesIff(s: State, id: string, request: string, o: Outcome, wire: Wire)
    requires AdmissionInv(s, wire) && s.creating.None? && CreateEarly(s.world, id, request, o).1.None?
    ensures Enabled(s, CreateStart(id, request, o))
    ensures Next(s, CreateStart(id, request, o), wire).creating ==
            if exists c :: c in s.connections && s.connections[c].id == id then None else Some(Reserved(id, request))
  {
    hide CreateEarly, Inv, Entitled;
    assert Admitting(s.registry, id) == |ConnectionsOf(s, id)|;
    if c :| c in s.connections && s.connections[c].id == id {
      assert c in ConnectionsOf(s, id);
    } else {
      assert ConnectionsOf(s, id) == {};
    }
  }

  /** An invalidation closes exactly the registered connections it is owed for: those of its identity, or all. */
  lemma InvalidationClosesExactly(s: State, h: nat, wire: Wire, c: ConnectionId)
    requires RegistryInv(s) && Enabled(s, Invalidate(h))
    ensures var t := Next(s, Invalidate(h), wire);
            && t.owed[h].Closing?
            && (c in t.owed[h].connections <==>
                 && c in s.connections && s.connections[c].phase.Registered?
                 && (s.owed[h].target.Some? ==> s.connections[c].id == s.owed[h].target.value))
  {
    hide CountsInv;
  }

  /** A mutation disturbs no connection itself, and the invalidation it may owe is of the identity it changed alone. */
  lemma MutationOwesItsIdentityAlone(s: State, h: nat, q: Request, o: Outcome, wire: Wire)
    requires Enabled(s, Mutate(h, q, o)) && (q.IssueToken? || q.RevokeToken? || q.UnenrollToken?)
    ensures var t := Next(s, Mutate(h, q, o), wire);
            && t.connections == s.connections && t.registry == s.registry
            && (t.owed == s.owed || t.owed == s.owed[h := Owed(Some(q.id))])
  {
    hide Serve;
  }

  /** An invalidation that is owed can be carried through: it ends with exactly the covered connections closed, and nothing owed. */
  lemma InvalidationCarriesThrough(s: State, h: nat, wire: Wire) returns (ss: seq<State>, es: seq<Event>)
    requires RegistryInv(s) && Enabled(s, Invalidate(h))
    ensures IsPath(s, ss, es, wire)
    ensures var t := ss[|ss| - 1];
            && t.owed == s.owed - {h} && t.world == s.world && t.registry.agents == s.registry.agents
            && t.connections.Keys == s.connections.Keys
            && forall c | c in s.connections ::
                 var covered := && s.connections[c].phase.Registered?
                                && (s.owed[h].target.Some? ==> s.connections[c].id == s.owed[h].target.value);
                 t.connections[c] == if covered then s.connections[c].(closed := true) else s.connections[c]
  {
    var t := Next(s, Invalidate(h), wire);
    forall c ensures c in t.owed[h].connections <==>
      && c in s.connections && s.connections[c].phase.Registered?
      && (s.owed[h].target.Some? ==> s.connections[c].id == s.owed[h].target.value) {
      InvalidationClosesExactly(s, h, wire, c);
    }
    assert t.owed - {h} == s.owed - {h};
    assert t.connections == s.connections && t.world == s.world && t.registry.agents == s.registry.agents;
    assert t.owed[h].Closing?;
    var rest, steps := ClosingCarriesThrough(t, h, wire);
    ss, es := [s] + rest, [Invalidate(h)] + steps;
  }

  /** A series of enabled steps from a state on. */
  ghost predicate IsPath(s: State, ss: seq<State>, es: seq<Event>, wire: Wire) {
    && |ss| == |es| + 1 && ss[0] == s
    && forall i {:trigger es[i]} | 0 <= i < |es| :: Enabled(ss[i], es[i]) && ss[i + 1] == Next(ss[i], es[i], wire)
  }

  lemma SocketCloses(s: State, h: nat, c: ConnectionId, wire: Wire)
    requires h in s.owed && s.owed[h].Closing? && c in s.owed[h].connections
    ensures Enabled(s, CloseSocket(h, c))
    ensures var n := Next(s, CloseSocket(h, c), wire);
            && h in n.owed && n.owed[h] == Closing(s.owed[h].connections - {c}) && n.owed - {h} == s.owed - {h}
            && n.world == s.world && n.registry == s.registry && n.connections.Keys == s.connections.Keys
            && forall k | k in s.connections :: n.connections[k] == if k == c then s.connections[k].(closed := true) else s.connections[k]
  {
    assert Next(s, CloseSocket(h, c), wire).owed - {h} == s.owed - {h};
  }

  lemma {:induction false} ClosingCarriesThrough(s: State, h: nat, wire: Wire) returns (ss: seq<State>, es: seq<Event>)
    requires h in s.owed && s.owed[h].Closing?
    ensures IsPath(s, ss, es, wire)
    ensures var t := ss[|ss| - 1];
            && t.owed == s.owed - {h} && t.world == s.world && t.registry == s.registry
            && t.connections.Keys == s.connections.Keys
            && forall c | c in s.connections ::
                 t.connections[c] == if c in s.owed[h].connections then s.connections[c].(closed := true) else s.connections[c]
    decreases s.owed[h].connections
  {
    if s.owed[h].connections == {} {
      ss, es := [s, Next(s, Settle(h), wire)], [Settle(h)];
    } else {
      var c :| c in s.owed[h].connections;
      SocketCloses(s, h, c, wire);
      var n := Next(s, CloseSocket(h, c), wire);
      hide Next, Enabled;
      var rest, steps := ClosingCarriesThrough(n, h, wire);
      ss, es := [s] + rest, [CloseSocket(h, c)] + steps;
    }
  }
}
