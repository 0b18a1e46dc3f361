/**
 * Maintenance of an Agent's host and of Core: leases that fence the requests an Agent connection may carry. Each method
 * is one section under the server's lock; request ids and connections are numbers that are never reused.
 */
module Maintenance {
  import opened Common

  type ConnectionId = nat
  type RequestId = nat

  datatype Message =
    | RestartRequest(operation: string, generation: string)
    | ProfileRequest(profile: string)
    | OtherRequest(kind: string)

  /** Core's authority for one profile command, carried beside the message. */
  datatype Permit = Permit(agent: string, generation: string, lease: string, profile: string)

  datatype Call = Call(message: Message, permit: Option<Permit>)

  datatype Pending = Pending(call: Call, reply: Option<string>)

  datatype Connection = Connection(agent: string, generation: string, closed: bool, pending: map<RequestId, Pending>)

  datatype State = State(
    agents: map<string, ConnectionId>,
    connections: map<ConnectionId, Connection>,
    maintenance: map<string, string>,
    update: string,
    nextID: nat)

  predicate ValidIdentifier(s: string) {
    1 <= ByteLength(s) <= 128 &&
    forall i | 0 <= i < |s| :: 'a' <= s[i] <= 'z' || 'A' <= s[i] <= 'Z' || '0' <= s[i] <= '9' || s[i] == '-' || s[i] == '_' || s[i] == '.' || s[i] == ':'
  }

  function Lease(s: State, agent: string): string {
    if agent in s.maintenance then s.maintenance[agent] else ""
  }

  predicate PermittedProfile(c: Connection, lease: string, call: Call) {
    && call.permit.Some? && lease != "" && call.permit.value.lease == lease
    && call.permit.value.agent == c.agent && call.permit.value.generation == c.generation
    && call.message == ProfileRequest(call.permit.value.profile)
  }

  predicate LeaseRestart(c: Connection, lease: string, call: Call) {
    call.message == RestartRequest(lease, c.generation) && lease != ""
  }

  /** The fence of roundTrip, before it looks whether the connection is still open. */
  predicate PassesFence(s: State, c: Connection, call: Call) {
    var lease := Lease(s, c.agent);
    && s.update == ""
    && (call.permit.Some? ==> PermittedProfile(c, lease, call))
    && (lease != "" ==> LeaseRestart(c, lease, call) || PermittedProfile(c, lease, call))
    && (call.message.RestartRequest? ==> LeaseRestart(c, lease, call))
  }

  predicate Busy(s: State, id: ConnectionId) {
    id in s.connections && s.connections[id].pending != map[]
  }

  datatype Failure = InMaintenance | Offline | GenerationMismatch | StillActive | InvalidIdentity

  function WithConnection(s: State, id: ConnectionId, c: Connection): State {
    s.(connections := s.connections[id := c])
  }

  /** BeginHostMaintenance. */
  function HostBegun(s: State, agent: string, generation: string, lease: string): (State, Option<Failure>) {
    if !ValidIdentifier(lease) || agent == "" || generation == "" then (s, Some(InvalidIdentity))
    else if s.update != "" then (s, Some(InMaintenance))
    else if Lease(s, agent) != "" then (s, if Lease(s, agent) == lease then None else Some(InMaintenance))
    else if agent !in s.agents || s.agents[agent] !in s.connections then (s, Some(Offline))
    else if s.connections[s.agents[agent]].generation != generation then (s, Some(GenerationMismatch))
    else if Busy(s, s.agents[agent]) then (s, Some(StillActive))
    else (s.(maintenance := s.maintenance[agent := lease]), None)
  }

  function HostEnded(s: State, agent: string, lease: string): (State, Option<Failure>) {
    if !ValidIdentifier(lease) || agent == "" then (s, Some(InvalidIdentity))
    else if Lease(s, agent) != "" && Lease(s, agent) != lease then (s, Some(InMaintenance))
    else (s.(maintenance := s.maintenance - {agent}), None)
  }

  function UpdateBegun(s: State, lease: string): (State, Option<Failure>) {
    if !ValidIdentifier(lease) then (s, Some(InvalidIdentity))
    else if s.update == lease then (s, None)
    else if s.update != "" || s.maintenance != map[] then (s, Some(InMaintenance))
    else if exists agent :: agent in s.agents && Busy(s, s.agents[agent]) then (s, Some(InMaintenance))
    else (s.(update := lease), None)
  }

  function UpdateEnded(s: State, lease: string): (State, Option<Failure>) {
    if lease == "" || (s.update != "" && s.update != lease) then (s, Some(InMaintenance))
    else (s.(update := ""), None)
  }

  /** The registration of roundTrip: the request is pending, or nothing changed but the counter. */
  function Registered(s: State, id: ConnectionId, call: Call): (State, Option<Failure>)
    requires id in s.connections
  {
    var t := s.(nextID := s.nextID + 1);
    var c := s.connections[id];
    if !PassesFence(s, c, call) then (t, Some(InMaintenance))
    else if c.closed then (t, Some(Offline))
    else (WithConnection(t, id, c.(pending := c.pending[t.nextID := Pending(call, None)])), None)
  }

  class Server {
    var agents: map<string, ConnectionId>
    var connections: map<ConnectionId, Connection>
    var maintenance: map<string, string>
    var update: string
    var nextID: nat

    function View(): State
      reads this
    {
      State(agents, connections, maintenance, update, nextID)
    }

    constructor ()
      ensures View() == State(map[], map[], map[], "", 0)
    {
      agents, connections, maintenance, update, nextID := map[], map[], map[], "", 0;
    }

    method BeginHostMaintenance(agent: string, generation: string, lease: string) returns (failure: Option<Failure>)
      modifies this
      ensures (View(), failure) == HostBegun(old(View()), agent, generation, lease)
    {
      hide ValidIdentifier;
      if !ValidIdentifier(lease) || agent == "" || generation == "" {
        return Some(InvalidIdentity);
      }
      if update != "" {
        return Some(InMaintenance);
      }
      if agent in maintenance && maintenance[agent] != "" {
        return if maintenance[agent] == lease then None else Some(InMaintenance);
      }
      if agent !in agents || agents[agent] !in connections {
        return Some(Offline);
      }
      var connection := connections[agents[agent]];
      if connection.generation != generation {
        return Some(GenerationMismatch);
      }
      if connection.pending != map[] {
        return Some(StillActive);
      }
      maintenance := maintenance[agent := lease];
      failure := None;
    }

    method EndHostMaintenance(agent: string, lease: string) returns (failure: Option<Failure>)
      modifies this
      ensures (View(), failure) == HostEnded(old(View()), agent, lease)
    {
      hide ValidIdentifier;
      if !ValidIdentifier(lease) || agent == "" {
        return Some(InvalidIdentity);
      }
      if agent in maintenance && maintenance[agent] != "" && maintenance[agent] != lease {
        return Some(InMaintenance);
      }
      maintenance := maintenance - {agent};
      failure := None;
    }

    method BeginUpdateMaintenance(lease: string) returns (failure: Option<Failure>)
      modifies this
      ensures (View(), failure) == UpdateBegun(old(View()), lease)
    {
      hide ValidIdentifier;
      if !ValidIdentifier(lease) {
        return Some(InvalidIdentity);
      }
      if update == lease {
        return None;
      }
      if update != "" || maintenance != map[] {
        return Some(InMaintenance);
      }
      var todo := agents.Keys;
      while todo != {}
        invariant todo <= agents.Keys && View() == old(View())
        invariant forall agent | agent in agents.Keys - todo :: !Busy(View(), agents[agent])
      {
        var agent :| agent in todo;
        todo := todo - {agent};
        if agents[agent] in connections && connections[agents[agent]].pending != map[] {
          assert Busy(View(), agents[agent]);
          return Some(InMaintenance);
        }
      }
      update := lease;
      failure := None;
    }

    method EndUpdateMaintenance(lease: string) returns (failure: Option<Failure>)
      modifies this
      ensures (View(), failure) == UpdateEnded(old(View()), lease)
    {
      if lease == "" || (update != "" && update != lease) {
        return Some(InMaintenance);
      }
      update := "";
      failure := None;
    }

    /** The part of roundTrip between its two lock releases. */
    method RegisterRequest(id: ConnectionId, call: Call) returns (failure: Option<Failure>)
      requires id in connections
      modifies this
      ensures (View(), failure) == Registered(old(View()), id, call)
    {
      nextID := nextID + 1;
      var connection := connections[id];
      var lease := if connection.agent in maintenance then maintenance[connection.agent] else "";
      if update != "" {
        return Some(InMaintenance);
      }
      var permitted := PermittedProfile(connection, lease, call);
      var restart := call.message == RestartRequest(lease, connection.generation) && lease != "";
      if (call.permit.Some? && !permitted) || (lease != "" && !restart && !permitted) || (call.message.RestartRequest? && !restart) {
        return Some(InMaintenance);
      }
      if connection.closed {
        return Some(Offline);
      }
      connections := connections[id := connection.(pending := connection.pending[nextID := Pending(call, None)])];
      failure := None;
    }
  }

  // ---------------------------------------------------------------- runs

  datatype Event =
    | Connects(id: ConnectionId, agent: string, generation: string)
    | Unregisters(id: ConnectionId)
    | Closes(id: ConnectionId)
    | Requests(id: ConnectionId, call: Call)
    | Replies(id: ConnectionId, request: RequestId, response: string)
    | Returns(id: ConnectionId, request: RequestId)
    | BeginHost(agent: string, generation: string, lease: string)
    | EndHost(agent: string, lease: string)
    | BeginUpdate(lease: string)
    | EndUpdate(lease: string)

  /** A reply finds its request by id, and only the first one is kept. */
  function Replied(s: State, id: ConnectionId, request: RequestId, response: string): State {
    if id !in s.connections || request !in s.connections[id].pending || s.connections[id].pending[request].reply.Some? then s
    else
      var c := s.connections[id];
      WithConnection(s, id, c.(pending := c.pending[request := c.pending[request].(reply := Some(response))]))
  }

  ghost predicate Next(s: State, e: Event, n: State) {
    match e
    case Connects(id, agent, generation) =>
      && id !in s.connections && agent !in s.agents
      && n == WithConnection(s, id, Connection(agent, generation, false, map[])).(agents := s.agents[agent := id])
    case Unregisters(id) =>
      && id in s.connections
      && var agent := s.connections[id].agent;
      n == if agent in s.agents && s.agents[agent] == id then s.(agents := s.agents - {agent}) else s
    case Closes(id) =>
      && id in s.connections && (s.connections[id].agent in s.agents ==> s.agents[s.connections[id].agent] != id)
      && n == WithConnection(s, id, s.connections[id].(closed := true))
    case Requests(id, call) =>
      id in s.connections && n == Registered(s, id, call).0
    case Replies(id, request, response) =>
      n == Replied(s, id, request, response)
    case Returns(id, request) =>
      && id in s.connections
      && n == WithConnection(s, id, s.connections[id].(pending := s.connections[id].pending - {request}))
    case BeginHost(agent, generation, lease) => n == HostBegun(s, agent, generation, lease).0
    case EndHost(agent, lease) => n == HostEnded(s, agent, lease).0
    case BeginUpdate(lease) => n == UpdateBegun(s, lease).0
    case EndUpdate(lease) => n == UpdateEnded(s, lease).0
  }

  ghost predicate RegistryInOrder(s: State) {
    && (forall agent | agent in s.agents :: s.agents[agent] in s.connections && s.connections[s.agents[agent]].agent == agent)
    && (forall agent | agent in s.maintenance :: s.maintenance[agent] != "")
  }

  /** Request ids are handed out in order, so the next one is not pending anywhere. */
  ghost predicate RequestsNumbered(s: State) {
    forall id, request | id in s.connections && request in s.connections[id].pending :: request <= s.nextID
  }

  /** Under a host lease a registered connection carries nothing but what the lease allows. */
  ghost predicate HostFenced(s: State) {
    forall agent, request | agent in s.maintenance && agent in s.agents && s.agents[agent] in s.connections &&
                            request in s.connections[s.agents[agent]].pending ::
      var c := s.connections[s.agents[agent]];
      LeaseRestart(c, s.maintenance[agent], c.pending[request].call) || PermittedProfile(c, s.maintenance[agent], c.pending[request].call)
  }

  ghost predicate UpdateFenced(s: State) {
    s.update != "" ==> s.maintenance == map[] && forall agent | agent in s.agents :: !Busy(s, s.agents[agent])
  }

  ghost predicate Inv(s: State) {
    RegistryInOrder(s) && RequestsNumbered(s) && HostFenced(s) && UpdateFenced(s)
  }

  lemma NextKeepsInv(s: State, e: Event, n: State)
    requires Inv(s) && Next(s, e, n)
    ensures Inv(n)
  {
    hide ValidIdentifier;
    NextKeepsRegistry(s, e, n);
    NextKeepsNumbers(s, e, n);
    NextKeepsHostFence(s, e, n);
    NextKeepsUpdateFence(s, e, n);
  }

  lemma NextKeepsRegistry(s: State, e: Event, n: State)
    requires RegistryInOrder(s) && Next(s, e, n)
    ensures RegistryInOrder(n)
  {
    hide PassesFence, Busy, ValidIdentifier;
    ValidLeaseIsSomething(e);
  }

  lemma NextKeepsNumbers(s: State, e: Event, n: State)
    requires RequestsNumbered(s) && Next(s, e, n)
    ensures RequestsNumbered(n)
  {
    hide PassesFence, Busy, ValidIdentifier;
  }

  lemma ValidLeaseIsSomething(e: Event)
    ensures e.BeginHost? && ValidIdentifier(e.lease) ==> e.lease != ""
  {
  }

  lemma NextKeepsHostFence(s: State, e: Event, n: State)
    requires RegistryInOrder(s) && HostFenced(s) && Next(s, e, n)
    ensures HostFenced(n)
  {
    hide ValidIdentifier;
  }

  lemma NextKeepsUpdateFence(s: State, e: Event, n: State)
    requires RegistryInOrder(s) && UpdateFenced(s) && Next(s, e, n)
    ensures UpdateFenced(n)
  {
    hide ValidIdentifier, LeaseRestart, PermittedProfile;
  }

  const START := State(map[], map[], map[], "", 0)

  ghost predicate IsRun(ss: seq<State>, es: seq<Event>) {
    && |ss| == |es| + 1
    && ss[0] == START
    && forall i {:trigger es[i]} | 0 <= i < |es| :: Next(ss[i], es[i], ss[i + 1])
  }

  lemma {:induction false} RunKeepsInv(ss: seq<State>, es: seq<Event>, i: nat)
    requires IsRun(ss, es) && i < |ss|
    ensures Inv(ss[i])
  {
    hide Next, Inv;
    if i == 0 {
      StartIsInOrder();
    } else {
      RunKeepsInv(ss, es, i - 1);
      NextKeepsInv(ss[i - 1], es[i - 1], ss[i]);
    }
  }

  lemma StartIsInOrder()
    ensures Inv(START)
  {
  }

  /**
   * While an Agent's host is leased, whatever is pending on its registered connection is the restart that carries the
   * lease and that connection's generation, or the exact profile command permitted under the lease.
   */
  lemma LeaseFencesRequests(ss: seq<State>, es: seq<Event>, i: nat, agent: string, request: RequestId)
    requires IsRun(ss, es) && i < |ss| && Lease(ss[i], agent) != "" && agent in ss[i].agents
    requires ss[i].agents[agent] in ss[i].connections && request in ss[i].connections[ss[i].agents[agent]].pending
    ensures var c := ss[i].connections[ss[i].agents[agent]];
            var call, lease := c.pending[request].call, Lease(ss[i], agent);
            || call.message == RestartRequest(lease, c.generation)
            || (call.permit.Some? && call.permit.value == Permit(agent, c.generation, lease, call.permit.value.profile) &&
                call.message == ProfileRequest(call.permit.value.profile))
  {
    RunKeepsInv(ss, es, i);
  }

  /** During update maintenance nothing is pending on any registered connection, and no host is leased. */
  lemma UpdateFencesRequests(ss: seq<State>, es: seq<Event>, i: nat, agent: string)
    requires IsRun(ss, es) && i < |ss| && ss[i].update != ""
    ensures Lease(ss[i], agent) == ""
    ensures agent in ss[i].agents ==> ss[i].agents[agent] in ss[i].connections && ss[i].connections[ss[i].agents[agent]].pending == map[]
  {
    RunKeepsInv(ss, es, i);
  }

  lemma LeaseStays(s: State, e: Event, n: State, agent: string)
    requires Inv(s) && Next(s, e, n) && Lease(s, agent) != ""
    ensures Lease(n, agent) == Lease(s, agent) || (e == EndHost(agent, Lease(s, agent)) && Lease(n, agent) == "")
  {
    hide ValidIdentifier, PassesFence, Busy;
  }

  /** Only its owner ends a lease; the Agent's disconnecting and connecting again does not. */
  lemma {:induction false} OnlyTheOwnerReleases(ss: seq<State>, es: seq<Event>, i: nat, j: nat, agent: string)
    requires IsRun(ss, es) && i <= j < |ss| && Lease(ss[i], agent) != ""
    requires forall k | i <= k < j :: es[k] != EndHost(agent, Lease(ss[i], agent))
    ensures Lease(ss[j], agent) == Lease(ss[i], agent)
  {
    hide Next, Inv, Lease;
    if i < j {
      OnlyTheOwnerReleases(ss, es, i, j - 1, agent);
      RunKeepsInv(ss, es, j - 1);
      LeaseStays(ss[j - 1], es[j - 1], ss[j], agent);
    }
  }

  predicate Answered(s: State, id: ConnectionId, request: RequestId) {
    id in s.connections && request in s.connections[id].pending && s.connections[id].pending[request].reply.Some?
  }

  /** The first reply to a request is the one its caller gets: later ones change nothing while it is pending. */
  lemma FirstReplyWins(s: State, e: Event, n: State, id: ConnectionId, request: RequestId)
    requires Inv(s) && Next(s, e, n) && Answered(s, id, request)
    ensures Answered(n, id, request) ==> n.connections[id].pending[request] == s.connections[id].pending[request]
    ensures !Answered(n, id, request) ==> e == Returns(id, request)
  {
    hide ValidIdentifier, PassesFence, Busy;
  }

  // ---------------------------------------------------------------- what each operation answers

  /**
   * A request becomes pending if and only if Core is not being updated, the connection is open, and: without a lease on
   * the host it is neither a restart nor under a permit; with one it is the restart that names lease and generation, or
   * the profile command its permit names for this Agent, generation and lease.
   */
  lemma RequestIsRegisteredIff(s: State, id: ConnectionId, call: Call)
    requires id in s.connections
    ensures var c, lease := s.connections[id], Lease(s, s.connections[id].agent);
            var allowed :=
              && s.update == ""
              && if lease == "" then call.permit.None? && !call.message.RestartRequest?
                 else || (call.permit.None? && call.message == RestartRequest(lease, c.generation))
                      || (call.message.ProfileRequest? && call.permit == Some(Permit(c.agent, c.generation, lease, call.message.profile)));
            var r := Registered(s, id, call);
            && (r.1.None? <==> allowed && !c.closed)
            && (r.1 == Some(Offline) <==> allowed && c.closed)
            && (r.1.Some? && r.1 != Some(Offline) ==> r.1 == Some(InMaintenance))
            && (r.1.None? ==> r.0.connections == s.connections[id := c.(pending := c.pending[s.nextID + 1 := Pending(call, None)])])
            && (r.1.Some? ==> r.0.connections == s.connections)
            && (r.0.agents, r.0.maintenance, r.0.update) == (s.agents, s.maintenance, s.update)
  {
  }

  /** A host is leased if and only if no update is going on, and it is idle in the given generation or under this very lease. */
  lemma HostBeginsIff(s: State, agent: string, generation: string, lease: string)
    requires RegistryInOrder(s)
    ensures var r := HostBegun(s, agent, generation, lease);
            && (r.1.None? <==>
                 && ValidIdentifier(lease) && agent != "" && generation != "" && s.update == ""
                 && (|| Lease(s, agent) == lease
                     || (Lease(s, agent) == "" && agent in s.agents && s.connections[s.agents[agent]].generation == generation &&
                         s.connections[s.agents[agent]].pending == map[])))
            && (r.1.None? ==> Lease(r.0, agent) == lease)
            && (forall other | other != agent :: Lease(r.0, other) == Lease(s, other))
            && r.0 == s.(maintenance := r.0.maintenance)
  {
    assert !ValidIdentifier("");
    hide ValidIdentifier;
  }

  /** A lease is given up if and only if whoever asks holds it, or no one does. */
  lemma HostEndsIff(s: State, agent: string, lease: string)
    ensures var r := HostEnded(s, agent, lease);
            && (r.1.None? <==> ValidIdentifier(lease) && agent != "" && Lease(s, agent) in {"", lease})
            && (r.1.None? ==> Lease(r.0, agent) == "")
            && (forall other | other != agent || r.1.Some? :: Lease(r.0, other) == Lease(s, other))
            && r.0 == s.(maintenance := r.0.maintenance)
  {
    hide ValidIdentifier;
  }

  /** Core may be updated if and only if it already is under this lease, or no host is leased and no registered connection busy. */
  lemma UpdateBeginsIff(s: State, lease: string)
    requires RegistryInOrder(s)
    ensures var r := UpdateBegun(s, lease);
            && (r.1.None? <==>
                 && ValidIdentifier(lease)
                 && (|| s.update == lease
                     || (s.update == "" && s.maintenance == map[] &&
                         forall agent | agent in s.agents :: s.connections[s.agents[agent]].pending == map[])))
            && r.0 == if r.1.None? then s.(update := lease) else s
  {
    hide ValidIdentifier;
    if agent :| agent in s.agents && s.connections[s.agents[agent]].pending != map[] {
      assert Busy(s, s.agents[agent]);
    }
  }

  lemma UpdateEndsIff(s: State, lease: string)
    ensures var r := UpdateEnded(s, lease);
            && (r.1.None? <==> lease != "" && s.update in {"", lease})
            && r.0 == if r.1.None? then s.(update := "") else s
  {
  }

  /** After a lease is given up ordinary requests of the Agent pass again, and while it lasts they do not. */
  lemma ReleaseReopens(s: State, id: ConnectionId, lease: string, kind: string)
    requires id in s.connections && Lease(s, s.connections[id].agent) == lease != "" && s.update == ""
    requires ValidIdentifier(lease) && s.connections[id].agent != "" && !s.connections[id].closed
    ensures var call := Call(OtherRequest(kind), None);
            && Registered(s, id, call).1 == Some(InMaintenance)
            && Registered(HostEnded(s, s.connections[id].agent, lease).0, id, call).1.None?
  {
    hide ValidIdentifier, HostEnded, Registered;
    var freed := HostEnded(s, s.connections[id].agent, lease).0;
    HostEndsIff(s, s.connections[id].agent, lease);
    RequestIsRegisteredIff(s, id, Call(OtherRequest(kind), None));
    RequestIsRegisteredIff(freed, id, Call(OtherRequest(kind), None));
  }

  /** A reply reaches the request it answers, and no other. */
  lemma ReplyArrives(s: State, id: ConnectionId, request: RequestId, response: string, n: State)
    requires Next(s, Replies(id, request, response), n)
    requires id in s.connections && request in s.connections[id].pending && !Answered(s, id, request)
    ensures Answered(n, id, request) && n.connections[id].pending[request] == s.connections[id].pending[request].(reply := Some(response))
    ensures forall c, r | c in s.connections && r in s.connections[c].pending && (c, r) != (id, request) ::
              c in n.connections && r in n.connections[c].pending && n.connections[c].pending[r] == s.connections[c].pending[r]
  {
  }

  /** A connection that comes up serves its agent at once, with nothing pending and no other connection touched. */
  lemma NewConnectionServes(s: State, id: ConnectionId, agent: string, generation: string, call: Call, n: State)
    requires Next(s, Connects(id, agent, generation), n)
    requires Lease(s, agent) == "" && s.update == "" && call.permit.None? && !call.message.RestartRequest?
    ensures Registered(n, id, call).1.None? && n.connections[id].pending == map[]
    ensures forall c | c in s.connections :: c in n.connections && n.connections[c] == s.connections[c]
  {
  }

  /** Identifiers are made of the ASCII letters and digits and four marks, and are up to 128 characters long. */
  lemma IdentifiersAre(s: string)
    ensures ValidIdentifier(s) <==> 1 <= |s| <= 128 && forall i | 0 <= i < |s| :: IdentifierCharacter(s[i])
  {
    forall i | 0 <= i < |s| ensures IdentifierCharacter(s[i]) <==>
      'a' <= s[i] <= 'z' || 'A' <= s[i] <= 'Z' || '0' <= s[i] <= '9' || s[i] == '-' || s[i] == '_' || s[i] == '.' || s[i] == ':' {
      CharactersAre(s[i]);
    }
    hide IdentifierCharacter;
    if forall i | 0 <= i < |s| :: IdentifierCharacter(s[i]) {
      AsciiLength(s);
    }
  }

  /** An agent whose registration is gone may connect again, and its old connection may be closed then. */
  lemma ReconnectionIsPossible(s: State, id: ConnectionId, other: ConnectionId, generation: string)
    returns (n: State, m: State, closed: State)
    requires id in s.connections && other !in s.connections
    requires var agent := s.connections[id].agent; agent in s.agents && s.agents[agent] == id
    ensures var agent := s.connections[id].agent;
            && Next(s, Unregisters(id), n) && Next(n, Connects(other, agent, generation), m)
            && m.agents == s.agents[agent := other] && m.connections == s.connections[other := Connection(agent, generation, false, map[])]
    ensures Next(m, Closes(id), closed) && id in closed.connections && closed.connections[id].closed && closed.agents == m.agents
  {
    var agent := s.connections[id].agent;
    n := s.(agents := s.agents - {agent});
    m := WithConnection(n, other, Connection(agent, generation, false, map[])).(agents := n.agents[agent := other]);
    closed := WithConnection(m, id, m.connections[id].(closed := true));
  }

  /** A connection that closes takes no further request, and what was pending on it stays until its callers return. */
  lemma ClosedTakesNothing(s: State, id: ConnectionId, call: Call, n: State)
    requires Next(s, Closes(id), n)
    ensures Registered(n, id, call).1.Some? && n.connections[id].pending == s.connections[id].pending
    ensures forall c | c in s.connections && c != id :: c in n.connections && n.connections[c] == s.connections[c]
  {
    hide PassesFence;
  }

  /** A caller that returns takes its request back, and with the last one the host is idle. */
  lemma ReturnSettles(s: State, id: ConnectionId, request: RequestId, n: State)
    requires Next(s, Returns(id, request), n)
    ensures n.connections[id].pending == s.connections[id].pending - {request}
    ensures Busy(n, id) <==> exists r :: r in s.connections[id].pending && r != request
  {
    if r :| r in s.connections[id].pending && r != request {
      assert r in n.connections[id].pending;
    } else {
      assert n.connections[id].pending == map[];
    }
  }
}
