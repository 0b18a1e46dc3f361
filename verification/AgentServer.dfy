/** The part of the Agent server that admits, registers and disconnects control connections. */
module AgentServer {
  import opened Common

  /** Connections are named by a number that is never reused. */
  type ConnectionId = nat

  datatype Registry = Registry(
    agents: map<string, ConnectionId>,
    admitting: map<string, nat>,
    enrolling: set<string>,
    credentialEpoch: nat)

  function Admitting(r: Registry, id: string): nat {
    if id in r.admitting then r.admitting[id] else 0
  }

  /** Start of a handshake: None while the identity is being enrolled. */
  function Begun(r: Registry, id: string): Option<Registry> {
    if id in r.enrolling then None
    else Some(r.(admitting := r.admitting[id := Admitting(r, id) + 1]))
  }

  /** End of a handshake or of the connection it became. */
  function Ended(r: Registry, id: string): Registry {
    r.(admitting := if Admitting(r, id) <= 1 then r.admitting - {id} else r.admitting[id := Admitting(r, id) - 1])
  }

  predicate Reservable(r: Registry, id: string) {
    id !in r.agents && Admitting(r, id) == 0 && id !in r.enrolling
  }

  predicate Addable(r: Registry, id: string, epoch: nat) {
    epoch == r.credentialEpoch && id !in r.agents
  }

  function Removed(r: Registry, id: string, connection: ConnectionId): Registry {
    if id in r.agents && r.agents[id] == connection then r.(agents := r.agents - {id}) else r
  }

  /** An invalidation without a target covers every identity. */
  predicate Covers(target: Option<string>, id: string) {
    target.None? || target.value == id
  }

  function Covered(r: Registry, target: Option<string>): set<ConnectionId> {
    set id | id in r.agents && Covers(target, id) :: r.agents[id]
  }

  class Server {
    var agents: map<string, ConnectionId>
    var admitting: map<string, nat>
    var enrolling: set<string>
    var credentialEpoch: nat

    function View(): Registry
      reads this
    {
      Registry(agents, admitting, enrolling, credentialEpoch)
    }

    constructor ()
      ensures View() == Registry(map[], map[], {}, 0)
    {
      agents, admitting, enrolling, credentialEpoch := map[], map[], {}, 0;
    }

    /** ReserveEnrollment: granted only while nothing of that identity is connected, connecting or being enrolled. */
    method ReserveEnrollment(id: string) returns (granted: bool)
      modifies this
      ensures granted <==> Reservable(old(View()), id)
      ensures View() == if granted then old(View()).(enrolling := old(View()).enrolling + {id}) else old(View())
    {
      if id in agents || (id in admitting && admitting[id] != 0) || id in enrolling {
        return false;
      }
      enrolling := enrolling + {id};
      return true;
    }

    method ReleaseEnrollment(id: string)
      modifies this
      ensures View() == old(View()).(enrolling := old(View()).enrolling - {id})
    {
      enrolling := enrolling - {id};
    }

    /** The first locked section of ServeHTTP; the epoch it returns is captured before the credential lookup. */
    method BeginHandshake(id: string) returns (epoch: Option<nat>)
      modifies this
      ensures epoch == if id in old(View()).enrolling then None else Some(old(View()).credentialEpoch)
      ensures View() == if epoch.Some? then Begun(old(View()), id).value else old(View())
    {
      if id in enrolling {
        return None;
      }
      admitting := admitting[id := (if id in admitting then admitting[id] else 0) + 1];
      return Some(credentialEpoch);
    }

    /** The outermost deferred section of ServeHTTP. */
    method EndHandshake(id: string)
      modifies this
      ensures View() == Ended(old(View()), id)
    {
      var count := if id in admitting then admitting[id] else 0;
      if count <= 1 {
        admitting := admitting - {id};
      } else {
        admitting := admitting[id := count - 1];
      }
    }

    method Add(id: string, connection: ConnectionId, epoch: nat) returns (added: bool)
      modifies this
      ensures added <==> Addable(old(View()), id, epoch)
      ensures View() == if added then old(View()).(agents := old(View()).agents[id := connection]) else old(View())
    {
      if epoch != credentialEpoch {
        return false;
      }
      if id in agents {
        return false;
      }
      agents := agents[id := connection];
      return true;
    }

    method Remove(id: string, connection: ConnectionId)
      modifies this
      ensures View() == Removed(old(View()), id, connection)
    {
      if id in agents && agents[id] == connection {
        agents := agents - {id};
      }
    }

    /** The locked section of DisconnectAgent: the connections it returns are closed afterwards, without the lock. */
    method CollectInvalidated(target: Option<string>) returns (connections: set<ConnectionId>)
      modifies this
      ensures View() == old(View()).(credentialEpoch := old(View()).credentialEpoch + 1)
      ensures connections == Covered(old(View()), target)
    {
      credentialEpoch := credentialEpoch + 1;
      connections := {};
      var remaining := agents.Keys;
      while remaining != {}
        invariant remaining <= agents.Keys
        invariant connections == set id | id in agents.Keys - remaining && Covers(target, id) :: agents[id]
      {
        var id :| id in remaining;
        if target.None? || target.value == id {
          connections := connections + {agents[id]};
        }
        remaining := remaining - {id};
      }
    }
  }
}
