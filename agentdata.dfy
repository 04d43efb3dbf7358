/**
 * agentdata/agentdata.go: the controller's in-memory table from an agent to
 * the roles it announced. The lock is left out: the table is used one call at
 * a time. Role lists are values, so the copies SetRoles and GetRoles make in
 * Go are implicit here: nobody can change a list the table holds.
 */
module AgentData {
  import opened Wrappers
  import opened Core

  type AgentRole = string

  /** The roles the table gives for an agent; None is Go's nil for an agent
      that is not in the table. */
  function RolesOf(roles: map<AgentID, seq<AgentRole>>, id: AgentID): (r: Option<seq<AgentRole>>)
    ensures r.Some? <==> id in roles
  {
    if id in roles then Some(roles[id]) else None
  }

  class AgentTable {
    var roles: map<AgentID, seq<AgentRole>>

    /** NewAgentData: an empty table. */
    constructor ()
      ensures roles == map[]
    {
      roles := map[];
    }

    method SetRoles(id: AgentID, r: seq<AgentRole>)
      modifies this
      ensures roles == old(roles)[id := r]
    {
      roles := roles[id := r];
    }

    method GetRoles(id: AgentID) returns (r: Option<seq<AgentRole>>)
      ensures r == RolesOf(roles, id)
    {
      if id !in roles {
        return None;
      }
      r := Some(roles[id]);
    }

    /** Drops the agent; an agent that is not in the table changes nothing. */
    method DropAgent(id: AgentID)
      modifies this
      ensures roles == old(roles) - {id}
    {
      if id in roles {
        roles := roles - {id};
      }
    }

    /** Every agent in the table, once each, in the map's iteration order. */
    method ConnectedAgents() returns (agents: seq<AgentID>)
      ensures forall a :: a in agents <==> a in roles
      ensures forall i, j :: 0 <= i < j < |agents| ==> agents[i] != agents[j]
    {
      agents := [];
      var rest := roles.Keys;
      while rest != {}
        invariant rest <= roles.Keys
        invariant forall a :: a in agents <==> a in roles.Keys - rest
        invariant forall i, j :: 0 <= i < j < |agents| ==> agents[i] != agents[j]
        decreases |rest|
      {
        var a :| a in rest;
        agents := agents + [a];
        rest := rest - {a};
      }
    }

    method HasRole(id: AgentID, role: AgentRole) returns (b: bool)
      ensures b <==> id in roles && role in roles[id]
    {
      if id !in roles {
        return false;
      }
      var attached := roles[id];
      for i := 0 to |attached|
        invariant role !in attached[..i]
      {
        if attached[i] == role {
          return true;
        }
      }
      assert attached[..|attached|] == attached;
      return false;
    }

    /** Scans the table's keys; an agent with an empty role list is connected. */
    method IsConnected(id: AgentID) returns (b: bool)
      ensures b <==> id in roles
    {
      var rest := roles.Keys;
      while rest != {}
        invariant rest <= roles.Keys
        invariant id !in roles.Keys - rest
        decreases |rest|
      {
        var a :| a in rest;
        if a == id {
          return true;
        }
        rest := rest - {a};
      }
      return false;
    }
  }

  /** What the table gives back is what was last set for that agent. */
  lemma GetAfterSet(roles: map<AgentID, seq<AgentRole>>, id: AgentID, r: seq<AgentRole>, other: AgentID)
    ensures RolesOf(roles[id := r], id) == Some(r)
    ensures other != id ==> RolesOf(roles[id := r], other) == RolesOf(roles, other)
  {
  }

  /** Dropping an agent forgets it and nobody else; dropping an absent agent
      changes nothing. */
  lemma GetAfterDrop(roles: map<AgentID, seq<AgentRole>>, id: AgentID, other: AgentID)
    ensures RolesOf(roles - {id}, id) == None
    ensures other != id ==> RolesOf(roles - {id}, other) == RolesOf(roles, other)
    ensures id !in roles ==> roles - {id} == roles
  {
  }
}
