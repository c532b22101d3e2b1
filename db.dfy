/** The in-memory database: the `agents` and `preOrders` tables, kept in
    insertion order, with auto-increment ids starting at 1. */
module Db {
  import opened Wrappers
  import opened Text
  import opened Records
  import opened PreOrderModel

  /** Agent ids are increasing and below the next id to hand out; e-mails
      are stored lower-case and are pairwise distinct. */
  ghost predicate AgentsValid(agents: seq<Agent>, nextAgentId: int) {
    && 1 <= nextAgentId
    && (forall i :: 0 <= i < |agents| ==> 1 <= agents[i].id < nextAgentId && IsLower(agents[i].email))
    && (forall i, j :: 0 <= i < j < |agents| ==>
          agents[i].id < agents[j].id && agents[i].email != agents[j].email)
  }

  /** Lead ids are increasing and below the next id to hand out; lead
      e-mails are unique and every lead belongs to an existing agent. */
  ghost predicate LeadsValid(leads: seq<Lead>, agents: seq<Agent>, nextLeadId: int) {
    && 1 <= nextLeadId
    && (forall i :: 0 <= i < |leads| ==>
          1 <= leads[i].id < nextLeadId && FindAgentById(agents, leads[i].agentId).Some?)
    && (forall i, j :: 0 <= i < j < |leads| ==>
          leads[i].id < leads[j].id && leads[i].info.email != leads[j].info.email)
  }

  /** What every reachable state of the tables satisfies. */
  ghost predicate TablesValid(agents: seq<Agent>, leads: seq<Lead>, nextAgentId: int, nextLeadId: int) {
    AgentsValid(agents, nextAgentId) && LeadsValid(leads, agents, nextLeadId)
  }

  class Store {
    var agents: seq<Agent>
    var leads: seq<Lead>
    var nextAgentId: int
    var nextLeadId: int

    ghost predicate Valid()
      reads this
    {
      TablesValid(agents, leads, nextAgentId, nextLeadId)
    }

    constructor ()
      ensures Valid()
      ensures agents == [] && leads == []
    {
      agents := [];
      leads := [];
      nextAgentId := 1;
      nextLeadId := 1;
    }

    /** `PreOrder.create`: stores the row with the next id, status
        `potential` and both timestamps at `now`, unless a rule of the table
        rejects it; a rejected row leaves both tables untouched. */
    method CreatePreOrder(info: LeadInfo, agentId: int, now: int, env: Collaborators)
      returns (r: Result<Lead, CreateError>)
      requires Valid()
      modifies this
      ensures Valid()
      ensures agents == old(agents) && nextAgentId == old(nextAgentId)
      ensures CheckCreate(info, agentId, old(agents), old(leads), env).Some? ==>
        && r == Err(CheckCreate(info, agentId, old(agents), old(leads), env).value)
        && leads == old(leads) && nextLeadId == old(nextLeadId)
      ensures CheckCreate(info, agentId, old(agents), old(leads), env).None? ==>
        && r == Ok(Lead(old(nextLeadId), info, agentId, StatusOnCreate(None), now, now))
        && leads == old(leads) + [r.value]
        && nextLeadId == old(nextLeadId) + 1
    {
      var check := CheckCreate(info, agentId, agents, leads, env);
      if check.Some? {
        return Err(check.value);
      }
      assert FindLeadByEmail(leads, info.email).None? && FindAgentById(agents, agentId).Some?;
      var lead := Lead(nextLeadId, info, agentId, StatusOnCreate(None), now, now);
      AddLeadKeepsValid(agents, leads, nextLeadId, lead);
      leads := leads + [lead];
      nextLeadId := nextLeadId + 1;
      assert TablesValid(agents, leads, nextAgentId, nextLeadId);
      r := Ok(lead);
    }
  }

  /** Adding an agent with a fresh id and a new lower-case e-mail keeps the
      tables valid. */
  lemma AddAgentKeepsValid(agents: seq<Agent>, leads: seq<Lead>, nextAgentId: int, nextLeadId: int, a: Agent)
    requires TablesValid(agents, leads, nextAgentId, nextLeadId)
    requires a.id == nextAgentId && IsLower(a.email)
    requires FindAgentByEmail(agents, a.email).None?
    ensures TablesValid(agents + [a], leads, nextAgentId + 1, nextLeadId)
  {
    forall i | 0 <= i < |leads|
      ensures FindAgentById(agents + [a], leads[i].agentId).Some?
    {
      FirstAppend(agents, [a], (x: Agent) => x.id == leads[i].agentId);
    }
  }

  /** Adding a lead with a fresh id, an unused e-mail and an existing owner
      keeps the tables valid. */
  lemma AddLeadKeepsValid(agents: seq<Agent>, leads: seq<Lead>, nextLeadId: int, l: Lead)
    requires LeadsValid(leads, agents, nextLeadId)
    requires l.id == nextLeadId
    requires FindLeadByEmail(leads, l.info.email).None?
    requires FindAgentById(agents, l.agentId).Some?
    ensures LeadsValid(leads + [l], agents, nextLeadId + 1)
  {
    var s := leads + [l];
    assert forall i :: 0 <= i < |leads| ==> leads[i].info.email != l.info.email;
    forall i, j | 0 <= i < j < |s|
      ensures s[i].id < s[j].id && s[i].info.email != s[j].info.email
    {
      assert s[i] == leads[i];
      if j < |leads| {
        assert s[j] == leads[j];
      }
    }
    forall i | 0 <= i < |s|
      ensures 1 <= s[i].id < nextLeadId + 1 && FindAgentById(agents, s[i].agentId).Some?
    {
      if i < |leads| {
        assert s[i] == leads[i];
      }
    }
  }
}
