/**
 * The stored Lead and Category tables and the three views that write a lead: agent
 * assignment, the category form and deletion.  `save()` and `delete()` act on the one row
 * with the lead's primary key.
 */
module Registry {
  import opened Wrappers
  import opened Models
  import opened QuerySets
  import opened Views
  import opened Conversion

  /** `lead.save()`: the row with the saved lead's key takes the new values; no other row changes. */
  function SaveLead(leads: seq<Lead>, saved: Lead): (r: seq<Lead>)
    ensures |r| == |leads|
    ensures forall i :: 0 <= i < |leads| ==> r[i] == if leads[i].id == saved.id then saved else leads[i]
    decreases |leads|
  {
    if leads == [] then []
    else [if leads[0].id == saved.id then saved else leads[0]] + SaveLead(leads[1..], saved)
  }

  /** `lead.delete()`: the row with key `pk` goes; every other row stays, in order. */
  function DeleteRow(leads: seq<Lead>, pk: LeadId): (r: seq<Lead>)
    ensures forall l :: l in r <==> l in leads && l.id != pk
    ensures (forall l :: l in leads ==> l.id != pk) ==> r == leads
    decreases |leads|
  {
    if leads == [] then []
    else
      assert leads == [leads[0]] + leads[1..];
      (if leads[0].id == pk then [] else [leads[0]]) + DeleteRow(leads[1..], pk)
  }

  /** Deleting a row keeps primary keys unique. */
  lemma {:induction false} DeleteRowKeepsUniqueIds(leads: seq<Lead>, pk: LeadId)
    requires UniqueLeadIds(leads)
    ensures UniqueLeadIds(DeleteRow(leads, pk))
    decreases |leads|
  {
    if leads != [] && leads[0].id != pk {
      var rest := DeleteRow(leads[1..], pk);
      DeleteRowKeepsUniqueIds(leads[1..], pk);
      var r := [leads[0]] + rest;
      forall k | 0 <= k < |rest| ensures rest[k].id != leads[0].id {
        assert rest[k] in leads[1..];
      }
      forall i, j | 0 <= i < j < |r| ensures r[i].id != r[j].id {
        assert r[j] == rest[j - 1];
        if i > 0 { assert r[i] == rest[i - 1]; }
      }
    } else if leads != [] {
      DeleteRowKeepsUniqueIds(leads[1..], pk);
    }
  }

  /** Deleting a present key from a table with unique keys removes exactly one row. */
  lemma {:induction false} DeleteRowRemovesOne(leads: seq<Lead>, pk: LeadId)
    requires UniqueLeadIds(leads) && exists l :: l in leads && l.id == pk
    ensures |DeleteRow(leads, pk)| == |leads| - 1
    decreases |leads|
  {
    if leads[0].id == pk {
      forall l | l in leads[1..] ensures l.id != pk {
        var k :| 0 <= k < |leads[1..]| && leads[1..][k] == l;
        assert leads[k + 1] == l;
      }
    } else {
      var l :| l in leads && l.id == pk;
      assert l in leads[1..];
      DeleteRowRemovesOne(leads[1..], pk);
    }
  }

  class LeadRegistry {
    var leads: seq<Lead>
    var categories: seq<Category>

    /** Lead primary keys are unique. */
    ghost predicate Valid()
      reads this
    {
      UniqueLeadIds(leads)
    }

    constructor (leads: seq<Lead>, categories: seq<Category>)
      requires UniqueLeadIds(leads)
      ensures Valid() && this.leads == leads && this.categories == categories
    {
      this.leads := leads;
      this.categories := categories;
    }

    /**
     * `AssignAgentView.form_valid`: the lead is fetched by primary key alone, with no check of
     * its organisation or of the agent's, its agent is set and it is saved.
     */
    method AssignAgent(pk: LeadId, agent: Agent) returns (r: Result<Lead, Error>)
      requires Valid()
      modifies this`leads
      ensures Valid()
      ensures r.Success? <==> exists l :: l in old(leads) && l.id == pk
      ensures r.Failure? ==> r.error == DoesNotExist
      ensures r.Success? ==> r.value.id == pk && r.value.agent == Some(agent) && r.value in leads
      ensures r.Success? ==> leads == SaveLead(old(leads), r.value)
      ensures r.Failure? ==> leads == old(leads)
      ensures |leads| == |old(leads)|
      ensures forall i :: 0 <= i < |leads| ==>
                leads[i] == if old(leads)[i].id == pk then old(leads)[i].(agent := Some(agent)) else old(leads)[i]
    {
      LeadGetByIdIsUnique(leads, pk);
      MatchesOne(LeadIdIs(pk), LeadMatches);
      var found := Get(leads, [LeadIdIs(pk)], LeadMatches);
      if found.Failure? {
        return Failure(found.error);
      }
      var lead := found.value.(agent := Some(agent));
      ghost var k :| 0 <= k < |leads| && leads[k] == found.value;
      forall i | 0 <= i < |leads| && leads[i].id == pk ensures leads[i] == found.value {
        assert i == k;
      }
      leads := SaveLead(leads, lead);
      assert leads[k] == lead;
      r := Success(lead);
    }

    /**
     * `LeadCategoryUpdateView.form_valid`: the lead must be in the view's queryset, the
     * Converted category is looked up by name across all organisations, and the saved lead
     * carries the chosen category and, on entry into Converted, the date `now`.
     */
    method UpdateLeadCategory(user: User, pk: LeadId, newCategory: Option<CategoryId>, now: Timestamp)
      returns (r: Result<Lead, Error>)
      requires Valid()
      modifies this`leads
      ensures Valid()
      ensures var before, converted := LeadCategoryObject(user, old(leads), pk), ConvertedCategory(categories);
              if before.Failure? then r == Failure(before.error)
              else if converted.Failure? then r == Failure(converted.error)
              else r == Success(CategoryTransition(before.value, newCategory, converted.value.id, now))
      ensures r.Success? ==> r.value.id == pk && leads == SaveLead(old(leads), r.value)
      ensures r.Failure? ==> leads == old(leads)
      ensures |leads| == |old(leads)|
      ensures forall i :: 0 <= i < |leads| && old(leads)[i].id != pk ==> leads[i] == old(leads)[i]
    {
      var before := LeadCategoryObject(user, leads, pk);
      if before.Failure? {
        return Failure(before.error);
      }
      var converted := ConvertedCategory(categories);
      if converted.Failure? {
        return Failure(converted.error);
      }
      var instance := CategoryTransition(before.value, newCategory, converted.value.id, now);
      leads := SaveLead(leads, instance);
      r := Success(instance);
      forall i, j | 0 <= i < j < |leads| ensures leads[i].id != leads[j].id {
        assert leads[i].id == old(leads)[i].id && leads[j].id == old(leads)[j].id;
      }
    }

    /**
     * The delete view: only a lead of the requester's own profile can be deleted; any other key
     * is a 404.
     */
    method DeleteLead(user: User, pk: LeadId) returns (r: Result<Lead, Error>)
      requires Valid()
      modifies this`leads
      ensures Valid()
      ensures LeadUpdateQueryset(user, old(leads)).Failure? ==> r == Failure(MissingUserProfile)
      ensures LeadUpdateQueryset(user, old(leads)).Success? ==> r == LeadObject(LeadUpdateQueryset(user, old(leads)).value, pk)
      ensures r.Success? ==> r.value in old(leads) && r.value.organisation == user.userprofile.value
      ensures r.Success? ==> leads == DeleteRow(old(leads), pk) && |leads| == |old(leads)| - 1
      ensures r.Failure? ==> r.error != MultipleObjectsReturned && leads == old(leads)
    {
      var scope := LeadUpdateQueryset(user, leads);
      if scope.Failure? {
        return Failure(scope.error);
      }
      FilterKeepsUniqueLeadIds(leads, [OrganisationIs(user.userprofile.value)]);
      r := LeadObject(scope.value, pk);
      if r.Success? {
        DeleteRowKeepsUniqueIds(leads, pk);
        DeleteRowRemovesOne(leads, pk);
        leads := DeleteRow(leads, pk);
      }
    }
  }

  /**
   * Agent assignment checks no organisation: the newly assigned lead shows up in the agent's
   * lead list exactly when it belongs to the agent's organisation.
   */
  lemma AssignedLeadInAgentListIff(agentUser: User, agent: Agent, leads: seq<Lead>, lead: Lead)
    requires !agentUser.isOrganisor && agentUser.agent == Some(agent) && agent.user == agentUser.id
    requires UniqueLeadIds(leads) && lead in leads
    ensures var withAgent := lead.(agent := Some(agent));
            (lead.organisation == agent.organisation <==> withAgent in LeadListQueryset(agentUser, SaveLead(leads, withAgent)).value)
  {
    var withAgent := lead.(agent := Some(agent));
    var k :| 0 <= k < |leads| && leads[k] == lead;
    assert SaveLead(leads, withAgent)[k] == withAgent;
  }

  /**
   * After assignment the lead is listed for its organisation's organisor and is no longer in
   * that organisor's `unassigned_leads`.
   */
  lemma AssignedLeadLeavesUnassigned(organisor: User, agent: Agent, leads: seq<Lead>, lead: Lead)
    requires organisor.isOrganisor && organisor.userprofile == Some(lead.organisation)
    requires UniqueLeadIds(leads) && lead in leads
    ensures var after := SaveLead(leads, lead.(agent := Some(agent)));
            && lead.(agent := Some(agent)) in LeadListQueryset(organisor, after).value
            && forall l :: l in UnassignedLeads(organisor, after).value.value ==> l.id != lead.id
  {
    var withAgent := lead.(agent := Some(agent));
    var after := SaveLead(leads, withAgent);
    var k :| 0 <= k < |leads| && leads[k] == lead;
    assert after[k] == withAgent;
    assert forall i :: 0 <= i < |after| && after[i].id == lead.id ==> after[i] == withAgent;
  }

  /** Saving a row that matches the lookups exactly when the old row did keeps the count. */
  lemma {:induction false} SaveLeadKeepsFilterSize(leads: seq<Lead>, saved: Lead, qs: seq<LeadLookup>)
    requires forall i :: 0 <= i < |leads| && leads[i].id == saved.id ==>
               (MatchesAll(leads[i], qs, LeadMatches) <==> MatchesAll(saved, qs, LeadMatches))
    ensures |Filter(SaveLead(leads, saved), qs, LeadMatches)| == |Filter(leads, qs, LeadMatches)|
    decreases |leads|
  {
    if leads != [] {
      var after := SaveLead(leads, saved);
      assert after[0] == if leads[0].id == saved.id then saved else leads[0];
      assert after[1..] == SaveLead(leads[1..], saved);
      forall i | 0 <= i < |leads[1..]| && leads[1..][i].id == saved.id
        ensures MatchesAll(leads[1..][i], qs, LeadMatches) <==> MatchesAll(saved, qs, LeadMatches)
      {
        assert leads[1..][i] == leads[i + 1];
      }
      SaveLeadKeepsFilterSize(leads[1..], saved, qs);
    }
  }

  /** With unique keys, the rows sharing a stored lead's key are that lead. */
  lemma OnlyRowWithKey(leads: seq<Lead>, lead: Lead)
    requires UniqueLeadIds(leads) && lead in leads
    ensures forall i :: 0 <= i < |leads| && leads[i].id == lead.id ==> leads[i] == lead
  {
    var k :| 0 <= k < |leads| && leads[k] == lead;
    forall i | 0 <= i < |leads| && leads[i].id == lead.id ensures leads[i] == lead {
      assert i == k;
    }
  }

  /** Giving a stored lead an agent keeps the number of rows any agent-blind lookups select. */
  lemma AssignAgentKeepsFilterSize(leads: seq<Lead>, lead: Lead, agent: Agent, o: OrganisationId)
    requires UniqueLeadIds(leads) && lead in leads
    ensures |Filter(SaveLead(leads, lead.(agent := Some(agent))), [OrganisationIs(o), CategoryIsNull(true)], LeadMatches)|
              == |Filter(leads, [OrganisationIs(o), CategoryIsNull(true)], LeadMatches)|
  {
    var qs := [OrganisationIs(o), CategoryIsNull(true)];
    var withAgent := lead.(agent := Some(agent));
    MatchesTwo(OrganisationIs(o), CategoryIsNull(true), LeadMatches);
    assert MatchesAll(lead, qs, LeadMatches) <==> MatchesAll(withAgent, qs, LeadMatches);
    OnlyRowWithKey(leads, lead);
    SaveLeadKeepsFilterSize(leads, withAgent, qs);
  }

  /**
   * Assigning an agent leaves the category list's `unassigned_lead_count` as it was: that
   * count is about categories, not agents.
   */
  lemma AssignAgentKeepsUnassignedLeadCount(user: User, leads: seq<Lead>, lead: Lead, agent: Agent)
    requires UniqueLeadIds(leads) && lead in leads
    requires UnassignedLeadCount(user, leads).Success?
    ensures UnassignedLeadCount(user, SaveLead(leads, lead.(agent := Some(agent))))
              == UnassignedLeadCount(user, leads)
  {
    var o := RequestOrganisation(user).value;
    AssignAgentKeepsFilterSize(leads, lead, agent, o);
  }
}
