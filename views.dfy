/**
 * The querysets and context values of the lead and category views, as pure functions of the
 * requesting user and the table contents.  Each function follows the view's own branches,
 * including the places where a role flag selects an accessor that may be missing.
 */
module Views {
  import opened Wrappers
  import opened Models
  import opened QuerySets

  /** `user.userprofile`. */
  function ProfileOf(user: User): (r: Result<OrganisationId, Error>)
    ensures r.Success? <==> user.userprofile.Some?
    ensures r.Success? ==> r.value == user.userprofile.value
    ensures r.Failure? ==> r.error == MissingUserProfile
  {
    match user.userprofile
    case Some(p) => Success(p)
    case None => Failure(MissingUserProfile)
  }

  /** `user.agent`. */
  function AgentOf(user: User): (r: Result<Agent, Error>)
    ensures r.Success? <==> user.agent.Some?
    ensures r.Success? ==> r.value == user.agent.value
    ensures r.Failure? ==> r.error == MissingAgent
  {
    match user.agent
    case Some(a) => Success(a)
    case None => Failure(MissingAgent)
  }

  /**
   * The organisation most views scope by: the organisor's own profile, and for everybody else
   * the organisation of their agent record.
   */
  function RequestOrganisation(user: User): (r: Result<OrganisationId, Error>)
    ensures r.Success? <==> if user.isOrganisor then user.userprofile.Some? else user.agent.Some?
    ensures r.Success? ==> r.value == if user.isOrganisor then user.userprofile.value else user.agent.value.organisation
    ensures r.Failure? ==> r.error == if user.isOrganisor then MissingUserProfile else MissingAgent
  {
    if user.isOrganisor then ProfileOf(user)
    else match AgentOf(user)
      case Success(a) => Success(a.organisation)
      case Failure(e) => Failure(e)
  }

  /** `queryset.get(pk=pk)` inside a detail or edit view: a missing row is a 404. */
  function LeadObject(queryset: seq<Lead>, pk: LeadId): (r: Result<Lead, Error>)
    ensures r.Success? ==> r.value in queryset && r.value.id == pk
    ensures r == Failure(Http404) <==> forall l :: l in queryset ==> l.id != pk
    ensures r.Failure? ==> r.error == Http404 || r.error == MultipleObjectsReturned
    ensures UniqueLeadIds(queryset) ==> r.Success? || r == Failure(Http404)
    ensures UniqueLeadIds(queryset) ==> forall l :: l in queryset && l.id == pk ==> r == Success(l)
  {
    assert UniqueLeadIds(queryset) ==> Get(queryset, [LeadIdIs(pk)], LeadMatches) != Failure(MultipleObjectsReturned) by {
      if UniqueLeadIds(queryset) { LeadGetByIdIsUnique(queryset, pk); }
    }
    assert forall l :: MatchesAll(l, [LeadIdIs(pk)], LeadMatches) <==> l.id == pk by {
      forall l ensures MatchesAll(l, [LeadIdIs(pk)], LeadMatches) <==> l.id == pk {
        assert [LeadIdIs(pk)][0] == LeadIdIs(pk);
      }
    }
    var r := match Get(queryset, [LeadIdIs(pk)], LeadMatches)
      case Failure(DoesNotExist) => Failure(Http404)
      case other => other;
    assert UniqueLeadIds(queryset) ==> forall l :: l in queryset && l.id == pk ==> r == Success(l) by {
      if UniqueLeadIds(queryset) {
        forall l | l in queryset && l.id == pk ensures r == Success(l) {
          SameIdSameLead(queryset, r.value, l);
        }
      }
    }
    r
  }

  // ---------------------------------------------------------------- LeadListView

  /**
   * `LeadListView.get_queryset`: an organisor sees the assigned leads of their organisation;
   * anyone else sees the assigned leads of their agent's organisation whose agent is themselves.
   */
  function LeadListQueryset(user: User, leads: seq<Lead>): (r: Result<seq<Lead>, Error>)
    ensures user.isOrganisor ==> (r.Failure? <==> user.userprofile.None?)
    ensures !user.isOrganisor ==> (r.Failure? <==> user.agent.None?)
    ensures r.Failure? ==> r.error == if user.isOrganisor then MissingUserProfile else MissingAgent
    ensures r.Success? && user.isOrganisor ==>
              forall l :: l in r.value <==>
                l in leads && l.organisation == user.userprofile.value && l.agent.Some?
    ensures r.Success? && !user.isOrganisor ==>
              forall l :: l in r.value <==>
                l in leads && l.organisation == user.agent.value.organisation && l.agent.Some?
                && l.agent.value.user == user.id
  {
    if user.isOrganisor then
      (match ProfileOf(user)
       case Failure(e) => Failure(e)
       case Success(p) =>
         MatchesTwo(OrganisationIs(p), AgentIsNull(false), LeadMatches);
         Success(Filter(leads, [OrganisationIs(p), AgentIsNull(false)], LeadMatches)))
    else
      match AgentOf(user)
      case Failure(e) => Failure(e)
      case Success(a) =>
        MatchesTwo(OrganisationIs(a.organisation), AgentIsNull(false), LeadMatches);
        MatchesOne(AgentUserIs(user.id), LeadMatches);
        var withAgent := Filter(leads, [OrganisationIs(a.organisation), AgentIsNull(false)], LeadMatches);
        Success(Filter(withAgent, [AgentUserIs(user.id)], LeadMatches))
  }

  /**
   * `LeadListView.get_context_data`: an organisor's page also carries `unassigned_leads`, the
   * leads of their organisation without an agent; nobody else's page has that key.
   */
  function UnassignedLeads(user: User, leads: seq<Lead>): (r: Result<Option<seq<Lead>>, Error>)
    ensures !user.isOrganisor ==> r == Success(None)
    ensures user.isOrganisor ==> (r.Failure? <==> user.userprofile.None?)
    ensures r.Failure? ==> r.error == MissingUserProfile
    ensures user.isOrganisor && r.Success? ==>
              r.value.Some? &&
              forall l :: l in r.value.value <==>
                l in leads && l.organisation == user.userprofile.value && l.agent.None?
  {
    if user.isOrganisor then
      (match ProfileOf(user)
       case Failure(e) => Failure(e)
       case Success(p) =>
         MatchesTwo(OrganisationIs(p), AgentIsNull(true), LeadMatches);
         Success(Some(Filter(leads, [OrganisationIs(p), AgentIsNull(true)], LeadMatches))))
    else Success(None)
  }

  /**
   * For an organisor the lead list and `unassigned_leads` never share a lead, and between them
   * they hold each lead of the organisation exactly as often as the table does.
   */
  lemma OrganisorLeadsPartitioned(user: User, leads: seq<Lead>)
    requires user.isOrganisor && user.userprofile.Some?
    ensures LeadListQueryset(user, leads).Success? && UnassignedLeads(user, leads).Success?
    ensures var listed, unassigned := LeadListQueryset(user, leads).value, UnassignedLeads(user, leads).value.value;
            && (forall l :: !(l in listed && l in unassigned))
            && (forall l :: l in leads && l.organisation == user.userprofile.value ==> l in listed || l in unassigned)
            && multiset(listed) + multiset(unassigned)
                 == multiset(Filter(leads, [OrganisationIs(user.userprofile.value)], LeadMatches))
            && |listed| + |unassigned| == |Filter(leads, [OrganisationIs(user.userprofile.value)], LeadMatches)|
  {
    var p := user.userprofile.value;
    FilterPartition(leads, [OrganisationIs(p)], AgentIsNull(false), AgentIsNull(true), LeadMatches);
    assert [OrganisationIs(p)] + [AgentIsNull(false)] == [OrganisationIs(p), AgentIsNull(false)];
    assert [OrganisationIs(p)] + [AgentIsNull(true)] == [OrganisationIs(p), AgentIsNull(true)];
  }

  /**
   * An agent's lead list is drawn from the list the owning organisor sees, in the same order:
   * it is that list narrowed to the leads whose agent is the requester.
   */
  lemma AgentLeadsWithinOrganisorLeads(agentUser: User, organisor: User, leads: seq<Lead>)
    requires !agentUser.isOrganisor && agentUser.agent.Some?
    requires organisor.isOrganisor && organisor.userprofile == Some(agentUser.agent.value.organisation)
    ensures LeadListQueryset(agentUser, leads).Success? && LeadListQueryset(organisor, leads).Success?
    ensures LeadListQueryset(agentUser, leads).value
              == Filter(LeadListQueryset(organisor, leads).value, [AgentUserIs(agentUser.id)], LeadMatches)
    ensures LeadListQueryset(agentUser, leads).value
              == Filter(leads, [OrganisationIs(agentUser.agent.value.organisation), AgentIsNull(false),
                                AgentUserIs(agentUser.id)], LeadMatches)
  {
    var o := agentUser.agent.value.organisation;
    FilterChain(leads, [OrganisationIs(o), AgentIsNull(false)], [AgentUserIs(agentUser.id)], LeadMatches);
    assert [OrganisationIs(o), AgentIsNull(false)] + [AgentUserIs(agentUser.id)]
        == [OrganisationIs(o), AgentIsNull(false), AgentUserIs(agentUser.id)];
  }

  /** Two different agent users never see a common lead in their lead lists. */
  lemma AgentLeadListsDisjoint(u1: User, u2: User, leads: seq<Lead>)
    requires !u1.isOrganisor && !u2.isOrganisor && u1.id != u2.id
    requires LeadListQueryset(u1, leads).Success? && LeadListQueryset(u2, leads).Success?
    ensures forall l :: !(l in LeadListQueryset(u1, leads).value && l in LeadListQueryset(u2, leads).value)
  {
  }

  // ---------------------------------------------------------------- LeadDetailView

  /**
   * `LeadDetailView.get_queryset`: the branch is on `is_agent`, so an agent user is scoped by
   * their own profile and everybody else by their agent record; both are then narrowed to the
   * leads whose agent is the requester.
   */
  function LeadDetailQueryset(user: User, leads: seq<Lead>): (r: Result<seq<Lead>, Error>)
    ensures user.isAgent ==> (r.Failure? <==> user.userprofile.None?)
    ensures !user.isAgent ==> (r.Failure? <==> user.agent.None?)
    ensures r.Failure? ==> r.error == if user.isAgent then MissingUserProfile else MissingAgent
    ensures r.Success? ==> forall l :: l in r.value ==> l in leads && l.agent.Some? && l.agent.value.user == user.id
    ensures r.Success? && user.isAgent ==>
              forall l :: l in r.value <==>
                l in leads && l.organisation == user.userprofile.value && l.agent.Some? && l.agent.value.user == user.id
    ensures r.Success? && !user.isAgent ==>
              forall l :: l in r.value <==>
                l in leads && l.organisation == user.agent.value.organisation && l.agent.Some?
                && l.agent.value.user == user.id
  {
    var scoped :=
      if user.isAgent then
        (match ProfileOf(user)
         case Failure(e) => Failure(e)
         case Success(p) =>
           MatchesOne(OrganisationIs(p), LeadMatches);
           Success(Filter(leads, [OrganisationIs(p)], LeadMatches)))
      else
        (match AgentOf(user)
         case Failure(e) => Failure(e)
         case Success(a) =>
           MatchesOne(OrganisationIs(a.organisation), LeadMatches);
           Success(Filter(leads, [OrganisationIs(a.organisation)], LeadMatches)));
    MatchesOne(AgentUserIs(user.id), LeadMatches);
    match scoped
    case Failure(e) => Failure(e)
    case Success(s) => Success(Filter(s, [AgentUserIs(user.id)], LeadMatches))
  }

  /**
   * The lead a detail page shows: one whose agent is the requester, whichever role flag is set;
   * any other primary key is a 404.
   */
  function LeadDetailObject(user: User, leads: seq<Lead>, pk: LeadId): (r: Result<Lead, Error>)
    ensures r.Success? ==> r.value in leads && r.value.id == pk && r.value.agent.Some? && r.value.agent.value.user == user.id
    ensures LeadDetailQueryset(user, leads).Failure? ==> r == Failure(LeadDetailQueryset(user, leads).error)
    ensures LeadDetailQueryset(user, leads).Success? ==>
              (r == Failure(Http404) <==> forall l :: l in LeadDetailQueryset(user, leads).value ==> l.id != pk)
    ensures UniqueLeadIds(leads) ==> r != Failure(MultipleObjectsReturned)
    ensures (UniqueLeadIds(leads) && exists l :: l in leads && l.id == pk && (l.agent.None? || l.agent.value.user != user.id))
              ==> r.Failure?
    ensures LeadDetailQueryset(user, leads).Success? && r.Failure? ==> r.error == Http404 || r.error == MultipleObjectsReturned
    ensures UniqueLeadIds(leads) && LeadDetailQueryset(user, leads).Success? ==>
              forall l :: l in LeadDetailQueryset(user, leads).value && l.id == pk ==> r == Success(l)
  {
    match LeadDetailQueryset(user, leads)
    case Failure(e) => Failure(e)
    case Success(visible) =>
      var o := if user.isAgent then user.userprofile.value else user.agent.value.organisation;
      assert UniqueLeadIds(leads) ==> UniqueLeadIds(visible) by {
        if UniqueLeadIds(leads) {
          FilterKeepsUniqueLeadIds(leads, [OrganisationIs(o)]);
          FilterKeepsUniqueLeadIds(Filter(leads, [OrganisationIs(o)], LeadMatches), [AgentUserIs(user.id)]);
        }
      }
      LeadObject(visible, pk)
  }

  // ---------------------------------------------------------------- LeadUpdateView, LeadDeleteView

  /**
   * `LeadUpdateView.get_queryset`, and the identical `LeadDeleteView.get_queryset`: the leads
   * of the requester's own profile, with no role branch.
   */
  function LeadUpdateQueryset(user: User, leads: seq<Lead>): (r: Result<seq<Lead>, Error>)
    ensures r.Failure? <==> user.userprofile.None?
    ensures r.Failure? ==> r.error == MissingUserProfile
    ensures r.Success? ==> forall l :: l in r.value <==> l in leads && l.organisation == user.userprofile.value
  {
    match ProfileOf(user)
    case Failure(e) => Failure(e)
    case Success(p) =>
      MatchesOne(OrganisationIs(p), LeadMatches);
      Success(Filter(leads, [OrganisationIs(p)], LeadMatches))
  }

  /** A lead of another organisation cannot be reached through the update or delete view. */
  lemma OtherOrganisationLeadNotFound(user: User, leads: seq<Lead>, lead: Lead)
    requires user.userprofile.Some? && lead in leads && lead.organisation != user.userprofile.value
    requires UniqueLeadIds(leads)
    ensures LeadObject(LeadUpdateQueryset(user, leads).value, lead.id) == Failure(Http404)
  {
    var scoped := LeadUpdateQueryset(user, leads).value;
    forall l | l in scoped ensures l.id != lead.id {
      var i :| 0 <= i < |leads| && leads[i] == l;
      var j :| 0 <= j < |leads| && leads[j] == lead;
      assert i != j;
    }
  }

  // ---------------------------------------------------------------- CategoryListView, CategoryUpdateView

  /**
   * `CategoryListView.get_queryset`, and the identical `CategoryUpdateView.get_queryset`: the
   * categories of the requester's organisation.
   */
  function CategoryListQueryset(user: User, categories: seq<Category>): (r: Result<seq<Category>, Error>)
    ensures r.Failure? <==> RequestOrganisation(user).Failure?
    ensures r.Failure? ==> r.error == if user.isOrganisor then MissingUserProfile else MissingAgent
    ensures r.Success? ==>
              forall c :: c in r.value <==> c in categories && c.organisation == RequestOrganisation(user).value
  {
    match RequestOrganisation(user)
    case Failure(e) => Failure(e)
    case Success(o) =>
      MatchesOne(CategoryOrganisationIs(o), CategoryMatches);
      Success(Filter(categories, [CategoryOrganisationIs(o)], CategoryMatches))
  }

  /**
   * `CategoryListView.get_context_data`: `unassigned_lead_count` counts the organisation's leads
   * whose category is null; the agent field plays no part.
   */
  function UnassignedLeadCount(user: User, leads: seq<Lead>): (r: Result<nat, Error>)
    ensures r.Failure? <==> RequestOrganisation(user).Failure?
    ensures r.Failure? ==> r.error == if user.isOrganisor then MissingUserProfile else MissingAgent
    ensures r.Success? ==>
              var o := RequestOrganisation(user).value;
              && r.value == |Filter(leads, [OrganisationIs(o), CategoryIsNull(true)], LeadMatches)|
              && r.value + |Filter(leads, [OrganisationIs(o), CategoryIsNull(false)], LeadMatches)|
                   == |Filter(leads, [OrganisationIs(o)], LeadMatches)|
              && (r.value == 0 <==> forall l :: l in leads && l.organisation == o ==> l.category.Some?)
  {
    match RequestOrganisation(user)
    case Failure(e) => Failure(e)
    case Success(o) =>
      FilterPartition(leads, [OrganisationIs(o)], CategoryIsNull(true), CategoryIsNull(false), LeadMatches);
      assert [OrganisationIs(o)] + [CategoryIsNull(true)] == [OrganisationIs(o), CategoryIsNull(true)];
      assert [OrganisationIs(o)] + [CategoryIsNull(false)] == [OrganisationIs(o), CategoryIsNull(false)];
      MatchesTwo(OrganisationIs(o), CategoryIsNull(true), LeadMatches);
      var uncategorised := Filter(leads, [OrganisationIs(o), CategoryIsNull(true)], LeadMatches);
      assert |uncategorised| > 0 ==> uncategorised[0] in uncategorised;
      Success(|uncategorised|)
  }

  /** The category an update page edits: one of the requester's organisation, else a 404. */
  function CategoryUpdateObject(user: User, categories: seq<Category>, pk: CategoryId): (r: Result<Category, Error>)
    ensures r.Success? ==>
              r.value in categories && r.value.id == pk
              && RequestOrganisation(user).Success? && r.value.organisation == RequestOrganisation(user).value
    ensures RequestOrganisation(user).Failure? ==> r == Failure(RequestOrganisation(user).error)
    ensures RequestOrganisation(user).Success? ==>
              (r == Failure(Http404) <==>
                 forall c :: c in categories && c.organisation == RequestOrganisation(user).value ==> c.id != pk)
    ensures RequestOrganisation(user).Success? && r.Failure? ==> r.error == Http404 || r.error == MultipleObjectsReturned
    ensures UniqueCategoryIds(categories) ==> r != Failure(MultipleObjectsReturned)
    ensures UniqueCategoryIds(categories) && RequestOrganisation(user).Success? ==>
              forall c :: c in categories && c.organisation == RequestOrganisation(user).value && c.id == pk ==> r == Success(c)
  {
    match CategoryListQueryset(user, categories)
    case Failure(e) => Failure(e)
    case Success(scoped) =>
      assert forall c :: MatchesAll(c, [CategoryIdIs(pk)], CategoryMatches) <==> c.id == pk by {
        forall c ensures MatchesAll(c, [CategoryIdIs(pk)], CategoryMatches) <==> c.id == pk {
          assert [CategoryIdIs(pk)][0] == CategoryIdIs(pk);
        }
      }
      var r := match Get(scoped, [CategoryIdIs(pk)], CategoryMatches)
        case Failure(DoesNotExist) => Failure(Http404)
        case other => other;
      assert UniqueCategoryIds(categories) ==>
               forall c :: c in scoped && c.id == pk ==> r == Success(c) by {
        if UniqueCategoryIds(categories) {
          FilterKeepsUniqueCategoryIds(categories, [CategoryOrganisationIs(RequestOrganisation(user).value)]);
          CategoryGetByIdIsUnique(scoped, pk);
          forall c | c in scoped && c.id == pk ensures r == Success(c) {
            SameIdSameCategory(scoped, r.value, c);
          }
        }
      }
      r
  }

  // ---------------------------------------------------------------- LeadCategoryUpdateView

  /**
   * `LeadCategoryUpdateView.get_queryset`: an organisor may recategorise any lead of their
   * organisation; anyone else only the leads of their agent's organisation assigned to them.
   */
  function LeadCategoryQueryset(user: User, leads: seq<Lead>): (r: Result<seq<Lead>, Error>)
    ensures user.isOrganisor ==> (r.Failure? <==> user.userprofile.None?)
    ensures !user.isOrganisor ==> (r.Failure? <==> user.agent.None?)
    ensures r.Failure? ==> r.error == if user.isOrganisor then MissingUserProfile else MissingAgent
    ensures r.Success? && user.isOrganisor ==>
              forall l :: l in r.value <==> l in leads && l.organisation == user.userprofile.value
    ensures r.Success? && !user.isOrganisor ==>
              forall l :: l in r.value <==>
                l in leads && l.organisation == user.agent.value.organisation && l.agent.Some?
                && l.agent.value.user == user.id
  {
    if user.isOrganisor then
      (match ProfileOf(user)
       case Failure(e) => Failure(e)
       case Success(p) =>
         MatchesOne(OrganisationIs(p), LeadMatches);
         Success(Filter(leads, [OrganisationIs(p)], LeadMatches)))
    else
      match AgentOf(user)
      case Failure(e) => Failure(e)
      case Success(a) =>
        MatchesOne(OrganisationIs(a.organisation), LeadMatches);
        MatchesOne(AgentUserIs(user.id), LeadMatches);
        var organisationLeads := Filter(leads, [OrganisationIs(a.organisation)], LeadMatches);
        Success(Filter(organisationLeads, [AgentUserIs(user.id)], LeadMatches))
  }

  /**
   * The lead a category-update page edits: one the requester may recategorise, else a 404.
   */
  function LeadCategoryObject(user: User, leads: seq<Lead>, pk: LeadId): (r: Result<Lead, Error>)
    ensures r.Success? ==> r.value in leads && r.value.id == pk
    ensures r.Success? ==> if user.isOrganisor then user.userprofile.Some? else user.agent.Some?
    ensures r.Success? && user.isOrganisor ==> r.value.organisation == user.userprofile.value
    ensures r.Success? && !user.isOrganisor ==>
              r.value.organisation == user.agent.value.organisation && r.value.agent.Some? && r.value.agent.value.user == user.id
    ensures LeadCategoryQueryset(user, leads).Failure? ==> r == Failure(LeadCategoryQueryset(user, leads).error)
    ensures LeadCategoryQueryset(user, leads).Success? ==>
              (r == Failure(Http404) <==> forall l :: l in LeadCategoryQueryset(user, leads).value ==> l.id != pk)
    ensures UniqueLeadIds(leads) ==> r != Failure(MultipleObjectsReturned)
    ensures LeadCategoryQueryset(user, leads).Success? && r.Failure? ==> r.error == Http404 || r.error == MultipleObjectsReturned
    ensures UniqueLeadIds(leads) && LeadCategoryQueryset(user, leads).Success? ==>
              forall l :: l in LeadCategoryQueryset(user, leads).value && l.id == pk ==> r == Success(l)
  {
    var scope := LeadCategoryQueryset(user, leads);
    if scope.Failure? then Failure(scope.error)
    else
      assert UniqueLeadIds(leads) ==> UniqueLeadIds(scope.value) by {
        if UniqueLeadIds(leads) && user.isOrganisor {
          FilterKeepsUniqueLeadIds(leads, [OrganisationIs(user.userprofile.value)]);
        } else if UniqueLeadIds(leads) {
          var o := user.agent.value.organisation;
          FilterKeepsUniqueLeadIds(leads, [OrganisationIs(o)]);
          FilterKeepsUniqueLeadIds(Filter(leads, [OrganisationIs(o)], LeadMatches), [AgentUserIs(user.id)]);
        }
      }
      LeadObject(scope.value, pk)
  }
}
