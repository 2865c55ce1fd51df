/**
 * The records the lead views read and write.  Every foreign key is compared by its primary
 * key, as the ORM does.  An "organisation" is a UserProfile row: leads, agents and categories
 * point at the profile of the organisor who owns them.
 */
module Models {
  import opened Wrappers

  type OrganisationId = nat
  type UserId = nat
  type AgentId = nat
  type CategoryId = nat
  type LeadId = nat

  /** The wall-clock value the view reads from `datetime.datetime.now()`. */
  type Timestamp = int

  /** An agent wraps one user and belongs to one organisation. */
  datatype Agent = Agent(id: AgentId, user: UserId, organisation: OrganisationId)

  /**
   * A user with its two independent role flags.  `userprofile` and `agent` are the reverse
   * one-to-one links: either may be absent, and reading an absent one raises.
   */
  datatype User = User(
    id: UserId,
    isOrganisor: bool,
    isAgent: bool,
    userprofile: Option<OrganisationId>,
    agent: Option<Agent>)

  datatype Category = Category(id: CategoryId, name: string, organisation: OrganisationId)

  /**
   * A lead.  `agent` is the nullable foreign key resolved to the agent's row, so that the
   * `agent__user` join can be read off it; `category` is the nullable foreign key itself.
   */
  datatype Lead = Lead(
    id: LeadId,
    organisation: OrganisationId,
    agent: Option<Agent>,
    category: Option<CategoryId>,
    convertedDate: Option<Timestamp>)

  /** What a request can fail with. */
  datatype Error =
    | MissingUserProfile        // `user.userprofile` read on a user without a profile
    | MissingAgent              // `user.agent` read on a user who is not an agent
    | DoesNotExist              // `objects.get(...)` matched no row
    | MultipleObjectsReturned   // `objects.get(...)` matched more than one row
    | Http404                   // a detail or edit view's object is outside its queryset

  /** Primary keys are unique in a table. */
  ghost predicate UniqueLeadIds(leads: seq<Lead>) {
    forall i, j :: 0 <= i < j < |leads| ==> leads[i].id != leads[j].id
  }

  ghost predicate UniqueCategoryIds(categories: seq<Category>) {
    forall i, j :: 0 <= i < j < |categories| ==> categories[i].id != categories[j].id
  }
}
