# Role-scoped lead and category registry of a lead-management CRM

This project models the behaviour of `mainapp/views.py` in a small Django CRM. Organisations keep
sales leads, assign them to agents and move them through categories such as "Converted". Every
list, detail and edit view narrows the Lead or Category table to what the requesting user may
see. The narrowing depends on the user's two role flags (`is_organisor`, `is_agent`) and on the
organisation reached through `user.userprofile` or `user.agent`. Two form handlers write one
lead: agent assignment, and the category form, which stamps `converted_date`.

The model follows the code as written, branch for branch:

- The organisor's lead list holds only leads that have an agent. The unassigned ones appear only
  in the `unassigned_leads` context value.
- The detail view branches on `is_agent`, not `is_organisor`. An agent user is scoped by their
  own profile, and everybody else by their agent record. Both are then narrowed to leads whose
  agent is the requester, so an organisor without an agent record gets an error, and with one
  sees only the leads assigned to themselves.
- `unassigned_lead_count` on the category list counts the organisation's leads whose *category*
  is null. The agent plays no part.
- `Category.objects.get(name="Converted")` is not scoped to an organisation. It raises when no
  category has that name and when two do, for example when two organisations each have one.
- Agent assignment fetches the lead by primary key alone. Neither the lead's organisation nor
  the agent's is checked.
- The conversion date is stamped on every move into Converted from any other category or from
  none. Leaving Converted and coming back stamps it again with the later time, so the date records
  the latest entry, not the first. `Conversion.ReentryRestamps` states this.
- `mainapp/urls.py:27` points the route named `lead_category_update` at `CategoryUpdateView`, so
  `LeadCategoryUpdateView` is not reachable through that routing table. Its behaviour is modelled
  all the same.

Layout:

- `wrappers.dfy`: `Option` and `Result`.
- `models.dfy`: the records. An organisation is the key of a UserProfile row, because leads,
  agents and categories all point at the organisor's profile. `Lead.agent` holds the agent's row,
  which the `agent__user` join reads. `Lead.category` holds the category key, because the view
  compares categories by primary key. A missing `user.userprofile` or `user.agent` link is an
  error result, as the reverse one-to-one accessor raises.
- `querysets.dfy`: the ORM calls the views make. `Filter` is `filter(**lookups)` and `Get` is
  `get(**lookups)`, both generic over the record type. The lookups are the keyword arguments the
  views use.
- `views.dfy`: one function per `get_queryset` / `get_context_data`. It also holds the
  `get_object` lookups of the detail and edit views, which give a 404 outside the queryset.
- `conversion.dfy`: the Converted lookup and the category transition of the form handler.
  `Replay` applies a series of category submissions, for properties that span several requests.
- `registry.dfy`: class `LeadRegistry` holds the Lead and Category tables. Its methods are the
  two `form_valid` handlers and the delete view. `SaveLead` is `save()` (the row with the saved
  key takes the new values) and `DeleteRow` is `delete()`.

`datetime.datetime.now()` is the explicit `now` parameter. The form's cleaned data (the chosen
agent or category) is a parameter too.

## Model

| member | source | states |
|---|---|---|
| `QuerySets.Filter` | mainapp/views.py:31-40 | a queryset filter keeps exactly the rows that satisfy every keyword lookup, and never more rows than the table has |
| `QuerySets.FilterMultiset` | mainapp/views.py:31-40 | a row kept by a filter occurs as often as in the table; a row that fails a lookup does not occur |
| `QuerySets.FilterChain` | mainapp/views.py:36-40 | `.filter(a).filter(b)` selects the same rows in the same order as one `.filter(a, b)` |
| `QuerySets.FilterPartition` | mainapp/views.py:31-53 | two complementary lookups split a queryset into two parts whose row multisets add up to the whole |
| `QuerySets.Get` | mainapp/views.py:127 | `objects.get` returns the one matching row, which is then the only match; DoesNotExist exactly when no row matches; MultipleObjectsReturned exactly when two rows match |
| `QuerySets.LeadGetByIdIsUnique` | mainapp/views.py:127 | with unique primary keys, a lookup by id never yields MultipleObjectsReturned |
| `QuerySets.CategoryGetByIdIsUnique` | mainapp/views.py:196-206 | with unique category keys, the update view's lookup by id never yields MultipleObjectsReturned |
| `Views.LeadListQueryset` | mainapp/views.py:28-41 | an organisor lists exactly their organisation's leads that have an agent; anyone else lists exactly the leads of their agent's organisation whose agent's user is the requester; a missing profile or agent record is an error |
| `Views.UnassignedLeads` | mainapp/views.py:43-54 | an organisor's page has `unassigned_leads`, which is exactly the organisation's leads without an agent; nobody else's page has the key |
| `Views.OrganisorLeadsPartitioned` | mainapp/views.py:30-53 | an organisor's list and `unassigned_leads` share no lead, between them cover every lead of the organisation, and their sizes add up to the organisation's lead count |
| `Views.AgentLeadsWithinOrganisorLeads` | mainapp/views.py:35-40 | an agent's list is the owning organisor's list narrowed to the agent's own leads, order kept, and equals one three-lookup filter |
| `Views.AgentLeadListsDisjoint` | mainapp/views.py:35-40 | two different agent users never share a lead in their lists |
| `Views.LeadDetailQueryset` | mainapp/views.py:61-68 | every lead in the detail queryset has the requester as agent's user, whichever flag is set; an agent user is scoped by their own profile and anyone else by their agent record |
| `Views.LeadDetailObject` | mainapp/views.py:57-68 | with unique primary keys, the detail page shows exactly the lead of the queryset with the requested key; whatever it shows has the requester as agent's user; a key outside the queryset is a 404 and, once the queryset resolves, 404 or MultipleObjectsReturned are the only failures; a lead assigned to someone else, or to nobody, is never shown |
| `Views.LeadUpdateQueryset` | mainapp/views.py:93-95 | the update and delete querysets are exactly the leads of the requester's own profile, with no role branch; no profile is an error |
| `Views.OtherOrganisationLeadNotFound` | mainapp/views.py:93-107 | a lead of another organisation is a 404 through the update or delete view |
| `Views.CategoryListQueryset` | mainapp/views.py:155-163 | the category list holds exactly the categories of the requester's organisation (the organisor's profile, or the agent's organisation) |
| `Views.UnassignedLeadCount` | mainapp/views.py:137-153 | `unassigned_lead_count` counts the organisation's leads with a null category; added to the categorised count it gives the organisation's lead count; it is zero exactly when every lead of the organisation has a category |
| `Views.CategoryUpdateObject` | mainapp/views.py:196-206 | with unique primary keys, the category update page edits exactly the category of the requester's organisation with the requested key; whatever it edits belongs to that organisation; any other key is a 404, and once the organisation resolves, 404 or MultipleObjectsReturned are the only failures |
| `Views.LeadCategoryQueryset` | mainapp/views.py:213-222 | an organisor may recategorise exactly their organisation's leads; anyone else exactly the leads of their agent's organisation assigned to them |
| `Views.LeadCategoryObject` | mainapp/views.py:213-228 | with unique primary keys, the category form edits exactly the lead of that queryset with the requested key; whatever it edits lies in the queryset; a key outside it is a 404, and once the queryset resolves, 404 or MultipleObjectsReturned are the only failures |
| `Conversion.ConvertedCategory` | mainapp/views.py:230 | the lookup across all organisations yields the only category named Converted; DoesNotExist when there is none; MultipleObjectsReturned exactly when two exist |
| `Conversion.CategoryTransition` | mainapp/views.py:227-236 | the saved lead differs from the stored one only in category and date; entering Converted from another category sets the date to `now`; the date changes only in that case and is never cleared |
| `Conversion.ReplayNeverClearsDate` | mainapp/views.py:231-236 | no series of category submissions clears a conversion date once set |
| `Conversion.ReplayWhileConvertedKeepsDate` | mainapp/views.py:231-236 | re-saving Converted on a Converted lead, any number of times, keeps the date |
| `Conversion.ReplayWithoutConvertedKeepsDate` | mainapp/views.py:231-236 | submissions that never choose Converted keep the date |
| `Conversion.ReplayKeepsOtherFields` | mainapp/views.py:227-236 | category submissions never change a lead's key, organisation or agent, and the last submission's category is the lead's category |
| `Conversion.ReentryRestamps` | mainapp/views.py:231-235 | Converted, then another category, then Converted again leaves the later time as the date |
| `Registry.SaveLead` | mainapp/views.py:129 | saving a lead replaces the one row with its key and no other row |
| `Registry.DeleteRow` | mainapp/views.py:101-107 | deleting removes the rows with the key and keeps all others; an absent key changes nothing |
| `Registry.DeleteRowKeepsUniqueIds` | mainapp/views.py:101-107 | deletion keeps primary keys unique |
| `Registry.DeleteRowRemovesOne` | mainapp/views.py:101-107 | deleting a present key removes exactly one row |
| `Registry.LeadRegistry.AssignAgent` | mainapp/views.py:125-130 | the lead with the key, from any organisation, gets the given agent and is saved over its row; no other lead and no other field changes; an absent key is DoesNotExist and writes nothing |
| `Registry.LeadRegistry.UpdateLeadCategory` | mainapp/views.py:227-237 | outside the queryset it is an error or a 404; a failed Converted lookup fails; otherwise it saves the category transition of the stored lead and writes only that lead |
| `Registry.LeadRegistry.DeleteLead` | mainapp/views.py:101-107 | deletes a lead of the requester's own profile and nothing else; any other key is a 404 and changes nothing |
| `Registry.AssignedLeadInAgentListIff` | mainapp/views.py:125-130 | after assignment, the lead is in the agent's list exactly when it belongs to the agent's organisation |
| `Registry.AssignedLeadLeavesUnassigned` | mainapp/views.py:125-130 | after assignment, the lead is in its organisor's list and out of `unassigned_leads` |
| `Registry.AssignAgentKeepsFilterSize` | mainapp/views.py:150-151 | assigning an agent does not change how many of an organisation's leads have a null category |
| `Registry.AssignAgentKeepsUnassignedLeadCount` | mainapp/views.py:150-151 | assigning an agent leaves the category list's `unassigned_lead_count` unchanged |

## Left out

- LeadCreateView and its `send_mail` call (mainapp/views.py:71-86): an outbound email sent by a library.
- The field updates that LeadUpdateView saves: they come from `LeadModelForm`, and the forms module is not part of this model. Only its queryset and object lookup are modelled.
- Form validation in `AssignAgentForm`, `LeadCategoryUpdateForm` and `CategoryModelForm`: the forms module is not part of this model. The chosen agent and the chosen category are parameters.
- CategoryDetailView (mainapp/views.py:166-186): it returns the lead set instead of the context, and queries a misspelled `organization` field on the wrong model. It has no coherent behaviour to state.
- The CategoryUpdateView form save: it comes from `CategoryModelForm`, which is not part of this model.
- SignUpView, LandingPageView, templates, `reverse(...)` success URLs and rendering: presentation and routing only.
- `OrganisorLoginRequeredMixinis` and `LoginRequiredMixin`: agents/mixins is not part of this model. Each view is modelled for any user record, whatever its flags.
- `datetime.datetime.now()`: it is the `now` parameter. Clocks and time zones are not modelled.
- Queryset ordering: no view orders its queryset, so the model keeps table order.
- Concurrent requests: each request is one sequential read-modify-write. Last-write-wins races between requests are not modelled.
- The tables are sequences with unique keys, not a relational store. Foreign-key cascades and other tables (agents, users, profiles) are not stored. A lead carries its agent's row, and a user carries its profile key and agent row.
- config/settings.py, config/urls.py and mainapp/urls.py: framework configuration and routing tables.
