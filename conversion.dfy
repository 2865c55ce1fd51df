/**
 * The "Converted" side effect of `LeadCategoryUpdateView.form_valid`: the conversion date is
 * stamped when a lead moves into the Converted category from any other category or from none.
 */
module Conversion {
  import opened Wrappers
  import opened Models
  import opened QuerySets

  const ConvertedName: string := "Converted"

  /**
   * `Category.objects.get(name="Converted")`: looked up across every organisation, so it fails
   * as soon as two organisations each have a Converted category.
   */
  function ConvertedCategory(categories: seq<Category>): (r: Result<Category, Error>)
    ensures r.Success? ==>
              r.value in categories && r.value.name == ConvertedName
              && forall c :: c in categories && c.name == ConvertedName ==> c == r.value
    ensures r == Failure(DoesNotExist) <==> forall c :: c in categories ==> c.name != ConvertedName
    ensures r == Failure(MultipleObjectsReturned) <==>
              exists i, j :: 0 <= i < j < |categories| && categories[i].name == ConvertedName
                             && categories[j].name == ConvertedName
    ensures r.Failure? ==> r.error == DoesNotExist || r.error == MultipleObjectsReturned
  {
    MatchesOne(NameIs(ConvertedName), CategoryMatches);
    Get(categories, [NameIs(ConvertedName)], CategoryMatches)
  }

  /** Whether saving `newCategory` over a lead now in `previous` is a move into Converted. */
  predicate EntersConverted(previous: Option<CategoryId>, newCategory: Option<CategoryId>, converted: CategoryId) {
    newCategory == Some(converted) && previous != Some(converted)
  }

  /**
   * The lead that `form_valid` saves: the form's category, and `converted_date` set to `now`
   * exactly when the lead enters Converted; every other field is the stored lead's.
   */
  function CategoryTransition(before: Lead, newCategory: Option<CategoryId>, converted: CategoryId, now: Timestamp): (after: Lead)
    ensures after == before.(category := newCategory, convertedDate := after.convertedDate)
    ensures EntersConverted(before.category, newCategory, converted) ==> after.convertedDate == Some(now)
    ensures after.convertedDate != before.convertedDate ==> after.convertedDate == Some(now)
    ensures before.convertedDate.Some? ==> after.convertedDate.Some?
    ensures newCategory != Some(converted) ==> after.convertedDate == before.convertedDate
    ensures before.category == Some(converted) ==> after.convertedDate == before.convertedDate
  {
    var stamped := if EntersConverted(before.category, newCategory, converted) then Some(now) else before.convertedDate;
    before.(category := newCategory, convertedDate := stamped)
  }

  /** One submission of the category form: the category chosen and the time of the request. */
  datatype Submission = Submission(category: Option<CategoryId>, at: Timestamp)

  /** The lead after the given submissions have been saved one after the other. */
  function Replay(lead: Lead, converted: CategoryId, submissions: seq<Submission>): (after: Lead)
    decreases |submissions|
  {
    if submissions == [] then lead
    else Replay(CategoryTransition(lead, submissions[0].category, converted, submissions[0].at), converted, submissions[1..])
  }

  /** No sequence of category changes clears a conversion date once it is set. */
  lemma {:induction false} ReplayNeverClearsDate(lead: Lead, converted: CategoryId, submissions: seq<Submission>)
    requires lead.convertedDate.Some?
    ensures Replay(lead, converted, submissions).convertedDate.Some?
    decreases |submissions|
  {
    if submissions != [] {
      ReplayNeverClearsDate(CategoryTransition(lead, submissions[0].category, converted, submissions[0].at), converted, submissions[1..]);
    }
  }

  /** Re-saving Converted on a lead that is already Converted, any number of times, keeps its date. */
  lemma {:induction false} ReplayWhileConvertedKeepsDate(lead: Lead, converted: CategoryId, submissions: seq<Submission>)
    requires lead.category == Some(converted)
    requires forall k :: 0 <= k < |submissions| ==> submissions[k].category == Some(converted)
    ensures Replay(lead, converted, submissions).convertedDate == lead.convertedDate
    decreases |submissions|
  {
    if submissions != [] {
      ReplayWhileConvertedKeepsDate(CategoryTransition(lead, submissions[0].category, converted, submissions[0].at), converted, submissions[1..]);
    }
  }

  /** Submissions that never choose Converted leave the date alone, whatever it is. */
  lemma {:induction false} ReplayWithoutConvertedKeepsDate(lead: Lead, converted: CategoryId, submissions: seq<Submission>)
    requires forall k :: 0 <= k < |submissions| ==> submissions[k].category != Some(converted)
    ensures Replay(lead, converted, submissions).convertedDate == lead.convertedDate
    decreases |submissions|
  {
    if submissions != [] {
      ReplayWithoutConvertedKeepsDate(CategoryTransition(lead, submissions[0].category, converted, submissions[0].at), converted, submissions[1..]);
    }
  }

  /** Category changes never touch the lead's key, organisation or agent, and the last one wins. */
  lemma {:induction false} ReplayKeepsOtherFields(lead: Lead, converted: CategoryId, submissions: seq<Submission>)
    ensures var after := Replay(lead, converted, submissions);
            after.id == lead.id && after.organisation == lead.organisation && after.agent == lead.agent
            && after.category == if submissions == [] then lead.category else submissions[|submissions| - 1].category
    decreases |submissions|
  {
    if submissions != [] {
      var rest := submissions[1..];
      ReplayKeepsOtherFields(CategoryTransition(lead, submissions[0].category, converted, submissions[0].at), converted, rest);
      if rest != [] {
        assert rest[|rest| - 1] == submissions[|submissions| - 1];
      }
    }
  }

  /**
   * Leaving Converted and coming back stamps the date again with the later time: the date is
   * that of the latest entry into Converted, not of the first.
   */
  lemma ReentryRestamps(lead: Lead, converted: CategoryId, other: CategoryId, left: Timestamp, back: Timestamp)
    requires lead.category == Some(converted) && lead.convertedDate.Some? && other != converted
    ensures Replay(lead, converted, [Submission(Some(other), left), Submission(Some(converted), back)]).convertedDate == Some(back)
  {
    var subs := [Submission(Some(other), left), Submission(Some(converted), back)];
    var once := CategoryTransition(lead, Some(other), converted, left);
    assert subs[1..] == [Submission(Some(converted), back)];
    assert subs[1..][1..] == [];
    var twice := CategoryTransition(once, Some(converted), converted, back);
    assert Replay(lead, converted, subs) == Replay(once, converted, subs[1..]);
    assert Replay(once, converted, subs[1..]) == Replay(twice, converted, []);
  }
}
