/** The activity log page (`frontend/pages/dashboard/activity.tsx`): six fixed
    activities, the category buttons, and the list shown for the selected category
    and the search query. */
module ActivityLog {
  import opened Text
  import Seqs

  /** An activity record; `kind` is its `type`. Its icon component is left out. */
  datatype Activity = Activity(id: nat, kind: String, title: String, description: String,
                               timestamp: String, category: String)

  const ACTIVITIES: seq<Activity> := [
    Activity(1, "news", "News Analysis", "Analyzed news article about Apple Inc.", "2 hours ago", "Portfolio"),
    Activity(2, "portfolio", "Portfolio Update", "Updated portfolio weights for AAPL and MSFT", "4 hours ago", "Portfolio"),
    Activity(3, "system", "System Update", "System maintenance completed", "6 hours ago", "System"),
    Activity(4, "user", "Profile Update", "Updated notification preferences", "1 day ago", "User"),
    Activity(5, "notification", "New Alert", "Received market volatility alert", "1 day ago", "Notification"),
    Activity(6, "system", "Data Refresh", "Refreshed market data for all tracked stocks", "2 days ago", "System")
  ]

  /** A filter button: the id it selects and the name it shows. */
  datatype Category = Category(id: String, name: String)

  const CATEGORIES: seq<Category> := [
    Category("all", "All Activities"),
    Category("portfolio", "Portfolio"),
    Category("news", "News"),
    Category("system", "System"),
    Category("user", "User"),
    Category("notification", "Notifications")
  ]

  /** `matchesSearch`: the lower-cased query occurs in the lower-cased title or
      description. */
  predicate MatchesSearch(query: String, a: Activity) {
    Contains(Lower(a.title), Lower(query)) || Contains(Lower(a.description), Lower(query))
  }

  /** The filter callback as written: 'all' or the activity's `category`, and the search. */
  predicate Shown(selected: String, query: String, a: Activity) {
    (selected == "all" || a.category == selected) && MatchesSearch(query, a)
  }

  /** `filteredActivities`. */
  function FilteredActivities(selected: String, query: String): seq<Activity> {
    Seqs.Filter(ACTIVITIES, a => Shown(selected, query, a))
  }

  /** The list keeps activities in their original order, and keeps one exactly when
      its category matches and the search matches. */
  lemma FilteredMeaning(selected: String, query: String)
    ensures Seqs.IsSubsequence(FilteredActivities(selected, query), ACTIVITIES)
    ensures forall a :: a in FilteredActivities(selected, query) <==> a in ACTIVITIES && Shown(selected, query, a)
  {
    Seqs.FilterIsSubsequence(ACTIVITIES, a => Shown(selected, query, a));
    Seqs.FilterMembership(ACTIVITIES, a => Shown(selected, query, a));
  }

  /** The page as first shown, 'all' with an empty search, lists all six activities. */
  lemma AllWithEmptyQuery()
    ensures FilteredActivities("all", "") == ACTIVITIES
  {
    forall i | 0 <= i < |ACTIVITIES|
      ensures Shown("all", "", ACTIVITIES[i])
    {
      ContainsEmpty(Lower(ACTIVITIES[i].title));
    }
    Seqs.FilterKeepsAll(ACTIVITIES, a => Shown("all", "", a));
  }

  /** The search ignores case: a lower-cased query gives the same list. */
  lemma SearchIgnoresCase(selected: String, query: String)
    ensures FilteredActivities(selected, Lower(query)) == FilteredActivities(selected, query)
  {
    LowerIdempotent(query);
    Seqs.FilterAgree(ACTIVITIES, a => Shown(selected, Lower(query), a), a => Shown(selected, query, a));
  }

  /** Typing more of the query only removes activities from the list. */
  lemma TypingNarrows(selected: String, query: String, more: String)
    ensures Seqs.IsSubsequence(FilteredActivities(selected, query + more), FilteredActivities(selected, query))
  {
    LowerAppend(query, more);
    forall a | MatchesSearch(query + more, a)
      ensures MatchesSearch(query, a)
    {
      if Contains(Lower(a.title), Lower(query + more)) {
        ContainsPrefix(Lower(a.title), Lower(query), Lower(more));
      } else {
        ContainsPrefix(Lower(a.description), Lower(query), Lower(more));
      }
    }
    Seqs.FilterNarrows(ACTIVITIES, a => Shown(selected, query + more, a), a => Shown(selected, query, a));
  }

  /** Begins with an upper-case letter. */
  predicate Capitalised(s: String) {
    |s| > 0 && 'A' <= s[0] <= 'Z'
  }

  /** Every activity's category is capitalised, while every button id begins lower-case. */
  lemma CaseOfCategories()
    ensures forall i | 0 <= i < |ACTIVITIES| :: Capitalised(ACTIVITIES[i].category)
    ensures forall j | 0 <= j < |CATEGORIES| :: |CATEGORIES[j].id| > 0 && 'a' <= CATEGORIES[j].id[0] <= 'z'
  {
  }

  /** As written, every category button other than 'all' shows an empty list, whatever
      the query: the ids are lower-case and the categories capitalised. */
  lemma CategoryButtonsShowNothing(j: nat, query: String)
    requires j < |CATEGORIES| && CATEGORIES[j].id != "all"
    ensures FilteredActivities(CATEGORIES[j].id, query) == []
  {
    CaseOfCategories();
    Seqs.FilterKeepsNone(ACTIVITIES, a => Shown(CATEGORIES[j].id, query, a));
  }

  // ---------------------------------------------------------------- corrected filter

  /** The filter callback compared against the activity's `type`, whose values are
      exactly the button ids. */
  predicate ShownByType(selected: String, query: String, a: Activity) {
    (selected == "all" || a.kind == selected) && MatchesSearch(query, a)
  }

  function FilteredByType(selected: String, query: String): seq<Activity> {
    Seqs.Filter(ACTIVITIES, a => ShownByType(selected, query, a))
  }

  /** The empty search matches every activity. */
  lemma EmptySearchMatches(a: Activity)
    ensures MatchesSearch("", a)
  {
    ContainsEmpty(Lower(a.title));
  }

  /** Filtering any list with the empty search keeps exactly the items of the type. */
  lemma EmptySearchByType(acts: seq<Activity>, selected: String)
    ensures Seqs.IsSubsequence(Seqs.Filter(acts, a => ShownByType(selected, "", a)), acts)
    ensures forall a :: a in Seqs.Filter(acts, a => ShownByType(selected, "", a)) <==>
                        a in acts && (selected == "all" || a.kind == selected)
  {
    forall a
      ensures ShownByType(selected, "", a) <==> selected == "all" || a.kind == selected
    {
      EmptySearchMatches(a);
    }
    Seqs.FilterIsSubsequence(acts, a => ShownByType(selected, "", a));
    Seqs.FilterMembership(acts, a => ShownByType(selected, "", a));
  }

  /** With the corrected filter and an empty search, a button lists, in order, exactly
      the activities of its type ('all': every activity). */
  lemma FilteredByTypeMeaning(selected: String)
    ensures Seqs.IsSubsequence(FilteredByType(selected, ""), ACTIVITIES)
    ensures forall a :: a in FilteredByType(selected, "") <==> a in ACTIVITIES && (selected == "all" || a.kind == selected)
  {
    EmptySearchByType(ACTIVITIES, selected);
  }

  /** With the corrected filter no button's list starts out empty. */
  lemma EveryButtonShowsSomething(j: nat)
    requires j < |CATEGORIES|
    ensures FilteredByType(CATEGORIES[j].id, "") != []
  {
    // an activity of each button's type: all, portfolio, news, system, user, notification
    var k := [0, 1, 0, 2, 3, 4][j];
    assert CATEGORIES[j].id == "all" || ACTIVITIES[k].kind == CATEGORIES[j].id;
    FilteredByTypeMeaning(CATEGORIES[j].id);
    assert ACTIVITIES[k] in FilteredByType(CATEGORIES[j].id, "");
  }
}
