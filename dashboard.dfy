/** The dashboard page of src/app/page.js: the search filter over the loaded
    groups, the order in which the page decides what to render, and the
    `loadData` transition that fills `groups`, `loading` and `error`. */
module Dashboard {
  import opened Common
  import opened Strings
  import opened GroupCard

  /** The prompt the prompt search looks at: that of the first output image,
      or the empty string for a group without output images. `None` stands
      for a first output image whose prompt is `null` or missing. */
  function SearchPrompt(g: Group): (p: Option<string>)
    ensures g.outputImages == [] ==> p == Some("")
    ensures p.None? <==> g.outputImages != [] && g.outputImages[0].prompt.None?
  {
    if |g.outputImages| > 0 then g.outputImages[0].prompt else Some("")
  }

  /** The predicate passed to `groups.filter`. In prompt mode a missing
      prompt makes `toLowerCase` throw. */
  function Matches(g: Group, searchType: string, query: string): (r: Result<bool>)
    ensures r.Thrown? <==> searchType == "prompt" && SearchPrompt(g).None?
  {
    if searchType == "prompt" then
      match SearchPrompt(g)
      case None => Thrown
      case Some(p) => Ok(Contains(Lower(p), Lower(query)))
    else if searchType == "group_id" then Ok(Contains(IntToString(g.groupId), query))
    else if searchType == "user_email" then Ok(Contains(g.userEmail, query))
    else Ok(true)
  }

  /** `filteredGroups`: the groups the predicate keeps, in their order and
      each as often as it occurs, or an exception when the predicate throws
      on some group. */
  function FilterGroups(groups: seq<Group>, searchType: string, query: string): (r: Result<seq<Group>>)
    ensures r.Thrown? <==> exists i :: 0 <= i < |groups| && Matches(groups[i], searchType, query).Thrown?
    ensures r.Ok? ==> IsSubsequence(r.value, groups)
    ensures r.Ok? ==> forall g :: g in r.value <==> g in groups && Matches(g, searchType, query) == Ok(true)
  {
    if groups == [] then Ok([])
    else
      match Matches(groups[0], searchType, query)
      case Thrown => Thrown
      case Ok(keep) =>
        match FilterGroups(groups[1..], searchType, query)
        case Thrown =>
          assert forall i :: 1 <= i < |groups| ==> groups[i] == groups[1..][i - 1];
          Thrown
        case Ok(rest) =>
          assert forall i :: 0 <= i < |groups[1..]| ==> groups[1..][i] == groups[i + 1];
          assert forall g :: g in groups <==> g == groups[0] || g in groups[1..];
          Ok(if keep then [groups[0]] + rest else rest)
  }

  /** The filter keeps every occurrence of a group the predicate keeps and
      none of the others: it neither merges nor duplicates groups. */
  lemma {:induction false} FilterGroupsCounts(groups: seq<Group>, searchType: string, query: string)
    ensures var r := FilterGroups(groups, searchType, query);
      r.Ok? ==> forall g ::
        multiset(r.value)[g] == if Matches(g, searchType, query) == Ok(true) then multiset(groups)[g] else 0
  {
    var r := FilterGroups(groups, searchType, query);
    if groups != [] && r.Ok? {
      var rest := FilterGroups(groups[1..], searchType, query);
      FilterGroupsCounts(groups[1..], searchType, query);
      assert groups == [groups[0]] + groups[1..];
      assert multiset(groups) == multiset{groups[0]} + multiset(groups[1..]);
      var keep := Matches(groups[0], searchType, query) == Ok(true);
      assert r.value == (if keep then [groups[0]] else []) + rest.value;
    }
  }

  /** A search type other than the three known ones keeps every group. */
  lemma {:induction false} UnknownSearchTypeKeepsAll(groups: seq<Group>, searchType: string, query: string)
    requires searchType != "prompt" && searchType != "group_id" && searchType != "user_email"
    ensures FilterGroups(groups, searchType, query) == Ok(groups)
  {
    if groups != [] {
      UnknownSearchTypeKeepsAll(groups[1..], searchType, query);
      assert [groups[0]] + groups[1..] == groups;
    }
  }

  /** An empty query keeps every group in group-id and email mode. */
  lemma {:induction false} EmptyQueryKeepsAll(groups: seq<Group>, searchType: string)
    requires searchType == "group_id" || searchType == "user_email"
    ensures FilterGroups(groups, searchType, "") == Ok(groups)
  {
    if groups != [] {
      EmptyQueryKeepsAll(groups[1..], searchType);
      assert [groups[0]] + groups[1..] == groups;
    }
  }

  /** Group-id mode keeps a group exactly when the query occurs, with its
      case, in the decimal numeral of the group id; the full numeral always
      matches. */
  lemma GroupIdSearch(g: Group, query: string)
    ensures Matches(g, "group_id", query) == Ok(true) <==> exists i :: OccursAt(IntToString(g.groupId), query, i)
    ensures Matches(g, "group_id", IntToString(g.groupId)) == Ok(true)
  {
    ContainsIffOccurs(IntToString(g.groupId), query);
    ContainsSelf(IntToString(g.groupId));
  }

  /** Email mode keeps a group exactly when the query occurs, with its case,
      in the email. */
  lemma EmailSearch(g: Group, query: string)
    ensures Matches(g, "user_email", query) == Ok(true) <==> exists i :: OccursAt(g.userEmail, query, i)
  {
    ContainsIffOccurs(g.userEmail, query);
  }

  /** Email search does not fold case. */
  lemma EmailSearchIsCaseSensitive()
    ensures Matches(Group(1, "Ann@x.io", "", 0, 0, [], []), "user_email", "ann@x.io") == Ok(false)
  {
    var e := "Ann@x.io";
    assert e != "ann@x.io" by { assert e[0] == 'A'; }
    assert !Contains(e[1..], "ann@x.io");
  }

  /** Prompt mode keeps a group exactly when the lower-cased query occurs in
      the lower-cased prompt of its first output image; changing the case of
      ASCII letters in the query changes nothing. */
  lemma PromptSearch(g: Group, query: string)
    requires SearchPrompt(g).Some?
    ensures Matches(g, "prompt", query) == Ok(true) <==>
      exists i :: OccursAt(Lower(SearchPrompt(g).value), Lower(query), i)
    ensures Matches(g, "prompt", Lower(query)) == Matches(g, "prompt", query)
  {
    var p := SearchPrompt(g).value;
    assert Matches(g, "prompt", query) == Ok(Contains(Lower(p), Lower(query)));
    ContainsIffOccurs(Lower(p), Lower(query));
    LowerIdempotent(query);
  }

  /** A group without output images is searched as the empty prompt, which
      only the empty query matches. */
  lemma PromptSearchWithoutOutputs(g: Group, query: string)
    requires g.outputImages == []
    ensures Matches(g, "prompt", query) == Ok(query == "")
  {
    assert SearchPrompt(g) == Some("");
    if query != "" {
      assert |Lower(query)| > 0;
    }
  }

  /** What the page renders. */
  datatype View =
    | RenderThrows
    | LoadingDashboard
    | ErrorBanner(message: string)
    | NoRecentGroups
    | GroupCards(cards: seq<Group>)
    | NoGroupsFound

  /** The render of the page. `filteredGroups` is computed first, so an
      exception there pre-empts everything; then loading, then a truthy
      error, then an empty `groups`, then the filtered list or, when it is
      empty, "No groups found". */
  function Render(loading: bool, error: Option<string>, groups: seq<Group>, searchType: string, query: string): (v: View)
    ensures v == RenderThrows <==> FilterGroups(groups, searchType, query).Thrown?
    ensures v == LoadingDashboard <==> FilterGroups(groups, searchType, query).Ok? && loading
    ensures v.ErrorBanner? <==> FilterGroups(groups, searchType, query).Ok? && !loading && Truthy(error)
    ensures v.ErrorBanner? ==> error == Some(v.message)
    ensures v == NoRecentGroups <==>
      FilterGroups(groups, searchType, query).Ok? && !loading && !Truthy(error) && groups == []
    ensures v.GroupCards? ==> groups != [] && v.cards != [] && FilterGroups(groups, searchType, query) == Ok(v.cards)
    ensures v == NoGroupsFound <==>
      !loading && !Truthy(error) && groups != [] && FilterGroups(groups, searchType, query) == Ok([])
  {
    match FilterGroups(groups, searchType, query)
    case Thrown => RenderThrows
    case Ok(filtered) =>
      if loading then LoadingDashboard
      else if Truthy(error) then ErrorBanner(error.value)
      else if |groups| == 0 then NoRecentGroups
      else if |filtered| > 0 then GroupCards(filtered)
      else NoGroupsFound
  }

  /** Every card shown is a loaded group that the search keeps, and the
      cards keep the order of `groups`. */
  lemma CardsAreFilteredGroups(loading: bool, error: Option<string>, groups: seq<Group>, searchType: string, query: string)
    requires Render(loading, error, groups, searchType, query).GroupCards?
    ensures var cards := Render(loading, error, groups, searchType, query).cards;
      IsSubsequence(cards, groups) && |cards| <= |groups| &&
      forall g :: g in cards ==> g in groups && Matches(g, searchType, query) == Ok(true)
  {
    var cards := Render(loading, error, groups, searchType, query).cards;
    SubsequenceBounds(cards, groups);
  }

  /** The JavaScript engine's messages for the three property reads the
      load makes on a missing value. */
  const MissingGroupsMessage: string := "Cannot read properties of undefined (reading 'output_images')"
  const NullGroupsMessage: string := "Cannot read properties of null (reading 'output_images')"
  const NullBodyMessage: string := "Cannot read properties of null (reading 'groups')"
  const FetchFailedMessage: string := "Failed to fetch data"

  /** How the groups request ends. */
  datatype LoadReply =
    | FetchRejected(message: string)        // the request itself failed
    | NotOk                                 // `res.ok` is false
    | BodyUnreadable(message: string)       // `res.json()` rejected
    | NullBody                              // the body is JSON `null`
    | Body(groups: GroupsField)

  /** The `groups` field of a body: absent, `null`, or a list of groups. */
  datatype GroupsField = Absent | Null | Present(list: seq<Group>)

  /** The dashboard page's state. */
  class DashboardPage {
    var groups: seq<Group>
    var loading: bool
    var error: Option<string>
    var searchQuery: string
    var searchType: string

    constructor ()
      ensures groups == [] && loading && error == None
      ensures searchQuery == "" && searchType == "user_email"
    {
      groups := [];
      loading := true;
      error := None;
      searchQuery := "";
      searchType := "user_email";
    }

    function CurrentView(): View
      reads this
    {
      Render(loading, error, groups, searchType, searchQuery)
    }

    /** The part of `loadData` before the request is awaited. */
    method StartLoad()
      modifies this
      ensures loading && error == None
      ensures groups == old(groups) && searchQuery == old(searchQuery) && searchType == old(searchType)
      ensures FilterGroups(groups, searchType, searchQuery).Ok? ==> CurrentView() == LoadingDashboard
    {
      loading := true;
      error := None;
    }

    /** The part of `loadData` after the request: the `try` block, its
        `catch` and the `finally` that always clears `loading`. */
    method FinishLoad(reply: LoadReply)
      requires loading && error == None
      modifies this
      ensures !loading
      ensures searchQuery == old(searchQuery) && searchType == old(searchType)
      ensures reply.FetchRejected? ==> groups == old(groups) && error == Some(reply.message)
      ensures reply.NotOk? ==> groups == old(groups) && error == Some(FetchFailedMessage)
      ensures reply.BodyUnreadable? ==> groups == old(groups) && error == Some(reply.message)
      ensures reply.NullBody? ==> groups == old(groups) && error == Some(NullBodyMessage)
      ensures reply == Body(Absent) ==> groups == [] && error == Some(MissingGroupsMessage)
      ensures reply == Body(Null) ==> groups == [] && error == Some(NullGroupsMessage)
      ensures reply.Body? && reply.groups.Present? ==> groups == reply.groups.list && error == None
      ensures CurrentView() != LoadingDashboard
    {
      match reply {
        case FetchRejected(message) =>
          error := Some(message);
        case NotOk =>
          error := Some(FetchFailedMessage);
        case BodyUnreadable(message) =>
          error := Some(message);
        case NullBody =>
          error := Some(NullBodyMessage);
        case Body(field) =>
          // `setGroups(data.groups || [])`, then the log line reads a
          // property of `data.groups` and throws when it is absent or null.
          groups := if field.Present? then field.list else [];
          if field == Absent {
            error := Some(MissingGroupsMessage);
          } else if field == Null {
            error := Some(NullGroupsMessage);
          }
      }
      loading := false;
    }

    /** `loadData` as a whole. */
    method LoadData(reply: LoadReply)
      modifies this
      ensures !loading
      ensures searchQuery == old(searchQuery) && searchType == old(searchType)
      ensures reply.Body? && reply.groups.Present? ==> groups == reply.groups.list && error == None
      ensures reply.Body? && !reply.groups.Present? ==> groups == [] && error.Some?
      ensures reply == Body(Absent) ==> error == Some(MissingGroupsMessage)
      ensures reply == Body(Null) ==> error == Some(NullGroupsMessage)
      ensures !reply.Body? ==> groups == old(groups) && error.Some?
      ensures reply.NotOk? ==> error == Some(FetchFailedMessage)
    {
      StartLoad();
      FinishLoad(reply);
    }

    method SetSearchQuery(query: string)
      modifies this
      ensures searchQuery == query
      ensures groups == old(groups) && loading == old(loading) && error == old(error) && searchType == old(searchType)
    {
      searchQuery := query;
    }

    method SetSearchType(t: string)
      modifies this
      ensures searchType == t
      ensures groups == old(groups) && loading == old(loading) && error == old(error) && searchQuery == old(searchQuery)
    {
      searchType := t;
    }
  }
}
