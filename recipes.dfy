/** The recipes page: a search box whose term selects between a "suggested"
    listing and a title search, the saved-recipes list loaded in two steps,
    and the render that picks which section to show. Each effect is one
    atomic step whose remote answers are inputs. */
module Recipes {
  import opened Remote
  import opened JsString

  /** A row of the `Recipes` table as the page selects it (`id, title`). */
  datatype Recipe = Recipe(id: int, title: string)

  /** A row of the `SavedRecipes` table as the page selects it (`recipe_id`). */
  datatype SavedIdRow = SavedIdRow(recipeId: int)

  /** Which query the search effect issues. */
  datatype Mode = Suggested | Search

  /** The suggested listing's page size. */
  const SuggestedLimit: nat := 10

  /** `searchTerm.trim() === ''` selects the suggested listing; any term with
      a non-whitespace character selects the title search. */
  function ModeFor(term: string): (m: Mode)
  {
    if Trim(term) == "" then Suggested else Search
  }

  /** The mode is the suggested listing exactly for an all-whitespace term. */
  lemma ModeForBlank(term: string)
    ensures ModeFor(term) == Suggested <==> AllTrimmed(term)
  {
    TrimIsEmptyIff(term);
  }

  /** The calls the page makes on the store, as recorded parameters. */
  datatype Request =
    | FirstById(ascending: bool, limit: nat)  // `.order('id', { ascending }).limit(limit)`
    | TitleILike(pattern: string)             // `.ilike('title', pattern)`
    | SavedIdsOf(userId: string)              // `SavedRecipes` rows with `user_id` equal
    | RecipesIn(ids: seq<int>)                // `Recipes` rows whose `id` is among `ids`

  /** The request the search effect issues for `term`. */
  function QueryRequest(term: string): (rq: Request)
  {
    match ModeFor(term)
    case Suggested => FirstById(true, SuggestedLimit)
    case Search => TitleILike("%" + term + "%")
  }

  /** A blank term requests the first ten recipes by ascending id; any other
      term requests a case-insensitive match of the untrimmed term anywhere
      in the title. */
  lemma QueryRequestFor(term: string)
    ensures AllTrimmed(term) ==> QueryRequest(term) == FirstById(true, 10)
    ensures !AllTrimmed(term) ==> QueryRequest(term) == TitleILike("%" + term + "%")
  {
    ModeForBlank(term);
  }

  /** The two query-driven lists. */
  datatype Lists = Lists(searched: seq<Recipe>, suggested: seq<Recipe>)

  /** The invariant of the page: never both lists populated at once. */
  predicate OneEmpty(l: Lists)
  {
    l.searched == [] || l.suggested == []
  }

  /** A query that has settled: the term its effect read and its answer. */
  datatype Completion = Completion(term: string, reply: Reply<seq<Recipe>>)

  /** The lists once the completion `c` has been handled. */
  function QueryStep(lists: Lists, c: Completion): (l: Lists)
  {
    match c.reply
    case Threw => lists
    case Failed =>
      if ModeFor(c.term) == Suggested then lists.(suggested := []) else lists.(searched := [])
    case _ =>
      if ModeFor(c.term) == Suggested then Lists([], RowsOrEmpty(c.reply))
      else Lists(RowsOrEmpty(c.reply), [])
  }

  /** A blank term: a success installs its rows (none for a null answer) as
      the suggestions and empties the search results; an error empties only
      the suggestions; an exception changes nothing. */
  lemma SuggestedQuerySettles(lists: Lists, term: string, reply: Reply<seq<Recipe>>)
    requires AllTrimmed(term)
    ensures var r := QueryStep(lists, Completion(term, reply));
      (reply.Rows? ==> r == Lists([], reply.data)) &&
      (reply.NoRows? ==> r == Lists([], [])) &&
      (reply.Failed? ==> r == Lists(lists.searched, [])) &&
      (reply.Threw? ==> r == lists)
  {
    ModeForBlank(term);
  }

  /** A term with a non-blank character: the mirror image, on the search results. */
  lemma SearchQuerySettles(lists: Lists, term: string, reply: Reply<seq<Recipe>>)
    requires !AllTrimmed(term)
    ensures var r := QueryStep(lists, Completion(term, reply));
      (reply.Rows? ==> r == Lists(reply.data, [])) &&
      (reply.NoRows? ==> r == Lists([], [])) &&
      (reply.Failed? ==> r == Lists([], lists.suggested)) &&
      (reply.Threw? ==> r == lists)
  {
    ModeForBlank(term);
  }

  /** Every settled query that did not throw leaves at most one list
      populated, whatever the lists were; one that threw keeps them as they were. */
  lemma QueryStepOneEmpty(lists: Lists, c: Completion)
    requires OneEmpty(lists) || !c.reply.Threw?
    ensures OneEmpty(QueryStep(lists, c))
  {
  }

  /** The lists after the completions `cs` have arrived, in that order. */
  function Run(lists: Lists, cs: seq<Completion>): (l: Lists)
    decreases |cs|
  {
    if cs == [] then lists else Run(QueryStep(lists, cs[0]), cs[1..])
  }

  /** Starting from two empty lists (or any state with one empty), no order
      of arrival of settled queries, for whatever terms, populates both lists. */
  lemma {:induction false} RunOneEmpty(lists: Lists, cs: seq<Completion>)
    requires OneEmpty(lists)
    ensures OneEmpty(Run(lists, cs))
    decreases |cs|
  {
    if cs != [] {
      QueryStepOneEmpty(lists, cs[0]);
      RunOneEmpty(QueryStep(lists, cs[0]), cs[1..]);
    }
  }

  /** `savedIds.map((r) => r.recipe_id)`. */
  function RecipeIds(rows: seq<SavedIdRow>): (ids: seq<int>)
    ensures |ids| == |rows|
    ensures forall i :: 0 <= i < |rows| ==> ids[i] == rows[i].recipeId
  {
    seq(|rows|, i requires 0 <= i < |rows| => rows[i].recipeId)
  }

  /** The saved list after the two-step load, from the answer of the id
      query and, when it is reached, that of the record query. */
  function SavedLoad(saved: seq<Recipe>, ids: Reply<seq<SavedIdRow>>, records: Reply<seq<Recipe>>): (s: seq<Recipe>)
  {
    match ids
    case Threw => saved
    case Failed => []
    case NoRows => []
    case Rows(rows) =>
      if |rows| == 0 then []
      else
        match records
        case Threw => saved
        case Failed => []
        case _ => RowsOrEmpty(records)
  }

  /** The saved list is emptied when the id query fails or finds no ids, and
      when the record query fails; it is the fetched records when both queries
      answer; an exception leaves it as it was; nothing else is possible. */
  lemma SavedLoadOutcome(saved: seq<Recipe>, ids: Reply<seq<SavedIdRow>>, records: Reply<seq<Recipe>>)
    ensures var r := SavedLoad(saved, ids, records);
      var reached := ids.Rows? && ids.data != [];
      (ids.Failed? || ids.NoRows? || (ids.Rows? && ids.data == []) ==> r == []) &&
      (reached && records.Failed? ==> r == []) &&
      (reached && records.Rows? ==> r == records.data) &&
      (reached && records.NoRows? ==> r == []) &&
      (ids.Threw? || (reached && records.Threw?) ==> r == saved)
  {
  }

  /** The calls the saved-recipes load makes for `user`: the id query and,
      only when it answered with at least one id, the record query for those ids. */
  function SavedRequests(user: string, ids: Reply<seq<SavedIdRow>>): (rs: seq<Request>)
    ensures |rs| >= 1 && rs[0] == SavedIdsOf(user)
    ensures |rs| == 2 <==> ids.Rows? && ids.data != []
    ensures |rs| == 2 ==> rs[1] == RecipesIn(RecipeIds(ids.data)) && |rs[1].ids| == |ids.data|
    ensures |rs| <= 2
  {
    match ids
    case Rows(rows) => if |rows| == 0 then [SavedIdsOf(user)] else [SavedIdsOf(user), RecipesIn(RecipeIds(rows))]
    case _ => [SavedIdsOf(user)]
  }

  /** The first section of the page. */
  datatype QuerySection =
    | SearchResults(term: string, recipes: seq<Recipe>)
    | NoRecipesFound(term: string)
    | Suggestions(recipes: seq<Recipe>)
    | NoSuggestions

  /** The render picks the section by the truthiness of the untrimmed term,
      then shows the list, or its "none" message when it is empty. */
  function RenderQuerySection(term: string, lists: Lists): (s: QuerySection)
    ensures (s.SearchResults? || s.NoRecipesFound?) <==> term != ""
    ensures s.SearchResults? ==> s.recipes == lists.searched && lists.searched != [] && s.term == term
    ensures s.NoRecipesFound? ==> lists.searched == [] && s.term == term
    ensures s.Suggestions? ==> s.recipes == lists.suggested && lists.suggested != []
    ensures s.NoSuggestions? ==> lists.suggested == []
  {
    if Truthy(term) then
      if |lists.searched| == 0 then NoRecipesFound(term) else SearchResults(term, lists.searched)
    else
      if |lists.suggested| == 0 then NoSuggestions else Suggestions(lists.suggested)
  }

  /** The query mode and the section shown disagree only on a term made of
      whitespace: an empty term is a suggested query, and a term with a
      non-whitespace character is non-empty. */
  lemma ModeAndSection(term: string)
    ensures term == "" ==> ModeFor(term) == Suggested
    ensures ModeFor(term) == Search ==> Truthy(term)
    ensures (ModeFor(term) == Suggested && Truthy(term)) <==> (term != "" && AllTrimmed(term))
  {
    ModeForBlank(term);
  }

  /** A whitespace-only term runs the suggested query, whose success empties
      the search results, while the render shows the search section: the
      page reads "No recipes found." however many suggestions arrived. */
  lemma WhitespaceTermShowsNoResults(lists: Lists, term: string, reply: Reply<seq<Recipe>>)
    requires term != "" && AllTrimmed(term)
    requires reply.Rows? || reply.NoRows?
    ensures RenderQuerySection(term, QueryStep(lists, Completion(term, reply))) == NoRecipesFound(term)
  {
    ModeForBlank(term);
  }

  /** The saved-recipes section. */
  datatype SavedSection = LoadingSaved | NoSavedRecipes | SavedList(recipes: seq<Recipe>)

  function RenderSavedSection(loading: bool, saved: seq<Recipe>): (s: SavedSection)
    ensures s.LoadingSaved? <==> loading
    ensures s.NoSavedRecipes? <==> !loading && saved == []
    ensures s.SavedList? ==> s.recipes == saved
  {
    if loading then LoadingSaved else if |saved| == 0 then NoSavedRecipes else SavedList(saved)
  }

  /** The page's state cells, with the calls it made on the store and the
      paths it pushed on the router. */
  class RecipesPage {
    var searchTerm: string
    var searchedRecipes: seq<Recipe>
    var suggestedRecipes: seq<Recipe>
    var savedRecipes: seq<Recipe>
    var loading: bool
    var requests: seq<Request>
    var pushes: seq<string>

    constructor ()
      ensures searchTerm == "" && searchedRecipes == [] && suggestedRecipes == []
      ensures savedRecipes == [] && loading
      ensures requests == [] && pushes == []
    {
      searchTerm := "";
      searchedRecipes, suggestedRecipes, savedRecipes := [], [], [];
      loading := true;
      requests, pushes := [], [];
    }

    /** The two query-driven lists. */
    function CurrentLists(): Lists
      reads this
    {
      Lists(searchedRecipes, suggestedRecipes)
    }

    /** The search box's `onChange`. */
    method SetSearchTerm(term: string)
      modifies this
      ensures searchTerm == term
      ensures searchedRecipes == old(searchedRecipes) && suggestedRecipes == old(suggestedRecipes)
      ensures savedRecipes == old(savedRecipes) && loading == old(loading)
      ensures requests == old(requests) && pushes == old(pushes)
    {
      searchTerm := term;
    }

    /** The session check: a session known to be absent (`null`) sends the
        user to /login; one still being resolved does nothing. */
    method SessionEffect(session: Session)
      modifies this
      ensures pushes == old(pushes) + (if session.SignedOut? then ["/login"] else [])
      ensures searchTerm == old(searchTerm) && CurrentLists() == old(CurrentLists())
      ensures savedRecipes == old(savedRecipes) && loading == old(loading)
      ensures requests == old(requests)
    {
      if session.SignedOut? {
        pushes := pushes + ["/login"];
      }
    }

    /** The saved-recipes load, with both answers as inputs. Every path that
        runs ends with `loading` false (the last step sits in a `finally`). */
    method SavedRecipesEffect(session: Session, ids: Reply<seq<SavedIdRow>>, records: Reply<seq<Recipe>>)
      modifies this
      ensures searchTerm == old(searchTerm) && CurrentLists() == old(CurrentLists())
      ensures pushes == old(pushes)
      ensures !session.Present() ==>
        savedRecipes == old(savedRecipes) && loading == old(loading) && requests == old(requests)
      ensures session.Present() ==>
        savedRecipes == SavedLoad(old(savedRecipes), ids, records) && !loading &&
        requests == old(requests) + SavedRequests(session.userId, ids)
    {
      if !session.Present() {
        return;
      }
      // try
      loading := true;
      requests := requests + [SavedIdsOf(session.userId)];
      if ids.Threw? {
        // catch, then finally
        loading := false;
        return;
      }
      if ids.Failed? {
        savedRecipes := [];
        loading := false;
        return;
      }
      if ids.NoRows? || |ids.data| == 0 {
        savedRecipes := [];
        loading := false;
        return;
      }
      var recipeIds := RecipeIds(ids.data);
      requests := requests + [RecipesIn(recipeIds)];
      if records.Threw? {
        loading := false;
        return;
      }
      if records.Failed? {
        savedRecipes := [];
        loading := false;
        return;
      }
      savedRecipes := RowsOrEmpty(records);
      // finally
      loading := false;
    }

    /** The suggested-or-search effect, with the query's answer as an input. */
    method QueryEffect(session: Session, reply: Reply<seq<Recipe>>)
      modifies this
      ensures searchTerm == old(searchTerm) && pushes == old(pushes)
      ensures savedRecipes == old(savedRecipes) && loading == old(loading)
      ensures !session.Present() ==> CurrentLists() == old(CurrentLists()) && requests == old(requests)
      ensures session.Present() ==> requests == old(requests) + [QueryRequest(searchTerm)]
      ensures session.Present() ==>
        Lists(searchedRecipes, suggestedRecipes) ==
        QueryStep(Lists(old(searchedRecipes), old(suggestedRecipes)), Completion(searchTerm, reply))
    {
      if !session.Present() {
        return;
      }
      var mode := ModeFor(searchTerm);  // searchTerm.trim() === ''
      requests := requests + [QueryRequest(searchTerm)];
      if reply.Threw? {
        return;
      }
      if mode == Suggested {
        if reply.Failed? {
          suggestedRecipes := [];
          return;
        }
        suggestedRecipes := RowsOrEmpty(reply);
        searchedRecipes := [];
      } else {
        if reply.Failed? {
          searchedRecipes := [];
          return;
        }
        searchedRecipes := RowsOrEmpty(reply);
        suggestedRecipes := [];
      }
    }
  }
}
