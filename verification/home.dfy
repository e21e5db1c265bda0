/** The Home screen's view state (app/home.tsx) as a state machine.
    The six `useState` slots form one immutable `State`; every user action
    and every fetch completion is an `Event`, applied by the pure `Step`
    when it arrives. A completion is applied whenever it arrives, whatever
    was requested since: the last response wins. */
module Home {
  import opened Wrappers
  import opened Recipes

  const DefaultCategory: string := "Seafood"
  const SearchTitle: string := "Search Results"
  const CategoryTitlePrefix: string := "Recipes for "

  /** `recipes` keeps `data.meals` exactly as the category fetch delivered
      it, so it may be None (`null`); search results are always a list. */
  datatype State = State(
    recipes: Option<seq<Recipe>>,
    category: string,
    query: string,
    searchResults: seq<Recipe>,
    selected: Option<Recipe>,
    modalVisible: bool)

  /** How a fetch ended: it failed (network error, bad JSON, or a `null`
      payload, whose `meals` read throws), or it delivered `data.meals`,
      which is None when null or absent. */
  datatype Response = Failed | Delivered(meals: Option<seq<Recipe>>)

  datatype Event =
    | ChooseCategory(name: string)       // tap on a category tile
    | CategoryFetched(response: Response)
    | EditQuery(text: string)            // onChangeText of the search box
    | KeyPress(key: string)              // onKeyPress of the search box
    | PressSearch                        // tap on the search icon
    | SearchFetched(response: Response)
    | ClickRecipe(id: string)            // tap on a recipe tile
    | DetailFetched(response: Response)
    | Dismiss                            // Back button or system back

  /** The remote queries the screen issues. */
  datatype Request =
    | ByCategory(category: string)
    | BySearch(query: string)
    | ById(id: string)

  datatype Transition = Transition(next: State, request: Option<Request>)

  /** The state at mount. */
  function Initial(): State
  {
    State(Some([]), DefaultCategory, "", [], None, false)
  }

  /** Mounting runs the category effect once for the default category. */
  function Mount(): Transition
  {
    Transition(Initial(), Some(ByCategory(DefaultCategory)))
  }

  /** `handleSearch`: a search is issued only for a non-empty query, and the
      state is left as it is either way. */
  function Submit(s: State): (t: Transition)
    ensures t.next == s
    ensures t.request.Some? <==> s.query != ""
    ensures t.request.Some? ==> t.request.value == BySearch(s.query)
  {
    Transition(s, if s.query != "" then Some(BySearch(s.query)) else None)
  }

  function Step(s: State, e: Event): (t: Transition)
    // each slot has its own writers
    ensures t.next.category != s.category ==> e.ChooseCategory?
    ensures t.next.recipes != s.recipes ==> e.CategoryFetched?
    ensures t.next.query != s.query ==> e.EditQuery?
    ensures t.next.searchResults != s.searchResults ==> e.SearchFetched?
    ensures t.next.selected != s.selected ==> e.DetailFetched?
    ensures t.next.modalVisible != s.modalVisible ==> e.DetailFetched? || e.Dismiss?
    // what is fetched, and when
    ensures t.request.Some? <==>
      || (e.ChooseCategory? && e.name != s.category)
      || ((e.PressSearch? || e == KeyPress("Enter")) && s.query != "")
      || e.ClickRecipe?
    ensures t.request == Some(ByCategory(e.name)) <== e.ChooseCategory? && e.name != s.category
    ensures t.request == Some(BySearch(s.query)) <== (e.PressSearch? || e == KeyPress("Enter")) && s.query != ""
    ensures t.request == Some(ById(e.id)) <== e.ClickRecipe?
    // the modal only opens together with a completed lookup
    ensures t.next.modalVisible && !s.modalVisible ==> e.DetailFetched? && e.response.Delivered?
  {
    match e
    case ChooseCategory(name) =>
      // the effect depends on `selectedCategory`: it reruns only on a change
      Transition(s.(category := name), if name != s.category then Some(ByCategory(name)) else None)
    case CategoryFetched(resp) =>
      if resp.Delivered? then Transition(s.(recipes := resp.meals), None)
      else Transition(s, None)
    case EditQuery(text) =>
      Transition(s.(query := text), None)
    case KeyPress(key) =>
      if key == "Enter" then Submit(s) else Transition(s, None)
    case PressSearch =>
      Submit(s)
    case SearchFetched(resp) =>
      if resp.Delivered? then Transition(s.(searchResults := resp.meals.GetOr([])), None)
      else Transition(s, None)
    case ClickRecipe(id) =>
      Transition(s, Some(ById(id)))
    case DetailFetched(resp) =>
      if resp.Delivered? && resp.meals.Some? then
        // `data.meals[0]` of an empty array is `undefined`
        var first := if |resp.meals.value| > 0 then Some(resp.meals.value[0]) else None;
        Transition(s.(selected := first, modalVisible := true), None)
      else Transition(s, None)
    case Dismiss =>
      Transition(s.(modalVisible := false), None)
  }

  /** The list handed to the recipe grid: the search results when there are
      any, otherwise the category recipes (possibly `null`). */
  function VisibleList(s: State): (l: Option<seq<Recipe>>)
    ensures l == Some(s.searchResults) || l == s.recipes
  {
    if |s.searchResults| > 0 then Some(s.searchResults) else s.recipes
  }

  /** The heading above the recipe grid. */
  function Title(s: State): (h: string)
    ensures h == SearchTitle || StartsWith(h, CategoryTitlePrefix)
  {
    if |s.searchResults| > 0 then SearchTitle else CategoryTitlePrefix + s.category
  }

  /** The state after a run of events, starting from `s`. */
  function Run(s: State, es: seq<Event>): State
    decreases es
  {
    if |es| == 0 then s else Run(Step(s, es[0]).next, es[1..])
  }

  /** At mount the default category is selected, nothing is searched or
      selected, the grid is empty and titled after the default category,
      and the only request is that category's fetch. */
  lemma MountView()
    ensures Mount().request == Some(ByCategory("Seafood"))
    ensures Mount().next.category == "Seafood" && Mount().next.query == ""
    ensures Mount().next.recipes == Some([]) && Mount().next.searchResults == []
    ensures Mount().next.selected.None? && !Mount().next.modalVisible
    ensures VisibleList(Mount().next) == Some([])
    ensures Title(Mount().next) == "Recipes for Seafood"
  {
  }

  /** The heading reads "Search Results" exactly when the grid shows the
      search results, and names the current category otherwise. */
  lemma TitleMatchesList(s: State)
    ensures Title(s) == SearchTitle <==> |s.searchResults| > 0
    ensures Title(s) == SearchTitle <==> VisibleList(s) == Some(s.searchResults) && s.searchResults != []
    ensures |s.searchResults| == 0 ==> VisibleList(s) == s.recipes && Title(s) == CategoryTitlePrefix + s.category
  {
    if |s.searchResults| == 0 {
      assert Title(s)[0] == 'R' != SearchTitle[0];
    }
  }

  /** Submitting with an empty query, by key or by button, changes nothing
      and fetches nothing; a key other than Enter never submits. */
  lemma EmptySubmitIsNoOp(s: State, key: string)
    requires s.query == ""
    ensures Step(s, PressSearch) == Transition(s, None)
    ensures Step(s, KeyPress(key)) == Transition(s, None)
  {
  }

  lemma OnlyEnterSubmits(s: State, key: string)
    ensures key != "Enter" ==> Step(s, KeyPress(key)) == Transition(s, None)
    ensures Step(s, KeyPress("Enter")) == Step(s, PressSearch)
  {
  }

  /** A delivered search replaces the results wholesale (null meaning no
      results); a failed one leaves them as they were. */
  lemma SearchCompletion(s: State, r: Response)
    ensures r.Delivered? && r.meals.Some? ==> Step(s, SearchFetched(r)).next.searchResults == r.meals.value
    ensures r.Delivered? && r.meals.None? ==> Step(s, SearchFetched(r)).next.searchResults == []
    ensures r.Failed? ==> Step(s, SearchFetched(r)).next == s
  {
  }

  /** Typing stores the text verbatim and nothing else: clearing the box
      keeps the grid and its heading as they were. */
  lemma EditKeepsView(s: State, text: string)
    ensures Step(s, EditQuery(text)).next == s.(query := text)
    ensures VisibleList(Step(s, EditQuery(text)).next) == VisibleList(s)
    ensures Title(Step(s, EditQuery(text)).next) == Title(s)
  {
  }

  /** A delivered category fetch stores `data.meals` as received, null
      included; a failed one changes nothing. */
  lemma CategoryCompletion(s: State, r: Response)
    ensures r.Delivered? ==> Step(s, CategoryFetched(r)).next == s.(recipes := r.meals)
    ensures r.Failed? ==> Step(s, CategoryFetched(r)).next == s
  {
  }

  /** Choosing a category changes only the selected category; while there
      are search results they keep the grid, and the category's own fetch
      cannot displace them. */
  lemma CategoryKeepsSearchPrecedence(s: State, name: string, r: Response)
    requires |s.searchResults| > 0
    ensures Step(s, ChooseCategory(name)).next == s.(category := name)
    ensures VisibleList(Step(s, ChooseCategory(name)).next) == Some(s.searchResults)
    ensures VisibleList(Step(Step(s, ChooseCategory(name)).next, CategoryFetched(r)).next) == Some(s.searchResults)
    ensures Title(Step(Step(s, ChooseCategory(name)).next, CategoryFetched(r)).next) == SearchTitle
  {
  }

  /** Whatever order the requests were made in, the later delivered
      category completion decides the recipes, even one for a category no
      longer selected; a later failure leaves the earlier result in place. */
  lemma LastCategoryResponseWins(s: State, first: Response, second: Response)
    ensures second.Delivered? ==>
      Step(Step(s, CategoryFetched(first)).next, CategoryFetched(second)).next.recipes == second.meals
    ensures second.Failed? ==>
      Step(Step(s, CategoryFetched(first)).next, CategoryFetched(second)).next.recipes
        == Step(s, CategoryFetched(first)).next.recipes
  {
  }

  /** Choosing the category already selected issues no second fetch. */
  lemma ReselectIssuesNoFetch(s: State)
    ensures Step(s, ChooseCategory(s.category)) == Transition(s, None)
  {
  }

  /** A lookup delivering a non-empty list opens the modal on its first
      recipe; a null list or a failure changes nothing; dismissal hides the
      modal and keeps the selection. */
  lemma DetailHandling(s: State, r: Response)
    ensures r.Delivered? && r.meals.Some? && |r.meals.value| > 0 ==>
      Step(s, DetailFetched(r)).next == s.(selected := Some(r.meals.value[0]), modalVisible := true)
    ensures r.Failed? || r.meals.None? ==> Step(s, DetailFetched(r)).next == s
    ensures Step(s, Dismiss).next == s.(modalVisible := false)
  {
  }

  /** "The modal shows a recipe": the overlay is only visible with a
      recipe selected. */
  predicate ModalShowsRecipe(s: State)
  {
    s.modalVisible ==> s.selected.Some?
  }

  /** A lookup payload that, if delivered, names at least one recipe. */
  predicate NonEmptyLookups(es: seq<Event>)
  {
    forall i :: 0 <= i < |es| && es[i].DetailFetched? && es[i].response.Delivered? && es[i].response.meals.Some? ==>
      |es[i].response.meals.value| > 0
  }

  /** While every delivered lookup names a recipe, the modal is never
      visible without a selected recipe, and a selection once made is never
      cleared. */
  lemma {:induction false} ModalInvariant(s: State, es: seq<Event>)
    requires ModalShowsRecipe(s)
    requires NonEmptyLookups(es)
    ensures ModalShowsRecipe(Run(s, es))
    ensures s.selected.Some? ==> Run(s, es).selected.Some?
    decreases es
  {
    if |es| > 0 {
      var t := Step(s, es[0]).next;
      assert NonEmptyLookups(es[1..]) by {
        forall i | 0 <= i < |es[1..]|
          ensures es[1..][i] == es[i + 1]
        {
        }
      }
      assert ModalShowsRecipe(t) by {
        if es[0].DetailFetched? && es[0].response.Delivered? && es[0].response.meals.Some? {
          assert |es[0].response.meals.value| > 0;
        }
      }
      ModalInvariant(t, es[1..]);
    }
  }

  /** From mount, no run of events with non-empty lookups shows the modal
      without a recipe. */
  lemma {:induction false} ModalShowsRecipeFromMount(es: seq<Event>)
    requires NonEmptyLookups(es)
    ensures ModalShowsRecipe(Run(Mount().next, es))
  {
    ModalInvariant(Mount().next, es);
  }

  /** An empty lookup array is truthy, so it opens the modal with
      `data.meals[0]`, which is `undefined`: the overlay shows no recipe. */
  lemma EmptyLookupOpensEmptyModal(s: State)
    ensures Step(s, DetailFetched(Delivered(Some([])))).next.modalVisible
    ensures Step(s, DetailFetched(Delivered(Some([])))).next.selected.None?
    ensures !ModalShowsRecipe(Run(Mount().next, [DetailFetched(Delivered(Some([])))]))
  {
  }
}
